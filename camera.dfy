/** The camera: projection parameters, a clamped zoom factor and the viewport resolution. */
module CameraModel {
  import opened Matrix

  /** 1.1, the factor of one zoom step. */
  const ZoomStep: real := 1.1
  /** `200 * 1.1`, the largest zoom `zoom_in` produces. */
  const MaxZoom: real := 200.0 * ZoomStep
  /** `1 / 1.1 / 200`, the smallest zoom `zoom_out` produces. */
  const MinZoom: real := 1.0 / ZoomStep / 200.0
  /** `M_PI_4`, the default field of view (the nearest double to pi / 4). */
  const QuarterPi: real := 0.7853981633974483

  /** The zoom after `zoom_in`: one step larger, capped at MaxZoom. */
  function ZoomedIn(zoom: real): (r: real)
    ensures r <= MaxZoom
    ensures r == zoom * ZoomStep || r == MaxZoom
    ensures zoom * ZoomStep <= MaxZoom ==> r == zoom * ZoomStep
  {
    if zoom * ZoomStep < MaxZoom then zoom * ZoomStep else MaxZoom
  }

  /** The zoom after `zoom_out`: one step smaller, bounded below by MinZoom. */
  function ZoomedOut(zoom: real): (r: real)
    ensures r >= MinZoom
    ensures r == zoom / ZoomStep || r == MinZoom
    ensures zoom / ZoomStep >= MinZoom ==> r == zoom / ZoomStep
  {
    if zoom / ZoomStep > MinZoom then zoom / ZoomStep else MinZoom
  }

  /** Within the reachable range, a step out undoes a step in and a step in undoes a step out,
      except where the step in would pass the cap or the step out the floor. */
  lemma {:induction false} ZoomStepsCancel(zoom: real)
    ensures MinZoom <= zoom <= 200.0 ==> ZoomedOut(ZoomedIn(zoom)) == zoom
    ensures 1.0 / 200.0 <= zoom <= MaxZoom ==> ZoomedIn(ZoomedOut(zoom)) == zoom
  {
    if MinZoom <= zoom <= 200.0 {
      assert ZoomedIn(zoom) == zoom * ZoomStep;
      assert zoom * ZoomStep / ZoomStep == zoom;
    }
    if 1.0 / 200.0 <= zoom <= MaxZoom {
      assert ZoomedOut(zoom) == zoom / ZoomStep;
      assert zoom / ZoomStep * ZoomStep == zoom;
    }
  }

  /** The zoom after a sequence of steps, `true` for `zoom_in` and `false` for `zoom_out`. */
  function ZoomAfter(zoom: real, steps: seq<bool>): real
    decreases |steps|
  {
    if |steps| == 0 then zoom
    else ZoomAfter(if steps[0] then ZoomedIn(zoom) else ZoomedOut(zoom), steps[1..])
  }

  /** Any sequence of steps from a zoom inside [MinZoom, MaxZoom], the default 1 among them,
      stays inside it. */
  lemma {:induction false} ZoomStaysInRange(zoom: real, steps: seq<bool>)
    requires MinZoom <= zoom <= MaxZoom
    ensures MinZoom <= ZoomAfter(zoom, steps) <= MaxZoom
    decreases |steps|
  {
    if |steps| > 0 {
      var next := if steps[0] then ZoomedIn(zoom) else ZoomedOut(zoom);
      assert MinZoom <= next <= MaxZoom by {
        if steps[0] {
          assert zoom * ZoomStep >= zoom;
        } else {
          assert zoom / ZoomStep <= zoom;
        }
      }
      ZoomStaysInRange(next, steps[1..]);
    }
  }

  lemma {:induction false} DefaultZoomInRange(steps: seq<bool>)
    ensures MinZoom <= ZoomAfter(1.0, steps) <= MaxZoom
  {
    ZoomStaysInRange(1.0, steps);
  }

  /** `float_t(width) / height`: a float division, which yields infinity or NaN for height 0. */
  datatype Ratio = Finite(value: real) | NotFinite

  /** Which projection `projection_matrix` computes. */
  datatype ProjectionKind = Orthogonal | Perspective

  class Camera {
    var far: real
    var fov: real
    var near: real
    var top: real
    var zoom: real
    var height: nat
    var width: nat
    var viewMatrix: Entries
    /** `projection_matrix_` and `projection_mode_`. */
    var projectionMatrix: Entries
    var projectionMode: bool

    /** The member initialisers. */
    constructor ()
      ensures far == 0.0 && fov == QuarterPi && near == 0.0 && top == 0.0 && zoom == 1.0
      ensures height == 0 && width == 0
      ensures viewMatrix == Identity() && projectionMatrix == Identity()
      ensures !projectionMode
    {
      far, fov, near, top, zoom := 0.0, QuarterPi, 0.0, 0.0, 1.0;
      height, width := 0, 0;
      viewMatrix := Diagonal(1.0);
      projectionMatrix := Diagonal(1.0);
      projectionMode := false;
    }

    /** `aspect_ratio()`: width over height, not finite when the height is 0. */
    function AspectRatio(): (r: Ratio)
      reads this
      ensures r.NotFinite? <==> height == 0
      ensures r.Finite? ==> r.value * height as real == width as real && r.value >= 0.0
    {
      if height == 0 then NotFinite else Finite(width as real / height as real)
    }

    /** `projection_mode(mode)`: stores the mode and returns it. */
    method ProjectionModeSet(mode: bool) returns (r: bool)
      modifies this
      ensures r == mode && projectionMode == mode
      ensures (far, fov, near, top, zoom, height, width) == old((far, fov, near, top, zoom, height, width))
      ensures viewMatrix == old(viewMatrix) && projectionMatrix == old(projectionMatrix)
    {
      projectionMode := mode;
      r := projectionMode;
    }

    /** The selection in `projection_matrix()`: perspective exactly when the stored mode is true.
        The matrices themselves are not computed here. */
    function ProjectionMatrixKind(): (k: ProjectionKind)
      reads this
      ensures k == Perspective <==> projectionMode
    {
      if projectionMode then Perspective else Orthogonal
    }

    /** `set_resolution(size)`: a square viewport. */
    method SetResolution(size: nat)
      modifies this
      ensures width == size && height == size
      ensures (far, fov, near, top, zoom, projectionMode) == old((far, fov, near, top, zoom, projectionMode))
      ensures viewMatrix == old(viewMatrix) && projectionMatrix == old(projectionMatrix)
      ensures AspectRatio() == if size == 0 then NotFinite else Finite(1.0)
    {
      height := size;
      width := height;
    }

    /** `set_resolution(width, height)`. */
    method SetResolutionWH(w: nat, h: nat)
      modifies this
      ensures width == w && height == h
      ensures (far, fov, near, top, zoom, projectionMode) == old((far, fov, near, top, zoom, projectionMode))
      ensures viewMatrix == old(viewMatrix) && projectionMatrix == old(projectionMatrix)
    {
      width := w;
      height := h;
    }

    /** `zoom_in()`. */
    method ZoomIn()
      modifies this
      ensures zoom == ZoomedIn(old(zoom))
      ensures (far, fov, near, top, height, width, projectionMode) == old((far, fov, near, top, height, width, projectionMode))
      ensures viewMatrix == old(viewMatrix) && projectionMatrix == old(projectionMatrix)
    {
      var stepped := zoom * ZoomStep;
      zoom := if stepped < MaxZoom then stepped else MaxZoom;
    }

    /** `zoom_out()`. */
    method ZoomOut()
      modifies this
      ensures zoom == ZoomedOut(old(zoom))
      ensures (far, fov, near, top, height, width, projectionMode) == old((far, fov, near, top, height, width, projectionMode))
      ensures viewMatrix == old(viewMatrix) && projectionMatrix == old(projectionMatrix)
    {
      var stepped := zoom / ZoomStep;
      zoom := if stepped > MinZoom then stepped else MinZoom;
    }
  }
}
