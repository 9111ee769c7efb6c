/** `Scene::transform_sphere_attrs`: one sphere attribute per atom, addressing a square
    colour atlas of side ceil(sqrt(n)). */
module SceneModel {
  import opened Vectors
  import opened Rgba
  import opened Shape
  import opened Mol

  /** `SphereMeshAttr`: colour, dense index, atlas texture coordinate and sphere. */
  datatype SphereMeshAttr = SphereMeshAttr(color: Rgba8, index: nat, texcoord: Vec2, sphere: Sphere)

  /** ceil(sqrt(n)) over the integers: the side of the smallest square holding n texels. */
  function CeilSqrt(n: nat): (s: nat)
    ensures s * s >= n
    ensures s == 0 || (s - 1) * (s - 1) < n
    ensures s == 0 <==> n == 0
  {
    CeilSqrtFrom(n, 0)
  }

  /** The least side not below `s` whose square reaches n; every smaller side falls short. */
  function CeilSqrtFrom(n: nat, s: nat): (r: nat)
    requires s <= n
    requires s == 0 || (s - 1) * (s - 1) < n
    ensures r * r >= n
    ensures r == 0 || (r - 1) * (r - 1) < n
    ensures r == 0 ==> n == 0
    decreases n - s
  {
    if s * s >= n then s
    else
      assert s <= s * s;
      CeilSqrtFrom(n, s + 1)
  }

  /** CeilSqrt(n) is the least side whose square reaches n. */
  lemma {:induction false} CeilSqrtLeast(n: nat, t: nat)
    requires t * t >= n
    ensures CeilSqrt(n) <= t
  {
  }

  /** The atlas texel of index i: column i mod s, row i div s. Reading the texel back
      row-major gives i again. */
  function Texel(i: nat, s: nat): (t: (nat, nat))
    requires s > 0
    ensures t.0 < s
    ensures t.1 * s + t.0 == i
  {
    (i % s, i / s)
  }

  /** The texture coordinate stored for index i: its texel divided by the atlas side. */
  function TexCoord(i: nat, s: nat): Vec2
    requires s > 0
  {
    var t := Texel(i, s);
    Vec2(t.0 as real / s as real, t.1 as real / s as real)
  }

  /** Every index below n has both texel components below the atlas side. */
  lemma {:induction false} TexelInRange(i: nat, n: nat)
    requires i < n
    ensures CeilSqrt(n) > 0
    ensures Texel(i, CeilSqrt(n)).0 < CeilSqrt(n) && Texel(i, CeilSqrt(n)).1 < CeilSqrt(n)
  {
    var s := CeilSqrt(n);
    var q := i / s;
    assert q * s <= i;
    QuotientBelowSide(q, s);
  }

  lemma QuotientBelowSide(q: nat, s: nat)
    requires s > 0 && q * s < s * s
    ensures q < s
  {
  }

  /** Distinct indices have distinct texels. */
  lemma {:induction false} TexelInjective(i: nat, j: nat, s: nat)
    requires s > 0
    ensures Texel(i, s) == Texel(j, s) <==> i == j
  {
    var ti, tj := Texel(i, s), Texel(j, s);
    if ti == tj {
      assert i == ti.1 * s + ti.0 == tj.1 * s + tj.0 == j;
    }
  }

  /** Texture coordinates of indices below n lie in [0, 1) and tell the indices apart. */
  lemma {:induction false} TexCoordInUnitSquare(i: nat, j: nat, n: nat)
    requires i < n && j < n
    ensures 0.0 <= TexCoord(i, CeilSqrt(n)).x < 1.0 && 0.0 <= TexCoord(i, CeilSqrt(n)).y < 1.0
    ensures TexCoord(i, CeilSqrt(n)) == TexCoord(j, CeilSqrt(n)) <==> i == j
  {
    var s := CeilSqrt(n);
    TexelInRange(i, n);
    UnitFraction(Texel(i, s).0, s);
    UnitFraction(Texel(i, s).1, s);
    TexelInjective(i, j, s);
    if TexCoord(i, s) == TexCoord(j, s) {
      FractionInjective(Texel(i, s).0, Texel(j, s).0, s);
      FractionInjective(Texel(i, s).1, Texel(j, s).1, s);
    }
  }

  lemma UnitFraction(a: nat, s: nat)
    requires a < s
    ensures 0.0 <= a as real / s as real < 1.0
  {
  }

  lemma FractionInjective(a: nat, b: nat, s: nat)
    requires s > 0 && a as real / s as real == b as real / s as real
    ensures a == b
  {
    assert a as real == a as real / s as real * s as real;
  }

  /** `std::floor(float(i) / s)` is the integer quotient i div s. */
  lemma {:induction false} FloorOfQuotient(i: nat, s: nat)
    requires s > 0
    ensures (i as real / s as real).Floor == i / s
  {
    var q, r := i / s, i % s;
    assert i == q * s + r;
    var x := i as real / s as real;
    assert x == q as real + r as real / s as real by {
      assert i as real == q as real * s as real + r as real;
    }
    UnitFraction(r, s);
  }

  /** `transform_sphere_attrs`: the k-th attribute describes the k-th atom, with index k, the
      representation's radius for its element, its position, the representation's colour for
      it and the texel of k in the atlas. */
  method TransformSphereAttrs(atoms: seq<Atom>, atomRadius: Element -> real, atomColor: Atom -> Rgba8)
    returns (output: seq<SphereMeshAttr>)
    ensures |output| == |atoms|
    ensures forall k | 0 <= k < |output| :: output[k].index == k
    ensures forall k | 0 <= k < |output| ::
              output[k].sphere == SphereAt(atomRadius(atoms[k].element), atoms[k].position)
    ensures forall k | 0 <= k < |output| :: output[k].color == atomColor(atoms[k])
    ensures forall k | 0 <= k < |output| :: CeilSqrt(|atoms|) > 0 && output[k].texcoord == TexCoord(k, CeilSqrt(|atoms|))
  {
    var texSize := CeilSqrt(|atoms|);
    var aindex: nat := 0;
    output := [];
    while aindex < |atoms|
      invariant aindex <= |atoms|
      invariant |output| == aindex
      invariant forall k | 0 <= k < aindex :: output[k].index == k
      invariant forall k | 0 <= k < aindex ::
                  output[k].sphere == SphereAt(atomRadius(atoms[k].element), atoms[k].position)
      invariant forall k | 0 <= k < aindex :: output[k].color == atomColor(atoms[k])
      invariant forall k | 0 <= k < aindex :: texSize > 0 && output[k].texcoord == TexCoord(k, texSize)
    {
      var atom := atoms[aindex];
      var element := atom.element;
      var apos := atom.position;
      var arad := atomRadius(element);
      var acol := atomColor(atom);
      FloorOfQuotient(aindex, texSize);
      var atex := Vec2((aindex % texSize) as real / texSize as real,
                       (aindex as real / texSize as real).Floor as real / texSize as real);
      var attr := SphereMeshAttr(acol, aindex, atex, SphereAt(arad, apos));
      output := output + [attr];
      aindex := aindex + 1;
    }
  }
}
