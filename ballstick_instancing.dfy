/** `ballstick_instancing_representation`: the atom radius policy and the instanced drawing
    of the two bond cylinder groups followed by the atom spheres. GL state changes are
    recorded as a trace of commands. */
module BallstickInstancing {
  import opened Mol

  /** `atom_radius_kind`: van der Waals, covalent, or any other kind (a fixed radius). */
  datatype AtomRadiusKind = VanDerWaals | Covalent | Other

  /** `atom_radius(element)`: the element's radius of the selected kind scaled by `radius_size`,
      or `radius_size` itself for any other kind. */
  function AtomRadius(kind: AtomRadiusKind, radiusSize: real, element: Element): real
  {
    match kind
    case VanDerWaals => element.rvdw * radiusSize
    case Covalent => element.rcov * radiusSize
    case Other => radiusSize
  }

  /** The three cases of the policy; the radius is linear in `radius_size`, nonnegative for
      nonnegative data, and independent of the element for the fixed kind. */
  lemma {:induction false} AtomRadiusScales(kind: AtomRadiusKind, radiusSize: real, t: real, element: Element, other: Element)
    ensures kind == VanDerWaals ==> AtomRadius(kind, radiusSize, element) == element.rvdw * radiusSize
    ensures kind == Covalent ==> AtomRadius(kind, radiusSize, element) == element.rcov * radiusSize
    ensures kind == Other ==> AtomRadius(kind, radiusSize, element) == radiusSize
    ensures radiusSize >= 0.0 && element.rvdw >= 0.0 && element.rcov >= 0.0 ==> AtomRadius(kind, radiusSize, element) >= 0.0
    ensures kind == Other ==> AtomRadius(kind, radiusSize, element) == AtomRadius(kind, radiusSize, other)
    ensures AtomRadius(kind, t * radiusSize, element) == t * AtomRadius(kind, radiusSize, element)
  {
    match kind
    case VanDerWaals =>
      assert element.rvdw * (t * radiusSize) == t * (element.rvdw * radiusSize);
    case Covalent =>
      assert element.rcov * (t * radiusSize) == t * (element.rcov * radiusSize);
    case Other =>
  }

  /** The sizes an instanced buffer reports: number of blocks, instances in the last block,
      instances in every other block, and vertices per instance. */
  datatype InstancedBuffers = InstancedBuffers(size: nat, remainInstances: nat, instancesPerBlock: nat, vertsPerInstance: nat)

  datatype Group = Bond1 | Bond2

  /** The GL work `render` issues, tagged with the cylinder group it belongs to. */
  datatype GlCommand =
    | ColorTexture(group: Group)
    | BindPositions(group: Group, block: nat)
    | BindNormals(group: Group, block: nat)
    | BindTexcoords(group: Group, block: nat)
    | BindTransforms(group: Group, block: nat)
    | DrawInstanced(group: Group, block: nat, verts: nat, count: nat)
    | DrawAtomSpheres

  /** The instance count of block i: `remain_instances` for the last block, `instances_per_block` otherwise. */
  function Count(b: InstancedBuffers, i: nat): nat
  {
    if i == b.size - 1 then b.remainInstances else b.instancesPerBlock
  }

  /** What one iteration of the block loop issues. */
  function BlockCommands(g: Group, b: InstancedBuffers, i: nat): seq<GlCommand>
  {
    [BindTexcoords(g, i), BindTransforms(g, i), DrawInstanced(g, i, b.vertsPerInstance, Count(b, i))]
  }

  /** The commands of the first n iterations of the block loop. */
  function Blocks(g: Group, b: InstancedBuffers, n: nat): seq<GlCommand>
  {
    if n == 0 then [] else Blocks(g, b, n - 1) + BlockCommands(g, b, n - 1)
  }

  /** What precedes the block loop: the colour texture, then positions and normals at block 0. */
  function Header(g: Group): seq<GlCommand>
  {
    [ColorTexture(g), BindPositions(g, 0), BindNormals(g, 0)]
  }

  function GroupTrace(g: Group, b: InstancedBuffers): seq<GlCommand>
  {
    Header(g) + Blocks(g, b, b.size)
  }

  /** One cylinder group of `render`: the colour texture and the block-0 position and normal
      bindings once, then per block the texcoord and transform bindings and one instanced draw. */
  method RenderGroup(g: Group, b: InstancedBuffers) returns (trace: seq<GlCommand>)
    ensures trace == GroupTrace(g, b)
  {
    trace := [ColorTexture(g)];
    trace := trace + [BindPositions(g, 0)];
    trace := trace + [BindNormals(g, 0)];
    var i: nat := 0;
    while i < b.size
      invariant i <= b.size
      invariant trace == Header(g) + Blocks(g, b, i)
    {
      var totalInstances := if i == b.size - 1 then b.remainInstances else b.instancesPerBlock;
      trace := trace + [BindTexcoords(g, i)];
      trace := trace + [BindTransforms(g, i)];
      trace := trace + [DrawInstanced(g, i, b.vertsPerInstance, totalInstances)];
      i := i + 1;
    }
  }

  /** The buffer sizes of the two cylinder groups. */
  datatype Representation = Representation(atomRadiusType: AtomRadiusKind, radiusSize: real,
                                           bond1: InstancedBuffers, bond2: InstancedBuffers)

  /** `render`: bond1 cylinders, then bond2 cylinders, then the atom spheres. */
  method Render(rep: Representation) returns (trace: seq<GlCommand>)
    ensures trace == GroupTrace(Bond1, rep.bond1) + GroupTrace(Bond2, rep.bond2) + [DrawAtomSpheres]
  {
    var t1 := RenderGroup(Bond1, rep.bond1);
    var t2 := RenderGroup(Bond2, rep.bond2);
    trace := t1 + t2 + [DrawAtomSpheres];
  }

  /** Block loop layout: three commands per block, position p holding command p mod 3 of block p div 3. */
  lemma {:induction false} BlocksLayout(g: Group, b: InstancedBuffers, n: nat)
    ensures |Blocks(g, b, n)| == 3 * n
    ensures forall p | 0 <= p < 3 * n :: Blocks(g, b, n)[p] == BlockCommands(g, b, p / 3)[p % 3]
  {
    if n > 0 {
      BlocksLayout(g, b, n - 1);
      var prev := Blocks(g, b, n - 1);
      assert Blocks(g, b, n) == prev + BlockCommands(g, b, n - 1);
      forall p | 0 <= p < 3 * n ensures Blocks(g, b, n)[p] == BlockCommands(g, b, p / 3)[p % 3] {
        if p < 3 * (n - 1) {
          assert Blocks(g, b, n)[p] == prev[p];
        } else {
          assert p / 3 == n - 1;
        }
      }
    }
  }

  /** A group's trace in full: the header, then for block k (in increasing k) its texcoord and
      transform bindings at k followed by a draw of `verts_per_instance` vertices and Count(b, k)
      instances; nothing else. */
  lemma {:induction false} GroupTraceLayout(g: Group, b: InstancedBuffers)
    ensures |GroupTrace(g, b)| == 3 + 3 * b.size
    ensures GroupTrace(g, b)[..3] == [ColorTexture(g), BindPositions(g, 0), BindNormals(g, 0)]
    ensures forall k | 0 <= k < b.size ::
              GroupTrace(g, b)[3 + 3 * k] == BindTexcoords(g, k) &&
              GroupTrace(g, b)[4 + 3 * k] == BindTransforms(g, k) &&
              GroupTrace(g, b)[5 + 3 * k] == DrawInstanced(g, k, b.vertsPerInstance, Count(b, k))
  {
    BlocksLayout(g, b, b.size);
    var blocks := Blocks(g, b, b.size);
    var t := GroupTrace(g, b);
    assert t[..3] == Header(g);
    forall k | 0 <= k < b.size
      ensures t[3 + 3 * k] == BindTexcoords(g, k)
      ensures t[4 + 3 * k] == BindTransforms(g, k)
      ensures t[5 + 3 * k] == DrawInstanced(g, k, b.vertsPerInstance, Count(b, k))
    {
      assert t[3 + 3 * k] == blocks[3 * k] == BlockCommands(g, b, k)[0];
      assert t[4 + 3 * k] == blocks[3 * k + 1] == BlockCommands(g, b, k)[1];
      assert t[5 + 3 * k] == blocks[3 * k + 2] == BlockCommands(g, b, k)[2];
    }
  }

  /** The draws of a trace, in order. */
  function Draws(trace: seq<GlCommand>): seq<GlCommand>
  {
    if |trace| == 0 then []
    else (if trace[0].DrawInstanced? then [trace[0]] else []) + Draws(trace[1..])
  }

  lemma {:induction false} DrawsAppend(s: seq<GlCommand>, t: seq<GlCommand>)
    ensures Draws(s + t) == Draws(s) + Draws(t)
    decreases |s|
  {
    if |s| > 0 {
      assert (s + t)[1..] == s[1..] + t;
      DrawsAppend(s[1..], t);
    } else {
      assert s + t == t;
    }
  }

  /** One block issues one draw, and the header none. */
  lemma {:induction false} DrawsOfBlock(g: Group, b: InstancedBuffers, i: nat)
    ensures Draws(BlockCommands(g, b, i)) == [DrawInstanced(g, i, b.vertsPerInstance, Count(b, i))]
    ensures Draws(Header(g)) == []
  {
    var bc := BlockCommands(g, b, i);
    var t2 := [bc[2]];
    assert t2[1..] == [];
    assert Draws(t2) == [bc[2]];
    var t1 := [bc[1], bc[2]];
    assert t1[1..] == t2;
    assert Draws(t1) == Draws(t2);
    assert bc[1..] == t1;
    assert Draws(bc) == Draws(t1);
    var h := Header(g);
    var h2 := [h[2]];
    assert h2[1..] == [];
    assert Draws(h2) == [];
    var h1 := [h[1], h[2]];
    assert h1[1..] == h2;
    assert Draws(h1) == [];
    assert h[1..] == h1;
  }

  /** Block n - 1 adds exactly its own draw to the draws of the blocks before it. */
  lemma {:induction false} DrawsStep(g: Group, b: InstancedBuffers, n: nat)
    requires n > 0
    ensures Draws(Blocks(g, b, n)) == Draws(Blocks(g, b, n - 1)) + [DrawInstanced(g, n - 1, b.vertsPerInstance, Count(b, n - 1))]
  {
    var prev, bc := Blocks(g, b, n - 1), BlockCommands(g, b, n - 1);
    assert Blocks(g, b, n) == prev + bc;
    DrawsAppend(prev, bc);
    DrawsOfBlock(g, b, n - 1);
  }

  /** The draws of the first n blocks: one per block, in block order, each with the
      group's vertex count and the block's instance count. */
  lemma {:induction false} BlockDraws(g: Group, b: InstancedBuffers, n: nat)
    ensures |Draws(Blocks(g, b, n))| == n
    ensures forall k | 0 <= k < n :: Draws(Blocks(g, b, n))[k] == DrawInstanced(g, k, b.vertsPerInstance, Count(b, k))
  {
    if n > 0 {
      BlockDraws(g, b, n - 1);
      DrawsStep(g, b, n);
      var prev := Draws(Blocks(g, b, n - 1));
      var d := DrawInstanced(g, n - 1, b.vertsPerInstance, Count(b, n - 1));
      var all := Draws(Blocks(g, b, n));
      assert all == prev + [d];
      forall k | 0 <= k < n ensures all[k] == DrawInstanced(g, k, b.vertsPerInstance, Count(b, k)) {
        if k < n - 1 {
          assert all[k] == prev[k];
        }
      }
    }
  }

  /** Instances drawn by a sequence of draws. */
  function InstancesDrawn(draws: seq<GlCommand>): nat
  {
    if |draws| == 0 then 0
    else (if draws[0].DrawInstanced? then draws[0].count else 0) + InstancesDrawn(draws[1..])
  }

  lemma {:induction false} InstancesDrawnAppend(s: seq<GlCommand>, t: seq<GlCommand>)
    ensures InstancesDrawn(s + t) == InstancesDrawn(s) + InstancesDrawn(t)
    decreases |s|
  {
    if |s| > 0 {
      assert (s + t)[1..] == s[1..] + t;
      InstancesDrawnAppend(s[1..], t);
    } else {
      assert s + t == t;
    }
  }

  /** Instances drawn by the first n blocks: n full blocks while the last block is not reached. */
  lemma {:induction false} BlockInstancesStep(g: Group, b: InstancedBuffers, n: nat)
    requires n > 0
    ensures InstancesDrawn(Draws(Blocks(g, b, n))) == InstancesDrawn(Draws(Blocks(g, b, n - 1))) + Count(b, n - 1)
  {
    var d := DrawInstanced(g, n - 1, b.vertsPerInstance, Count(b, n - 1));
    DrawsStep(g, b, n);
    InstancesDrawnAppend(Draws(Blocks(g, b, n - 1)), [d]);
    InstancesDrawnSingle(d);
  }

  lemma InstancesDrawnSingle(d: GlCommand)
    requires d.DrawInstanced?
    ensures InstancesDrawn([d]) == d.count
  {
    assert [d][1..] == [];
  }

  lemma {:induction false} BlockInstances(g: Group, b: InstancedBuffers, n: nat)
    requires n <= b.size
    ensures InstancesDrawn(Draws(Blocks(g, b, n))) ==
              if n == b.size && n > 0 then (n - 1) * b.instancesPerBlock + b.remainInstances
              else n * b.instancesPerBlock
  {
    if n > 0 {
      BlockInstances(g, b, n - 1);
      BlockInstancesStep(g, b, n);
      if n < b.size {
        assert (n - 1) * b.instancesPerBlock + b.instancesPerBlock == n * b.instancesPerBlock;
      }
    }
  }

  /** Each group issues exactly `size` draws, draw k for block k with `verts_per_instance`
      vertices and `instances_per_block` instances except the last with `remain_instances`,
      for a total of (size - 1) * instances_per_block + remain_instances (0 when size is 0). */
  lemma {:induction false} GroupDraws(g: Group, b: InstancedBuffers)
    ensures |Draws(GroupTrace(g, b))| == b.size
    ensures forall k | 0 <= k < b.size :: Draws(GroupTrace(g, b))[k] ==
              DrawInstanced(g, k, b.vertsPerInstance, if k == b.size - 1 then b.remainInstances else b.instancesPerBlock)
    ensures forall k | 0 <= k < b.size :: Draws(GroupTrace(g, b))[k].verts == b.vertsPerInstance
    ensures InstancesDrawn(Draws(GroupTrace(g, b))) ==
              if b.size == 0 then 0 else (b.size - 1) * b.instancesPerBlock + b.remainInstances
  {
    DrawsAppend(Header(g), Blocks(g, b, b.size));
    DrawsOfBlock(g, b, 0);
    assert Draws(GroupTrace(g, b)) == Draws(Blocks(g, b, b.size));
    BlockDraws(g, b, b.size);
    BlockInstances(g, b, b.size);
  }

  /** The rank of a command in the fixed drawing order: bond1, bond2, atoms. */
  function Stage(c: GlCommand): nat
  {
    if c.DrawAtomSpheres? then 2 else if c.group == Bond1 then 0 else 1
  }

  lemma {:induction false} BlocksInGroup(g: Group, b: InstancedBuffers, n: nat)
    ensures forall c | c in Blocks(g, b, n) :: !c.DrawAtomSpheres? && c.group == g
  {
    if n > 0 {
      BlocksInGroup(g, b, n - 1);
    }
  }

  /** Every command of a group's trace belongs to that group. */
  lemma {:induction false} GroupStage(g: Group, b: InstancedBuffers)
    ensures forall c | c in GroupTrace(g, b) :: Stage(c) == if g == Bond1 then 0 else 1
  {
    BlocksInGroup(g, b, b.size);
    forall c | c in GroupTrace(g, b) ensures Stage(c) == if g == Bond1 then 0 else 1 {
      if c !in Header(g) {
        assert c in Blocks(g, b, b.size);
      }
    }
  }

  /** `render` keeps the order bond1 cylinders, bond2 cylinders, atom spheres, and ends with
      the one sphere draw. */
  lemma {:induction false} RenderOrder(rep: Representation, i: nat, j: nat)
    requires i <= j < |GroupTrace(Bond1, rep.bond1) + GroupTrace(Bond2, rep.bond2) + [DrawAtomSpheres]|
    ensures var t := GroupTrace(Bond1, rep.bond1) + GroupTrace(Bond2, rep.bond2) + [DrawAtomSpheres];
            Stage(t[i]) <= Stage(t[j]) && t[|t| - 1] == DrawAtomSpheres
  {
    var t1, t2 := GroupTrace(Bond1, rep.bond1), GroupTrace(Bond2, rep.bond2);
    var t := t1 + t2 + [DrawAtomSpheres];
    GroupStage(Bond1, rep.bond1);
    GroupStage(Bond2, rep.bond2);
    if i < |t1| {
      assert t[i] == t1[i] && t1[i] in t1;
    } else if j < |t1| + |t2| {
      assert t[i] == t2[i - |t1|] && t2[i - |t1|] in t2;
      assert t[j] == t2[j - |t1|] && t2[j - |t1|] in t2;
    } else {
      assert t[j] == DrawAtomSpheres;
    }
  }
}
