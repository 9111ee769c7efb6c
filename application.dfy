/** `basic_application`: the selected molecule display, the container of built representations,
    key and mouse dispatch. The mesh, texture and attribute builders are not modelled; a built
    representation is recorded as the inputs the application hands to them. */
module Application {
  import opened Vectors
  import opened Mol
  import opened CameraModel

  datatype Option<T> = None | Some(value: T)

  /** An `unsigned char` key code. */
  newtype uchar = x: int | 0 <= x < 256

  /** `molecule_display`. */
  datatype MoleculeDisplay = Spacefill | BallAndStick | SpacefillInstance | BallAndStickInstance

  /** The integer value of each display. The enumeration's definition is not part of this model;
      the values are taken to be 0 .. 3 in declaration order. */
  function DisplayValue(d: MoleculeDisplay): int
  {
    match d
    case Spacefill => 0
    case BallAndStick => 1
    case SpacefillInstance => 2
    case BallAndStickInstance => 3
  }

  /** The display `change_representation` selects for an integer: the one with that value, if any. */
  function DisplayOf(n: int): (r: Option<MoleculeDisplay>)
    ensures r.Some? ==> DisplayValue(r.value) == n
    ensures r.None? ==> forall d: MoleculeDisplay :: DisplayValue(d) != n
  {
    if n == DisplayValue(Spacefill) then Some(Spacefill)
    else if n == DisplayValue(BallAndStick) then Some(BallAndStick)
    else if n == DisplayValue(SpacefillInstance) then Some(SpacefillInstance)
    else if n == DisplayValue(BallAndStickInstance) then Some(BallAndStickInstance)
    else None
  }

  lemma {:induction false} DisplayValueRoundTrip(d: MoleculeDisplay)
    ensures DisplayOf(DisplayValue(d)) == Some(d)
  {
    match d
    case Spacefill =>
    case BallAndStick =>
    case SpacefillInstance =>
    case BallAndStickInstance =>
  }

  /** Batched mesh buffers, or one instance mesh with per-instance texcoords and transforms. */
  datatype Strategy = Batched | Instanced

  /** The input of `atoms_to_sphere_attrs`: atoms by index, in order, and the radius scale. */
  datatype SphereInput = SphereInput(atoms: seq<nat>, scale: real)

  /** The input of `bonds_to_cylinder_attrs`: bond endpoint pairs by atom index, and which half of the bond. */
  datatype CylinderInput = CylinderInput(pairs: seq<(nat, nat)>, firstHalf: bool)

  /** An element of the representations container. */
  datatype Drawable =
    | Unbuilt(kind: MoleculeDisplay)
    | SpacefillDrawable(strategy: Strategy, spheres: SphereInput)
    | BallstickDrawable(strategy: Strategy, spheres: SphereInput, bond1: CylinderInput, bond2: CylinderInput)

  function KindOf(d: Drawable): MoleculeDisplay
  {
    match d
    case Unbuilt(k) => k
    case SpacefillDrawable(s, _) => if s == Batched then Spacefill else SpacefillInstance
    case BallstickDrawable(s, _, _, _) => if s == Batched then BallAndStick else BallAndStickInstance
  }

  /** All atom indices of the molecule, in order. */
  function AllAtoms(n: nat): (r: seq<nat>)
    ensures |r| == n && forall i | 0 <= i < n :: r[i] == i
  {
    seq(n, i requires 0 <= i < n => i)
  }

  /** The bond endpoints fetched with `atoms.at(...)`: None when some endpoint is out of range
      (the `noexcept` lambda then terminates the program). */
  function BondPairs(mol: Molecule): (r: Option<seq<(nat, nat)>>)
    ensures r.Some? <==> forall k | 0 <= k < |mol.bonds| :: mol.bonds[k].atom1 < |mol.atoms| && mol.bonds[k].atom2 < |mol.atoms|
    ensures r.Some? ==> |r.value| == |mol.bonds|
    ensures r.Some? ==> forall k | 0 <= k < |mol.bonds| :: r.value[k] == (mol.bonds[k].atom1, mol.bonds[k].atom2)
  {
    if forall k | 0 <= k < |mol.bonds| :: mol.bonds[k].atom1 < |mol.atoms| && mol.bonds[k].atom2 < |mol.atoms|
    then Some(seq(|mol.bonds|, k requires 0 <= k < |mol.bonds| => (mol.bonds[k].atom1, mol.bonds[k].atom2)))
    else None
  }

  /** The atoms in `atoms_in_bond` after inserting both endpoints of every pair. */
  function Endpoints(pairs: seq<(nat, nat)>): set<nat>
  {
    if |pairs| == 0 then {}
    else Endpoints(pairs[..|pairs| - 1]) + {pairs[|pairs| - 1].0, pairs[|pairs| - 1].1}
  }

  /** The members of `s` below n in ascending order: how a `std::set` of pointers into the
      atom vector is iterated. */
  function Ascending(s: set<nat>, n: nat): seq<nat>
  {
    if n == 0 then [] else Ascending(s, n - 1) + (if n - 1 in s then [n - 1] else [])
  }

  /** What `build_spacefill_representation` and its instanced variant hand to the builders:
      every atom in order with scale 1.0. */
  function SpacefillSpec(strategy: Strategy, mol: Molecule): Drawable
  {
    SpacefillDrawable(strategy, SphereInput(AllAtoms(|mol.atoms|), 1.0))
  }

  /** What `build_ballstick_representation` and its instanced variant hand to the builders:
      spheres of scale 0.5 for the bonded atoms in ascending order, and both cylinder halves of
      every bond; None when a bond names an atom out of range. */
  function BallstickSpec(strategy: Strategy, mol: Molecule): Option<Drawable>
  {
    match BondPairs(mol)
    case None => None
    case Some(pairs) =>
      Some(BallstickDrawable(strategy, SphereInput(Ascending(Endpoints(pairs), |mol.atoms|), 0.5),
                             CylinderInput(pairs, true), CylinderInput(pairs, false)))
  }

  function BuildSpec(kind: MoleculeDisplay, mol: Molecule): Option<Drawable>
  {
    match kind
    case Spacefill => Some(SpacefillSpec(Batched, mol))
    case BallAndStick => BallstickSpec(Batched, mol)
    case SpacefillInstance => Some(SpacefillSpec(Instanced, mol))
    case BallAndStickInstance => BallstickSpec(Instanced, mol)
  }

  /** The container after `reset_representation`: the one representation built, or nothing
      when the build terminated the program. */
  function Rebuilt(kind: MoleculeDisplay, mol: Molecule): seq<Drawable>
  {
    match BuildSpec(kind, mol)
    case None => []
    case Some(d) => [d]
  }

  /** A bond naming an atom outside the atom vector. */
  predicate HasDanglingBond(mol: Molecule)
  {
    exists k | 0 <= k < |mol.bonds| :: mol.bonds[k].atom1 >= |mol.atoms| || mol.bonds[k].atom2 >= |mol.atoms|
  }

  /** A build yields a representation of the requested kind; it fails exactly for the
      ball-and-stick kinds on a molecule with a dangling bond. */
  lemma {:induction false} BuildMatchesKind(kind: MoleculeDisplay, mol: Molecule)
    ensures BuildSpec(kind, mol).Some? ==> KindOf(BuildSpec(kind, mol).value) == kind
    ensures BuildSpec(kind, mol).None? <==> (kind in {BallAndStick, BallAndStickInstance} && HasDanglingBond(mol))
    ensures BuildSpec(kind, mol).None? <==> |Rebuilt(kind, mol)| == 0
    ensures BuildSpec(kind, mol).Some? ==> |Rebuilt(kind, mol)| == 1 && KindOf(Rebuilt(kind, mol)[0]) == kind
  {
    if BondPairs(mol).None? {
      var k :| 0 <= k < |mol.bonds| && !(mol.bonds[k].atom1 < |mol.atoms| && mol.bonds[k].atom2 < |mol.atoms|);
      assert HasDanglingBond(mol);
    }
  }

  /** Spacefill draws every atom, in order, at scale 1.0. */
  lemma {:induction false} SpacefillUsesEveryAtom(strategy: Strategy, mol: Molecule)
    ensures SpacefillSpec(strategy, mol).spheres.atoms == AllAtoms(|mol.atoms|)
    ensures forall i | 0 <= i < |mol.atoms| :: SpacefillSpec(strategy, mol).spheres.atoms[i] == i
    ensures SpacefillSpec(strategy, mol).spheres.scale == 1.0
  {
  }

  /** The members of `Ascending(s, n)` are exactly the members of s below n. */
  lemma {:induction false} AscendingMembers(s: set<nat>, n: nat)
    ensures forall x :: x in Ascending(s, n) <==> x in s && x < n
  {
    if n > 0 {
      AscendingMembers(s, n - 1);
    }
  }

  /** `Ascending(s, n)` is strictly increasing. */
  lemma {:induction false} AscendingSorted(s: set<nat>, n: nat)
    ensures forall i, j | 0 <= i < j < |Ascending(s, n)| :: Ascending(s, n)[i] < Ascending(s, n)[j]
  {
    if n > 0 {
      AscendingSorted(s, n - 1);
      AscendingMembers(s, n - 1);
      var prev := Ascending(s, n - 1);
      forall i, j | 0 <= i < j < |Ascending(s, n)| ensures Ascending(s, n)[i] < Ascending(s, n)[j] {
        if j >= |prev| {
          assert prev[i] in prev;
        }
      }
    }
  }

  /** `Ascending(s, n)` holds each member of s below n once: as many entries as such members,
      hence at most n. */
  lemma {:induction false} AscendingLength(s: set<nat>, n: nat)
    ensures |Ascending(s, n)| == |set x | x in s && x < n|
    ensures |Ascending(s, n)| <= n
  {
    if n > 0 {
      AscendingLength(s, n - 1);
      var below := set x | x in s && x < n - 1;
      if n - 1 in s {
        assert (set x | x in s && x < n) == below + {n - 1};
      } else {
        assert (set x | x in s && x < n) == below;
      }
    }
  }

  /** x is an endpoint of one of the pairs. */
  predicate Touches(pairs: seq<(nat, nat)>, x: nat)
  {
    exists k | 0 <= k < |pairs| :: x == pairs[k].0 || x == pairs[k].1
  }

  /** Atom i is an endpoint of one of the molecule's bonds. */
  predicate Bonded(mol: Molecule, i: nat)
  {
    exists k | 0 <= k < |mol.bonds| :: i == mol.bonds[k].atom1 || i == mol.bonds[k].atom2
  }

  lemma {:induction false} TouchesSnoc(pairs: seq<(nat, nat)>, x: nat)
    requires |pairs| > 0
    ensures Touches(pairs, x) <==>
              Touches(pairs[..|pairs| - 1], x) || x == pairs[|pairs| - 1].0 || x == pairs[|pairs| - 1].1
  {
    var init := pairs[..|pairs| - 1];
    if Touches(init, x) {
      var k :| 0 <= k < |init| && (x == init[k].0 || x == init[k].1);
      assert pairs[k] == init[k];
    }
    if Touches(pairs, x) {
      var k :| 0 <= k < |pairs| && (x == pairs[k].0 || x == pairs[k].1);
      if k < |init| {
        assert pairs[k] == init[k];
      }
    }
  }

  /** Both endpoints of every pair, and nothing else, are in `Endpoints`. */
  lemma {:induction false} EndpointsMembers(pairs: seq<(nat, nat)>)
    ensures forall x :: x in Endpoints(pairs) <==> Touches(pairs, x)
  {
    if |pairs| > 0 {
      EndpointsMembers(pairs[..|pairs| - 1]);
      forall x ensures x in Endpoints(pairs) <==> Touches(pairs, x) {
        TouchesSnoc(pairs, x);
      }
    }
  }

  /** Each pair contributes at most two atoms. */
  lemma {:induction false} EndpointsSize(pairs: seq<(nat, nat)>)
    ensures |Endpoints(pairs)| <= 2 * |pairs|
  {
    if |pairs| > 0 {
      var init := pairs[..|pairs| - 1];
      var last := pairs[|pairs| - 1];
      EndpointsSize(init);
      var e := Endpoints(init);
      assert |e + {last.0}| <= |e| + 1;
      assert e + {last.0, last.1} == e + {last.0} + {last.1};
      assert |e + {last.0} + {last.1}| <= |e + {last.0}| + 1;
    }
  }

  /** The atoms the bond endpoint pairs touch are the bonded atoms, all below the atom count. */
  lemma {:induction false} BondPairsTouch(mol: Molecule)
    requires BondPairs(mol).Some?
    ensures forall i: nat :: Touches(BondPairs(mol).value, i) <==> Bonded(mol, i)
    ensures forall i: nat :: Bonded(mol, i) ==> i < |mol.atoms|
  {
    var pairs := BondPairs(mol).value;
    forall i: nat ensures Touches(pairs, i) <==> Bonded(mol, i) {
      if Touches(pairs, i) {
        var k :| 0 <= k < |pairs| && (i == pairs[k].0 || i == pairs[k].1);
        assert i == mol.bonds[k].atom1 || i == mol.bonds[k].atom2;
      }
      if Bonded(mol, i) {
        var k :| 0 <= k < |mol.bonds| && (i == mol.bonds[k].atom1 || i == mol.bonds[k].atom2);
        assert i == pairs[k].0 || i == pairs[k].1;
      }
    }
  }

  /** Ball-and-stick spheres: exactly the atoms that are an endpoint of some bond, in
      ascending index order, at scale 0.5; the cylinders take every bond once per half. */
  lemma {:induction false} BallstickSelection(strategy: Strategy, mol: Molecule)
    requires BallstickSpec(strategy, mol).Some?
    ensures forall i: nat :: i in BallstickSpec(strategy, mol).value.spheres.atoms <==> Bonded(mol, i)
    ensures var a := BallstickSpec(strategy, mol).value.spheres.atoms;
            forall i, j | 0 <= i < j < |a| :: a[i] < a[j]
    ensures BallstickSpec(strategy, mol).value.spheres.scale == 0.5
    ensures BallstickSpec(strategy, mol).value.bond1 == CylinderInput(BondPairs(mol).value, true)
    ensures BallstickSpec(strategy, mol).value.bond2 == CylinderInput(BondPairs(mol).value, false)
  {
    var pairs := BondPairs(mol).value;
    EndpointsMembers(pairs);
    BondPairsTouch(mol);
    AscendingMembers(Endpoints(pairs), |mol.atoms|);
    AscendingSorted(Endpoints(pairs), |mol.atoms|);
  }

  /** Each bonded atom gets one sphere: at most one per atom and at most two per bond. */
  lemma {:induction false} BallstickSphereCount(strategy: Strategy, mol: Molecule)
    requires BallstickSpec(strategy, mol).Some?
    ensures |BallstickSpec(strategy, mol).value.spheres.atoms| <= |mol.atoms|
    ensures |BallstickSpec(strategy, mol).value.spheres.atoms| <= 2 * |mol.bonds|
  {
    var pairs := BondPairs(mol).value;
    var s := Endpoints(pairs);
    var n := |mol.atoms|;
    EndpointsMembers(pairs);
    BondPairsTouch(mol);
    EndpointsSize(pairs);
    AscendingLength(s, n);
    assert (set x | x in s && x < n) == s;
  }

  /** Unbonded atoms get no sphere. */
  lemma {:induction false} UnbondedAtomsOmitted(strategy: Strategy, mol: Molecule, i: nat)
    requires BallstickSpec(strategy, mol).Some?
    requires !Bonded(mol, i)
    ensures i !in BallstickSpec(strategy, mol).value.spheres.atoms
  {
    BallstickSelection(strategy, mol);
  }

  /** `build_spacefill_representation` / `build_spacefill_representation_instanced`: the atom
      pointer vector filled by `transform` into a `back_inserter`. */
  method BuildSpacefill(strategy: Strategy, mol: Molecule) returns (d: Drawable)
    ensures d == SpacefillSpec(strategy, mol)
  {
    var atoms: seq<nat> := [];
    for i := 0 to |mol.atoms|
      invariant atoms == AllAtoms(i)
    {
      atoms := atoms + [i];
    }
    d := SpacefillDrawable(strategy, SphereInput(atoms, 1.0));
  }

  /** `build_ballstick_representation` / `build_ballstick_instance_representation`: the endpoint
      pairs fetched with `.at` (an out-of-range index ends the program, `None` here), both
      endpoints of each pair inserted into the set, the set iterated in order. */
  method BuildBallstick(strategy: Strategy, mol: Molecule) returns (r: Option<Drawable>)
    ensures r == BallstickSpec(strategy, mol)
  {
    var bondAtoms: seq<(nat, nat)> := [];
    for k := 0 to |mol.bonds|
      invariant |bondAtoms| == k
      invariant forall j | 0 <= j < k :: mol.bonds[j].atom1 < |mol.atoms| && mol.bonds[j].atom2 < |mol.atoms|
      invariant forall j | 0 <= j < k :: bondAtoms[j] == (mol.bonds[j].atom1, mol.bonds[j].atom2)
    {
      var bond := mol.bonds[k];
      if bond.atom1 >= |mol.atoms| || bond.atom2 >= |mol.atoms| {
        return None;
      }
      bondAtoms := bondAtoms + [(bond.atom1, bond.atom2)];
    }
    assert bondAtoms == BondPairs(mol).value;
    var atomsInBond: set<nat> := {};
    for k := 0 to |bondAtoms|
      invariant atomsInBond == Endpoints(bondAtoms[..k])
    {
      assert bondAtoms[..k + 1][..k] == bondAtoms[..k];
      atomsInBond := atomsInBond + {bondAtoms[k].0, bondAtoms[k].1};
    }
    assert bondAtoms[..|bondAtoms|] == bondAtoms;
    var spheres := SphereInput(Ascending(atomsInBond, |mol.atoms|), 0.5);
    r := Some(BallstickDrawable(strategy, spheres, CylinderInput(bondAtoms, true), CylinderInput(bondAtoms, false)));
  }

  /** `io::click_state`: whether a button is held and the last pointer position. */
  datatype ClickState = ClickState(isDown: bool, lastX: int, lastY: int)

  /** `M_PI`. */
  const Pi: real := 3.141592653589793

  /** What a key does in `key_press_event`. */
  datatype KeyAction = Close | Projection(perspective: bool) | Show(display: MoleculeDisplay) | Ignore

  function KeyActionOf(charcode: uchar): (a: KeyAction)
    ensures a == Close <==> charcode == 27
    ensures a == Projection(true) <==> charcode in {80, 112}
    ensures a == Projection(false) <==> charcode in {79, 111}
    ensures a == Show(BallAndStickInstance) <==> charcode in {72, 104}
    ensures a == Show(SpacefillInstance) <==> charcode in {74, 106}
    ensures a == Show(Spacefill) <==> charcode in {75, 107}
    ensures a == Show(BallAndStick) <==> charcode in {76, 108}
    ensures a == Ignore <==> charcode !in {27, 80, 112, 79, 111, 72, 104, 74, 106, 75, 107, 76, 108}
  {
    if charcode == 27 then Close
    else if charcode == 80 || charcode == 112 then Projection(true)
    else if charcode == 79 || charcode == 111 then Projection(false)
    else if charcode == 72 || charcode == 104 then Show(BallAndStickInstance)
    else if charcode == 74 || charcode == 106 then Show(SpacefillInstance)
    else if charcode == 75 || charcode == 107 then Show(Spacefill)
    else if charcode == 76 || charcode == 108 then Show(BallAndStick)
    else Ignore
  }

  class BasicApplication {
    /** `representation_`. */
    var representation: MoleculeDisplay
    /** `representations_`. */
    var representations: seq<Drawable>
    var clickState: ClickState
    /** The rotations handed to `scene.rotate`, in order. */
    var sceneRotations: seq<Vec3>
    var molecule: Molecule
    /** Set when `close_app` has been requested. */
    var closeRequested: bool
    /** Set when a build ended the program (`std::terminate` from a `noexcept` lambda). */
    var terminated: bool
    const camera: Camera

    /** Everything but the camera. */
    function State(): (MoleculeDisplay, seq<Drawable>, ClickState, seq<Vec3>, Molecule, bool, bool)
      reads this
    {
      (representation, representations, clickState, sceneRotations, molecule, closeRequested, terminated)
    }

    /** The member initialisers: spacefill selected, nothing built, no button held. */
    constructor ()
      ensures representation == Spacefill && representations == []
      ensures clickState == ClickState(false, 0, 0) && sceneRotations == []
      ensures molecule == Molecule([], []) && !closeRequested && !terminated
      ensures fresh(camera) && camera.zoom == 1.0 && !camera.projectionMode
    {
      representation := Spacefill;
      representations := [];
      clickState := ClickState(false, 0, 0);
      sceneRotations := [];
      molecule := Molecule([], []);
      closeRequested := false;
      terminated := false;
      camera := new Camera();
    }

    /** `reset_representation(mol)`: clear the container, then build the one representation of
        the selected display. */
    method ResetRepresentation(mol: Molecule)
      modifies this
      ensures representations == Rebuilt(representation, mol)
      ensures terminated == (old(terminated) || BuildSpec(representation, mol).None?)
      ensures (representation, clickState, sceneRotations, molecule, closeRequested)
           == old((representation, clickState, sceneRotations, molecule, closeRequested))
    {
      representations := [];
      var built: Option<Drawable>;
      match representation {
        case Spacefill =>
          var d := BuildSpacefill(Batched, mol);
          built := Some(d);
        case BallAndStick =>
          built := BuildBallstick(Batched, mol);
        case SpacefillInstance =>
          var d := BuildSpacefill(Instanced, mol);
          built := Some(d);
        case BallAndStickInstance =>
          built := BuildBallstick(Instanced, mol);
      }
      if built.None? {
        terminated := true;
      } else {
        representations := representations + [built.value];
      }
    }

    /** `representation(value, mol)`: nothing happens when `value` is already selected;
        otherwise it is selected and the container rebuilt. */
    method SetRepresentation(value: MoleculeDisplay, mol: Molecule)
      modifies this
      ensures representation == value
      ensures old(representation) == value ==> State() == old(State())
      ensures old(representation) != value ==>
                representations == Rebuilt(value, mol) &&
                terminated == (old(terminated) || BuildSpec(value, mol).None?) &&
                (clickState, sceneRotations, molecule, closeRequested) == old((clickState, sceneRotations, molecule, closeRequested))
    {
      if representation == value {
        return;
      }
      representation := value;
      ResetRepresentation(mol);
    }

    /** Selecting the same display twice does what selecting it once does. */
    method SetRepresentationTwice(value: MoleculeDisplay, mol: Molecule)
      modifies this
      ensures representation == value
      ensures old(representation) == value ==> State() == old(State())
      ensures old(representation) != value ==>
                representations == Rebuilt(value, mol) &&
                terminated == (old(terminated) || BuildSpec(value, mol).None?) &&
                (clickState, sceneRotations, molecule, closeRequested) == old((clickState, sceneRotations, molecule, closeRequested))
    {
      SetRepresentation(value, mol);
      ghost var once := State();
      SetRepresentation(value, mol);
      assert State() == once;
    }

    /** `setup()`: four default representations are appended, then the ball-and-stick
        instanced display is selected and the container rebuilt, which clears them. */
    method Setup()
      modifies this
      ensures representation == BallAndStickInstance
      ensures representations == Rebuilt(BallAndStickInstance, molecule)
      ensures |representations| == 1 <==> BuildSpec(BallAndStickInstance, molecule).Some?
      ensures terminated == (old(terminated) || BuildSpec(BallAndStickInstance, molecule).None?)
      ensures (clickState, sceneRotations, molecule, closeRequested) == old((clickState, sceneRotations, molecule, closeRequested))
    {
      representations := representations + [Unbuilt(Spacefill)];
      representations := representations + [Unbuilt(BallAndStick)];
      representations := representations + [Unbuilt(SpacefillInstance)];
      representations := representations + [Unbuilt(BallAndStickInstance)];
      representation := BallAndStickInstance;
      ResetRepresentation(molecule);
      BuildMatchesKind(BallAndStickInstance, molecule);
    }

    /** `open_pdb_data`: the parsed molecule and the scene's bounding radius are parameters;
        the container is rebuilt and the camera's `top` set to the radius plus 2. */
    method OpenMolecule(mol: Molecule, boundingRadius: real)
      modifies this, camera
      ensures molecule == mol
      ensures representations == Rebuilt(representation, mol)
      ensures terminated == (old(terminated) || BuildSpec(representation, mol).None?)
      ensures camera.top == boundingRadius + 2.0
      ensures (camera.zoom, camera.projectionMode, camera.width, camera.height) == old((camera.zoom, camera.projectionMode, camera.width, camera.height))
      ensures (representation, clickState, sceneRotations, closeRequested) == old((representation, clickState, sceneRotations, closeRequested))
    {
      molecule := mol;
      ResetRepresentation(molecule);
      camera.top := boundingRadius + 2.0;
    }

    /** `change_representation(n)`: the display whose value is n, if there is one. */
    method ChangeRepresentation(n: int)
      modifies this
      ensures DisplayOf(n).None? ==> State() == old(State())
      ensures DisplayOf(n).Some? ==> representation == DisplayOf(n).value
      ensures DisplayOf(n).Some? && old(representation) != DisplayOf(n).value ==>
                representations == Rebuilt(representation, molecule) &&
                terminated == (old(terminated) || BuildSpec(representation, molecule).None?)
      ensures DisplayOf(n).Some? && old(representation) == DisplayOf(n).value ==> State() == old(State())
      ensures (clickState, sceneRotations, molecule, closeRequested) == old((clickState, sceneRotations, molecule, closeRequested))
    {
      if n == DisplayValue(Spacefill) {
        SetRepresentation(Spacefill, molecule);
      } else if n == DisplayValue(BallAndStick) {
        SetRepresentation(BallAndStick, molecule);
      } else if n == DisplayValue(SpacefillInstance) {
        SetRepresentation(SpacefillInstance, molecule);
      } else if n == DisplayValue(BallAndStickInstance) {
        SetRepresentation(BallAndStickInstance, molecule);
      }
    }

    /** `key_press_event`: Escape requests closing, P/p and O/o switch the camera to perspective
        or orthogonal, H/h, J/j, K/k and L/l select a display; any other key changes nothing. */
    method KeyPressEvent(charcode: uchar, mods: int)
      modifies this, camera
      ensures KeyActionOf(charcode) == Close ==> closeRequested && State() == old(State()).(5 := true)
      ensures KeyActionOf(charcode).Projection? ==>
                camera.projectionMode == KeyActionOf(charcode).perspective && State() == old(State())
      ensures KeyActionOf(charcode).Show? ==>
                representation == KeyActionOf(charcode).display &&
                (old(representation) == representation ==> State() == old(State())) &&
                (old(representation) != representation ==>
                   representations == Rebuilt(representation, molecule) &&
                   terminated == (old(terminated) || BuildSpec(representation, molecule).None?) &&
                   closeRequested == old(closeRequested))
      ensures !KeyActionOf(charcode).Projection? ==> camera.projectionMode == old(camera.projectionMode)
      ensures KeyActionOf(charcode) == Ignore ==> State() == old(State())
      ensures (camera.zoom, camera.top, camera.width, camera.height) == old((camera.zoom, camera.top, camera.width, camera.height))
      ensures (clickState, sceneRotations, molecule) == old((clickState, sceneRotations, molecule))
      ensures (camera.far, camera.fov, camera.near, camera.viewMatrix, camera.projectionMatrix)
           == old((camera.far, camera.fov, camera.near, camera.viewMatrix, camera.projectionMatrix))
    {
      if charcode == 27 {
        closeRequested := true;
      } else if charcode == 80 || charcode == 112 {
        var _ := camera.ProjectionModeSet(true);
      } else if charcode == 79 || charcode == 111 {
        var _ := camera.ProjectionModeSet(false);
      } else if charcode == 72 || charcode == 104 {
        SetRepresentation(BallAndStickInstance, molecule);
      } else if charcode == 74 || charcode == 106 {
        SetRepresentation(SpacefillInstance, molecule);
      } else if charcode == 75 || charcode == 107 {
        SetRepresentation(Spacefill, molecule);
      } else if charcode == 76 || charcode == 108 {
        SetRepresentation(BallAndStick, molecule);
      }
    }

    /** `mouse_press_event`: a button is held, at the given position. */
    method MousePressEvent(button: int, mods: int, posX: int, posY: int)
      modifies this
      ensures clickState == ClickState(true, posX, posY)
      ensures State() == old(State()).(2 := ClickState(true, posX, posY))
    {
      clickState := clickState.(isDown := true);
      clickState := clickState.(lastX := posX);
      clickState := clickState.(lastY := posY);
    }

    /** `mouse_release_event`: no button is held, at the given position. */
    method MouseReleaseEvent(button: int, mods: int, posX: int, posY: int)
      modifies this
      ensures clickState == ClickState(false, posX, posY)
      ensures State() == old(State()).(2 := ClickState(false, posX, posY))
    {
      clickState := clickState.(isDown := false);
      clickState := clickState.(lastX := posX);
      clickState := clickState.(lastY := posY);
    }

    /** `mouse_move_event`: while a button is held, the scene turns by the drag (one degree per
        pixel, about x for vertical and y for horizontal motion) and the position is recorded;
        otherwise nothing changes. */
    method MouseMoveEvent(posX: int, posY: int)
      modifies this
      ensures !old(clickState.isDown) ==> State() == old(State())
      ensures old(clickState.isDown) ==>
                clickState == ClickState(true, posX, posY) &&
                sceneRotations == old(sceneRotations) + [DragRotation(old(clickState), posX, posY)]
      ensures (representation, representations, molecule, closeRequested, terminated)
           == old((representation, representations, molecule, closeRequested, terminated))
    {
      if clickState.isDown {
        var deltaX := clickState.lastX as real - posX as real;
        var deltaY := clickState.lastY as real - posY as real;
        clickState := clickState.(lastX := posX);
        clickState := clickState.(lastY := posY);
        sceneRotations := sceneRotations + [Vec3(Pi * deltaY / 180.0, Pi * deltaX / 180.0, 0.0)];
      }
    }

    /** `mouse_scroll_event`: scrolling up zooms in, anything else zooms out. */
    method MouseScrollEvent(offsetX: int, offsetY: int)
      modifies camera
      ensures offsetY > 0 ==> camera.zoom == ZoomedIn(old(camera.zoom))
      ensures offsetY <= 0 ==> camera.zoom == ZoomedOut(old(camera.zoom))
      ensures MinZoom <= old(camera.zoom) <= MaxZoom ==> MinZoom <= camera.zoom <= MaxZoom
      ensures (camera.projectionMode, camera.top, camera.width, camera.height)
           == old((camera.projectionMode, camera.top, camera.width, camera.height))
      ensures (camera.far, camera.fov, camera.near, camera.viewMatrix, camera.projectionMatrix)
           == old((camera.far, camera.fov, camera.near, camera.viewMatrix, camera.projectionMatrix))
    {
      if offsetY > 0 {
        camera.ZoomIn();
      } else {
        camera.ZoomOut();
      }
      if MinZoom <= old(camera.zoom) <= MaxZoom {
        ZoomStaysInRange(old(camera.zoom), [offsetY > 0]);
        assert [offsetY > 0][1..] == [];
      }
    }
  }

  /** The rotation of one drag step from the last recorded position to (posX, posY), in radians. */
  function DragRotation(last: ClickState, posX: int, posY: int): (r: Vec3)
    ensures r.z == 0.0
    ensures posX == last.lastX && posY == last.lastY ==> r == Vec3(0.0, 0.0, 0.0)
    ensures (r.y == 0.0 <==> posX == last.lastX) && (r.x == 0.0 <==> posY == last.lastY)
    ensures r.x * 180.0 / Pi == (last.lastY - posY) as real && r.y * 180.0 / Pi == (last.lastX - posX) as real
  {
    var deltaX := last.lastX as real - posX as real;
    var deltaY := last.lastY as real - posY as real;
    Vec3(Pi * deltaY / 180.0, Pi * deltaX / 180.0, 0.0)
  }
}
