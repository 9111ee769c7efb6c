/** The molecule handed to the scene and the representations: atoms and bonds, a bond naming
    its two atoms by their position in the atom vector. */
module Mol {
  import opened Vectors

  /** The element data a representation reads: symbol and van der Waals and covalent radii. */
  datatype Element = Element(symbol: string, rvdw: real, rcov: real)

  datatype Atom = Atom(element: Element, position: Vec3)

  datatype Bond = Bond(atom1: nat, atom2: nat)

  datatype Molecule = Molecule(atoms: seq<Atom>, bonds: seq<Bond>)
}
