/**
 * The static description of the molecule: nuclear positions, atomic numbers
 * and the electron count (SCF_method/calculation/molecules/molecule.py).
 */
module Molecules {

  /** A point of space, used for nuclear positions and basis-function centres. */
  datatype Vec3 = Vec3(x: real, y: real, z: real)

  datatype Molecule = Molecule(nucleiPositions: seq<Vec3>, atomicNumbers: seq<int>, numberOfElectrons: int)
}
