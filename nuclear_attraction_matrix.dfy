/**
 * The nuclear-attraction matrix V_nuc
 * (SCF_method/calculation/matrices/nuclear_attraction_matrix.py): the shared
 * upper-triangle fill with the integrand base_i * V * base_j, where V is the
 * Coulomb potential of the molecule's nuclei.
 */
module NuclearAttractionMatrix {
  import opened Linalg
  import opened Molecules
  import opened Basis
  import opened Integrands
  import opened PairMatrices

  /**
   * NuclearAttraction._calculate_self: V_nuc is L x L, symmetric, and for
   * i <= j holds the integral of basis[i] * V * basis[j], V having one point
   * charge per atomic number; one integrator call per pair i <= j. The
   * molecule is a value and the basis is not in the frame, so neither changes.
   */
  method CalculateSelf(molecule: Molecule, basis: GaussianBasis, integrate: Field -> real)
    returns (V: array2<real>, ghost calls: seq<Pair>)
    requires |molecule.atomicNumbers| <= |molecule.nucleiPositions|
    ensures V.Length0 == |basis.basisSet| && V.Length1 == |basis.basisSet|
    ensures MatrixOf(V) == PairMatrix(basis.basisSet, NuclearKernel(CoulombPotential(molecule)), integrate)
    ensures calls == UpperTriangle(|basis.basisSet|)
  {
    V, calls := Fill(basis.basisSet, NuclearKernel(CoulombPotential(molecule)), integrate);
  }
}
