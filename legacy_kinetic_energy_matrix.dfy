/**
 * The older kinetic-energy builder (SCF_method/matrices/kinetic_energy_matrix.py).
 * Its loop and its integrand are the same as those of `KineticEnergyMatrix`;
 * only the basis class it reads differs.
 */
module LegacyKineticEnergyMatrix {
  import opened Linalg
  import opened Integrands
  import opened PairMatrices
  import LegacyBasis

  /**
   * KineticEnergy._calculate_self (older copy): T is L x L, symmetric, and
   * for i <= j holds the integral of -1/2 basis[i] * laplacian(basis[j]);
   * one integrator call per pair i <= j.
   */
  method CalculateSelf(basis: LegacyBasis.GaussianBasis, integrate: Field -> real)
    returns (T: array2<real>, ghost calls: seq<Pair>)
    ensures T.Length0 == |basis.basisSet| && T.Length1 == |basis.basisSet|
    ensures MatrixOf(T) == PairMatrix(basis.basisSet, KineticIntegrand, integrate)
    ensures calls == UpperTriangle(|basis.basisSet|)
  {
    T, calls := Fill(basis.basisSet, KineticIntegrand, integrate);
  }
}
