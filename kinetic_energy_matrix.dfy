/**
 * The kinetic-energy matrix T (SCF_method/calculation/matrices/kinetic_energy_matrix.py):
 * the shared upper-triangle fill with the integrand -1/2 base_i * laplacian(base_j).
 */
module KineticEnergyMatrix {
  import opened Linalg
  import opened Basis
  import opened Integrands
  import opened PairMatrices

  /**
   * KineticEnergy._calculate_self: T is L x L, symmetric, and for i <= j holds
   * the integral of the kinetic integrand of (basis[i], basis[j]); the
   * integrator is called once per pair i <= j, in row-major order.
   */
  method CalculateSelf(basis: GaussianBasis, integrate: Field -> real)
    returns (T: array2<real>, ghost calls: seq<Pair>)
    ensures T.Length0 == |basis.basisSet| && T.Length1 == |basis.basisSet|
    ensures MatrixOf(T) == PairMatrix(basis.basisSet, KineticIntegrand, integrate)
    ensures calls == UpperTriangle(|basis.basisSet|)
  {
    T, calls := Fill(basis.basisSet, KineticIntegrand, integrate);
  }
}
