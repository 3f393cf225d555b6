/**
 * The overlap matrix S (SCF_method/calculation/matrices/overlap_matrix.py).
 *
 * The raw overlap is filled from the basis as given; then the basis is
 * renormalised with the reciprocals of n_i = sqrt(raw[i][i]) (the one
 * mutation of the basis in the whole procedure), and the returned matrix is
 * the raw one divided entrywise by n_i * n_j, which puts 1 on the diagonal.
 */
module OverlapMatrix {
  import opened Linalg
  import opened Basis
  import opened Integrands
  import opened PairMatrices

  /** np.sqrt(np.diag(S)): the norm of each basis function under the raw overlap. */
  function Norms(raw: Matrix, sqrt: real -> real): (n: seq<real>)
    requires IsSquare(raw, |raw|)
    ensures |n| == |raw| && forall i :: 0 <= i < |raw| ==> n[i] == sqrt(raw[i][i])
  {
    seq(|raw|, i requires 0 <= i < |raw| => sqrt(raw[i][i]))
  }

  /** 1. / norm_coeffs */
  function Reciprocals(n: seq<real>): (r: seq<real>)
    requires forall i :: 0 <= i < |n| ==> n[i] != 0.0
    ensures |r| == |n| && forall i :: 0 <= i < |n| ==> r[i] * n[i] == 1.0
  {
    seq(|n|, i requires 0 <= i < |n| => 1.0 / n[i])
  }

  /** np.outer(n, n) */
  function Outer(n: seq<real>): (O: Matrix)
    ensures IsSquare(O, |n|) && IsSymmetric(O)
    ensures forall i, j :: 0 <= i < |n| && 0 <= j < |n| ==> O[i][j] == n[i] * n[j]
  {
    seq(|n|, i requires 0 <= i < |n| => seq(|n|, j requires 0 <= j < |n| => n[i] * n[j]))
  }

  /** The outer product of positive norms is positive. */
  lemma OuterPositive(n: seq<real>)
    requires forall i :: 0 <= i < |n| ==> n[i] > 0.0
    ensures forall i, j :: 0 <= i < |n| && 0 <= j < |n| ==> Outer(n)[i][j] > 0.0
  {
    forall i, j | 0 <= i < |n| && 0 <= j < |n| ensures Outer(n)[i][j] > 0.0 {
      PositiveProduct(n[i], n[j]);
    }
  }

  lemma PositiveProduct(a: real, b: real)
    requires a > 0.0 && b > 0.0
    ensures a * b > 0.0
  {}

  /**
   * S / np.outer(n, n). Each entry times n_i * n_j gives back the raw entry;
   * symmetry is kept, and a positive diagonal entry whose norm squares to it
   * becomes 1.
   */
  function Rescale(raw: Matrix, n: seq<real>): (S: Matrix)
    requires IsSquare(raw, |raw|) && |n| == |raw|
    requires forall i :: 0 <= i < |n| ==> n[i] > 0.0
    ensures IsSquare(S, |raw|)
    ensures forall i, j :: 0 <= i < |raw| && 0 <= j < |raw| ==> S[i][j] * Outer(n)[i][j] == raw[i][j]
    ensures IsSymmetric(raw) ==> IsSymmetric(S)
    ensures forall i :: 0 <= i < |raw| && raw[i][i] > 0.0 && n[i] * n[i] == raw[i][i] ==> S[i][i] == 1.0
  {
    var L, O := |raw|, Outer(n);
    OuterPositive(n);
    var S := seq(L, i requires 0 <= i < L => seq(L, j requires 0 <= j < L => raw[i][j] / O[i][j]));
    forall i, j | 0 <= i < L && 0 <= j < L ensures S[i][j] * O[i][j] == raw[i][j] {
      Quotient(raw[i][j], O[i][j]);
    }
    forall i | 0 <= i < L && raw[i][i] > 0.0 && n[i] * n[i] == raw[i][i] ensures S[i][i] == 1.0 {
      UnitDiagonal(raw[i][i], O[i][i]);
    }
    S
  }

  lemma UnitDiagonal(x: real, d: real)
    requires x > 0.0 && d == x
    ensures x / d == 1.0
  {}

  lemma Quotient(x: real, d: real)
    requires d != 0.0
    ensures x / d * d == x
  {}

  /** Under an exact square root and a positive raw diagonal, every norm is positive and squares back. */
  lemma NormsExact(raw: Matrix, numerics: Numerics, n: seq<real>)
    requires IsSquare(raw, |raw|) && numerics.SqrtExact()
    requires forall i :: 0 <= i < |raw| ==> raw[i][i] > 0.0
    requires n == Norms(raw, numerics.sqrt)
    ensures forall i :: 0 <= i < |raw| ==> n[i] > 0.0 && n[i] * n[i] == raw[i][i]
  {}

  /** S / np.outer(n, n) on the filled array, into a new array. */
  method Divide(m: array2<real>, norms: seq<real>) returns (S: array2<real>)
    requires m.Length0 == m.Length1 == |norms|
    requires forall i :: 0 <= i < |norms| ==> norms[i] > 0.0
    ensures S.Length0 == S.Length1 == |norms|
    ensures MatrixOf(S) == Rescale(MatrixOf(m), norms)
  {
    var L, outer := |norms|, Outer(norms);
    OuterPositive(norms);
    S := new real[L, L]((_, _) => 0.0);
    forall i, j | 0 <= i < L && 0 <= j < L {
      S[i, j] := m[i, j] / outer[i][j];
    }
    RescaleEntries(MatrixOf(m), norms, MatrixOf(S));
  }

  /** A matrix whose entries are raw[i][j] / (n_i n_j) is Rescale(raw, n). */
  lemma RescaleEntries(raw: Matrix, n: seq<real>, S: Matrix)
    requires IsSquare(raw, |raw|) && |n| == |raw| && IsSquare(S, |raw|)
    requires forall i :: 0 <= i < |n| ==> n[i] > 0.0
    requires forall i, j :: 0 <= i < |raw| && 0 <= j < |raw| ==> S[i][j] == raw[i][j] / Outer(n)[i][j]
    ensures S == Rescale(raw, n)
  {
    var R := Rescale(raw, n);
    forall i | 0 <= i < |raw| ensures S[i] == R[i] {
      assert forall j :: 0 <= j < |raw| ==> S[i][j] == R[i][j];
    }
  }

  /**
   * Overlap._calculate_self. The raw matrix is the pair fill of the basis as
   * it was on entry; renormalize is then called once with 1 / n_i. When it
   * fails (numpy's reshape raising: the coefficient count differs from the
   * stored table's size) the basis is unchanged and `ok` is false. Otherwise
   * the returned S is raw[i][j] / (n_i n_j): symmetric with unit diagonal.
   */
  method CalculateSelf(basis: GaussianBasis, integrate: Field -> real, numerics: Numerics)
    returns (ok: bool, S: array2<real>, ghost raw: Matrix, norms: seq<real>, ghost calls: seq<Pair>)
    requires basis.Valid()
    requires numerics.SqrtExact()
    requires forall k :: 0 <= k < |basis.basisSet| ==>
      integrate(OverlapIntegrand(basis.basisSet[k], basis.basisSet[k])) > 0.0
    modifies basis
    ensures basis.Valid()
    ensures raw == PairMatrix(old(basis.basisSet), OverlapIntegrand, integrate)
    ensures calls == UpperTriangle(|old(basis.basisSet)|)
    ensures |norms| == |raw|
    ensures forall i :: 0 <= i < |raw| ==>
      norms[i] == numerics.sqrt(raw[i][i]) && norms[i] > 0.0 && norms[i] * norms[i] == raw[i][i]
    ensures ok <==> |raw| == Size(old(basis.normalizationFactors))
    ensures ok ==> basis.normalizationFactors
                   == Reshape(Reciprocals(norms), |old(basis.normalizationFactors)|, Cols(old(basis.normalizationFactors)))
    ensures !ok ==> basis.normalizationFactors == old(basis.normalizationFactors) && basis.basisSet == old(basis.basisSet)
    ensures |basis.basisSet| == |old(basis.basisSet)|
    ensures forall k :: 0 <= k < |basis.basisSet| ==>
      basis.basisSet[k].alpha == old(basis.basisSet[k].alpha) && basis.basisSet[k].center == old(basis.basisSet[k].center)
    ensures ok && Cols(old(basis.normalizationFactors)) == |basis.alphas| ==>
      forall i, j :: 0 <= i < |basis.nucleiPositions| && 0 <= j < |basis.alphas| ==>
        Flat(i, j, |basis.alphas|) < |norms| &&
        basis.basisSet[Flat(i, j, |basis.alphas|)].norm == 1.0 / norms[Flat(i, j, |basis.alphas|)]
    ensures ok ==> S.Length0 == |raw| && S.Length1 == |raw| && MatrixOf(S) == Rescale(raw, norms)
  {
    var m;
    m, calls := Fill(basis.basisSet, OverlapIntegrand, integrate);
    var filled := MatrixOf(m);
    raw := filled;
    norms := Norms(filled, numerics.sqrt);
    NormsExact(filled, numerics, norms);
    ok := basis.Renormalize(Reciprocals(norms));
    if ok {
      S := Divide(m, norms);
    } else {
      S := m;
    }
  }
}
