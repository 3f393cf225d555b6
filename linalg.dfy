/**
 * The slice of numpy the SCF core relies on: square matrices and four-index
 * tensors of reals, entrywise sums, products, transposes, and conversion of
 * the builders' in-place arrays to values. Eigen-decomposition and the square
 * roots are floating-point kernels and stay abstract (see `Numerics`).
 */
module Linalg {

  type Matrix = seq<seq<real>>
  type Tensor = seq<seq<seq<seq<real>>>>

  predicate IsSquare(M: Matrix, n: nat) {
    |M| == n && forall i :: 0 <= i < n ==> |M[i]| == n
  }

  predicate IsSymmetric(M: Matrix)
    requires IsSquare(M, |M|)
  {
    forall i, j {:trigger M[i][j]} :: 0 <= i < |M| && 0 <= j < |M| ==> M[i][j] == M[j][i]
  }

  predicate IsTensor(t: Tensor, n: nat) {
    && |t| == n
    && (forall i :: 0 <= i < n ==> |t[i]| == n)
    && (forall i, j :: 0 <= i < n && 0 <= j < n ==> |t[i][j]| == n)
    && (forall i, j, k :: 0 <= i < n && 0 <= j < n && 0 <= k < n ==> |t[i][j][k]| == n)
  }

  /** Invariance under the 8 index permutations generated by i<->j, k<->l and (ij)<->(kl). */
  predicate IsPermutationSymmetric(t: Tensor)
    requires IsTensor(t, |t|)
  {
    forall i, j, k, l {:trigger t[i][j][k][l]} :: 0 <= i < |t| && 0 <= j < |t| && 0 <= k < |t| && 0 <= l < |t| ==>
      var v := t[i][j][k][l];
      && v == t[j][i][k][l] && v == t[i][j][l][k] && v == t[j][i][l][k]
      && v == t[k][l][i][j] && v == t[l][k][i][j] && v == t[k][l][j][i] && v == t[l][k][j][i]
  }

  /** np.identity(n) */
  function Identity(n: nat): (M: Matrix)
    ensures IsSquare(M, n) && IsSymmetric(M)
    ensures forall i, j :: 0 <= i < n && 0 <= j < n ==> M[i][j] == (if i == j then 1.0 else 0.0)
  {
    seq(n, i => seq(n, j => if i == j then 1.0 else 0.0))
  }

  /** Entrywise A + B. */
  function Add(A: Matrix, B: Matrix): (M: Matrix)
    requires IsSquare(A, |A|) && IsSquare(B, |A|)
    ensures IsSquare(M, |A|)
    ensures forall i, j {:trigger M[i][j]} :: 0 <= i < |A| && 0 <= j < |A| ==> M[i][j] == A[i][j] + B[i][j]
    ensures IsSymmetric(A) && IsSymmetric(B) ==> IsSymmetric(M)
  {
    seq(|A|, i requires 0 <= i < |A| => seq(|A|, j requires 0 <= j < |A| => A[i][j] + B[i][j]))
  }

  function Transpose(A: Matrix): (M: Matrix)
    requires IsSquare(A, |A|)
    ensures IsSquare(M, |A|)
    ensures forall i, j {:trigger M[i][j]} :: 0 <= i < |A| && 0 <= j < |A| ==> M[i][j] == A[j][i]
  {
    seq(|A|, i requires 0 <= i < |A| => seq(|A|, j requires 0 <= j < |A| => A[j][i]))
  }

  /** Σ_{t < k} A[i][t] * B[t][j] */
  function DotPrefix(A: Matrix, B: Matrix, i: nat, j: nat, k: nat): real
    requires IsSquare(A, |A|) && IsSquare(B, |A|)
    requires i < |A| && j < |A| && k <= |A|
  {
    if k == 0 then 0.0 else DotPrefix(A, B, i, j, k - 1) + A[i][k - 1] * B[k - 1][j]
  }

  /** The matrix product A @ B. */
  function MatMul(A: Matrix, B: Matrix): (M: Matrix)
    requires IsSquare(A, |A|) && IsSquare(B, |A|)
    ensures IsSquare(M, |A|)
    ensures forall i, j {:trigger M[i][j]} :: 0 <= i < |A| && 0 <= j < |A| ==> M[i][j] == DotPrefix(A, B, i, j, |A|)
  {
    seq(|A|, i requires 0 <= i < |A| =>
      seq(|A|, j requires 0 <= j < |A| => DotPrefix(A, B, i, j, |A|)))
  }

  /** np.diag(v) */
  function Diag(v: seq<real>): (M: Matrix)
    ensures IsSquare(M, |v|) && IsSymmetric(M)
    ensures forall i, j :: 0 <= i < |v| && 0 <= j < |v| ==> M[i][j] == if i == j then v[i] else 0.0
  {
    seq(|v|, i requires 0 <= i < |v| => seq(|v|, j requires 0 <= j < |v| => if i == j then v[i] else 0.0))
  }

  /** The value held by a two-dimensional array. */
  function MatrixOf(a: array2<real>): (M: Matrix)
    reads a
    ensures |M| == a.Length0 && forall i :: 0 <= i < a.Length0 ==> |M[i]| == a.Length1
    ensures forall i, j :: 0 <= i < a.Length0 && 0 <= j < a.Length1 ==> M[i][j] == a[i, j]
  {
    seq(a.Length0, i requires 0 <= i < a.Length0 reads a =>
      seq(a.Length1, j requires 0 <= j < a.Length1 reads a => a[i, j]))
  }

  /** The value held by a four-dimensional array of equal side lengths. */
  function TensorOf(a: array4<real>): (t: Tensor)
    requires a.Length1 == a.Length0 && a.Length2 == a.Length0 && a.Length3 == a.Length0
    reads a
    ensures IsTensor(t, a.Length0)
    ensures forall i, j, k, l :: 0 <= i < a.Length0 && 0 <= j < a.Length0 && 0 <= k < a.Length0 && 0 <= l < a.Length0 ==>
      t[i][j][k][l] == a[i, j, k, l]
  {
    var n := a.Length0;
    seq(n, i requires 0 <= i < n reads a =>
      seq(n, j requires 0 <= j < n reads a =>
        seq(n, k requires 0 <= k < n reads a =>
          seq(n, l requires 0 <= l < n reads a => a[i, j, k, l]))))
  }

  /** Result of np.linalg.eig: eigenvalues and the matrix whose columns are eigenvectors. */
  datatype Eigen = Eigen(values: seq<real>, vectors: Matrix)

  /**
   * The floating-point kernels the core calls and which this model does not
   * compute: np.linalg.eig, np.sqrt and x ** (-0.5).
   */
  datatype Numerics = Numerics(eig: Matrix -> Eigen, sqrt: real -> real, inverseSqrt: real -> real)
  {
    /** eig of the n x n matrix M yields n eigenvalues and an n x n eigenvector matrix. */
    predicate EigShapedAt(M: Matrix) {
      |eig(M).values| == |M| && IsSquare(eig(M).vectors, |M|)
    }

    ghost predicate EigShaped() {
      forall M: Matrix :: EigShapedAt(M)
    }

    /** sqrt is the positive square root on positive reals. */
    ghost predicate SqrtExact() {
      forall x: real :: x > 0.0 ==> sqrt(x) > 0.0 && sqrt(x) * sqrt(x) == x
    }
  }
}
