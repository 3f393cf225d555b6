/**
 * The SCF iteration (SCF_method/calculation/calculation_iterator.py): the
 * closed-shell Roothaan-Hall procedure of Szabo and Ostlund, "Modern
 * Quantum Chemistry", section 3.4.6.
 *
 * The iterator object holds the molecular integrals S, T, V_nuc and the
 * electron-repulsion tensor, the orthogonalising matrix X built once from
 * S, and the state of the iteration: the density P, the matrices G, F and
 * C, the orbital energies E, the next density P_new and the counter. The
 * matrices are values the methods reassign; the integrals and X are `const`.
 */
module CalculationIterator {
  import opened Linalg
  import opened Sums
  import opened Convergence
  import opened Basis

  /** P and the electron-repulsion tensor over the same L basis functions. */
  predicate Shaped(P: Matrix, mnls: Tensor) {
    IsSquare(P, |P|) && IsTensor(mnls, |P|)
  }

  /** The term P[i][j] * (mnls[m][n][j][i] - 1/2 mnls[m][i][j][n]) of G[m][n]. */
  function GTerm(P: Matrix, mnls: Tensor, m: nat, n: nat, i: nat, j: nat): real
    requires Shaped(P, mnls) && m < |P| && n < |P| && i < |P| && j < |P|
  {
    P[i][j] * (mnls[m][n][j][i] - 0.5 * mnls[m][i][j][n])
  }

  /** Σ_{j' < j} of the terms of G[m][n] for row i of P: the inner loop's running sum. */
  function GRow(P: Matrix, mnls: Tensor, m: nat, n: nat, i: nat, j: nat): real
    requires Shaped(P, mnls) && m < |P| && n < |P| && i < |P| && j <= |P|
  {
    if j == 0 then 0.0 else GRow(P, mnls, m, n, i, j - 1) + GTerm(P, mnls, m, n, i, j - 1)
  }

  /** Σ_{i' < i} Σ_j of the terms of G[m][n]: the outer loop's running sum. */
  function GPartial(P: Matrix, mnls: Tensor, m: nat, n: nat, i: nat): real
    requires Shaped(P, mnls) && m < |P| && n < |P| && i <= |P|
  {
    if i == 0 then 0.0 else GPartial(P, mnls, m, n, i - 1) + GRow(P, mnls, m, n, i - 1, |P|)
  }

  /** G[m][n] = Σ_i Σ_j P[i][j] (mnls[m][n][j][i] - 1/2 mnls[m][i][j][n]), summed in the loop's order. */
  function GMatrix(P: Matrix, mnls: Tensor): (G: Matrix)
    requires Shaped(P, mnls)
    ensures IsSquare(G, |P|)
    ensures forall m, n {:trigger G[m][n]} :: 0 <= m < |P| && 0 <= n < |P| ==> G[m][n] == GPartial(P, mnls, m, n, |P|)
  {
    seq(|P|, m requires 0 <= m < |P| =>
      seq(|P|, n requires 0 <= n < |P| => GPartial(P, mnls, m, n, |P|)))
  }

  /** The terms of G[m][n] as a grid over (i, j), for reasoning about the whole sum. */
  function GTerms(P: Matrix, mnls: Tensor, m: nat, n: nat): (f: (nat, nat) -> real)
    requires Shaped(P, mnls) && m < |P| && n < |P|
    ensures forall i: nat, j: nat :: i < |P| && j < |P| ==> f(i, j) == GTerm(P, mnls, m, n, i, j)
  {
    (i: nat, j: nat) => if i < |P| && j < |P| then GTerm(P, mnls, m, n, i, j) else 0.0
  }

  /** G[m][n] is the grid sum of its terms. */
  lemma GEntryIsGridSum(P: Matrix, mnls: Tensor, m: nat, n: nat)
    requires Shaped(P, mnls) && m < |P| && n < |P|
    ensures GMatrix(P, mnls)[m][n] == GridSum(GTerms(P, mnls, m, n), |P|, |P|)
  {
    var f := GTerms(P, mnls, m, n);
    forall i | 0 <= i < |P| ensures GRow(P, mnls, m, n, i, |P|) == RowSum(f, i, |P|) {
      GRowIsRowSum(P, mnls, m, n, i, |P|);
    }
    GPartialIsGridSum(P, mnls, m, n, |P|);
  }

  lemma {:induction false} GRowIsRowSum(P: Matrix, mnls: Tensor, m: nat, n: nat, i: nat, j: nat)
    requires Shaped(P, mnls) && m < |P| && n < |P| && i < |P| && j <= |P|
    ensures GRow(P, mnls, m, n, i, j) == RowSum(GTerms(P, mnls, m, n), i, j)
  {
    if j > 0 {
      GRowIsRowSum(P, mnls, m, n, i, j - 1);
    }
  }

  lemma {:induction false} GPartialIsGridSum(P: Matrix, mnls: Tensor, m: nat, n: nat, i: nat)
    requires Shaped(P, mnls) && m < |P| && n < |P| && i <= |P|
    requires forall r | 0 <= r < |P| :: GRow(P, mnls, m, n, r, |P|) == RowSum(GTerms(P, mnls, m, n), r, |P|)
    ensures GPartial(P, mnls, m, n, i) == GridSum(GTerms(P, mnls, m, n), i, |P|)
  {
    if i > 0 {
      GPartialIsGridSum(P, mnls, m, n, i - 1);
    }
  }

  /** An all-zero density gives an all-zero G. */
  lemma ZeroDensityZeroG(P: Matrix, mnls: Tensor)
    requires Shaped(P, mnls)
    requires forall i, j :: 0 <= i < |P| && 0 <= j < |P| ==> P[i][j] == 0.0
    ensures forall m, n :: 0 <= m < |P| && 0 <= n < |P| ==> GMatrix(P, mnls)[m][n] == 0.0
  {
    forall m, n | 0 <= m < |P| && 0 <= n < |P| ensures GMatrix(P, mnls)[m][n] == 0.0 {
      GEntryIsGridSum(P, mnls, m, n);
      GridZero(GTerms(P, mnls, m, n), |P|, |P|);
    }
  }

  /**
   * A symmetric density and an electron-repulsion tensor with the eight-way
   * symmetry give a symmetric G: the (n, m) grid is the (m, n) grid read
   * with i and j exchanged.
   */
  lemma GSymmetric(P: Matrix, mnls: Tensor)
    requires Shaped(P, mnls) && IsSymmetric(P) && IsPermutationSymmetric(mnls)
    ensures IsSymmetric(GMatrix(P, mnls))
  {
    var L := |P|;
    forall m, n | 0 <= m < L && 0 <= n < L ensures GMatrix(P, mnls)[m][n] == GMatrix(P, mnls)[n][m] {
      var f, g := GTerms(P, mnls, m, n), GTerms(P, mnls, n, m);
      forall i: nat, j: nat | i < L && j < L ensures g(i, j) == Flip(f)(i, j) {
        assert mnls[n][m][j][i] == mnls[m][n][i][j];
        assert mnls[n][i][j][m] == mnls[m][j][i][n];
      }
      GridCongruent(g, Flip(f), L, L);
      GridSwap(f, L, L);
      GEntryIsGridSum(P, mnls, m, n);
      GEntryIsGridSum(P, mnls, n, m);
    }
  }

  /** F = T + V_nuc + G. */
  function Fock(T: Matrix, VNuc: Matrix, G: Matrix): (F: Matrix)
    requires IsSquare(T, |T|) && IsSquare(VNuc, |T|) && IsSquare(G, |T|)
    ensures IsSquare(F, |T|)
    ensures forall i, j {:trigger F[i][j]} :: 0 <= i < |T| && 0 <= j < |T| ==> F[i][j] == T[i][j] + VNuc[i][j] + G[i][j]
  {
    Add(Add(T, VNuc), G)
  }

  /**
   * With symmetric T and V_nuc, a symmetric density and a fully symmetric
   * repulsion tensor, the Fock matrix is symmetric.
   */
  lemma FockSymmetric(T: Matrix, VNuc: Matrix, P: Matrix, mnls: Tensor)
    requires IsSquare(T, |T|) && IsSquare(VNuc, |T|) && IsSquare(P, |T|) && Shaped(P, mnls)
    requires IsSymmetric(T) && IsSymmetric(VNuc) && IsSymmetric(P) && IsPermutationSymmetric(mnls)
    ensures IsSymmetric(Fock(T, VNuc, GMatrix(P, mnls)))
  {
    GSymmetric(P, mnls);
  }

  /** s ** (-0.5), entrywise. */
  function InverseSqrts(s: seq<real>, inverseSqrt: real -> real): (r: seq<real>)
    ensures |r| == |s| && forall k :: 0 <= k < |s| ==> r[k] == inverseSqrt(s[k])
  {
    seq(|s|, k requires 0 <= k < |s| => inverseSqrt(s[k]))
  }

  /** X = U diag(s^(-1/2)) Uᵀ where (s, U) = eig(S): symmetric, whatever eig returns. */
  function Orthogonalizer(S: Matrix, numerics: Numerics): (X: Matrix)
    requires numerics.EigShapedAt(S)
    ensures IsSquare(X, |S|) && IsSymmetric(X)
  {
    var e := numerics.eig(S);
    var d := InverseSqrts(e.values, numerics.inverseSqrt);
    SandwichSymmetric(e.vectors, d);
    MatMul(MatMul(e.vectors, Diag(d)), Transpose(e.vectors))
  }

  /** Right-multiplying by diag(d) scales column t by d[t]. */
  lemma {:induction false} DiagonalColumn(U: Matrix, d: seq<real>, i: nat, t: nat, k: nat)
    requires IsSquare(U, |U|) && |d| == |U| && i < |U| && t < |U| && k <= |U|
    ensures DotPrefix(U, Diag(d), i, t, k) == if t < k then U[i][t] * d[t] else 0.0
  {
    if k > 0 {
      DiagonalColumn(U, d, i, t, k - 1);
    }
  }

  /** Σ_t Y[i][t] U[j][t] is symmetric in i and j when Y[i][t] = U[i][t] d[t]. */
  lemma {:induction false} SandwichEntry(U: Matrix, d: seq<real>, Y: Matrix, i: nat, j: nat, k: nat)
    requires IsSquare(U, |U|) && |d| == |U| && IsSquare(Y, |U|) && i < |U| && j < |U| && k <= |U|
    requires forall p, t :: 0 <= p < |U| && 0 <= t < |U| ==> Y[p][t] == U[p][t] * d[t]
    ensures DotPrefix(Y, Transpose(U), i, j, k) == DotPrefix(Y, Transpose(U), j, i, k)
  {
    if k > 0 {
      SandwichEntry(U, d, Y, i, j, k - 1);
      var t := k - 1;
      assert Y[i][t] * Transpose(U)[t][j] == U[i][t] * d[t] * U[j][t];
      assert Y[j][t] * Transpose(U)[t][i] == U[j][t] * d[t] * U[i][t];
    }
  }

  /** U D Uᵀ is symmetric for a diagonal D. */
  lemma SandwichSymmetric(U: Matrix, d: seq<real>)
    requires IsSquare(U, |U|) && |d| == |U|
    ensures IsSymmetric(MatMul(MatMul(U, Diag(d)), Transpose(U)))
  {
    var Y := MatMul(U, Diag(d));
    forall p, t | 0 <= p < |U| && 0 <= t < |U| ensures Y[p][t] == U[p][t] * d[t] {
      DiagonalColumn(U, d, p, t, |U|);
    }
    forall i, j | 0 <= i < |U| && 0 <= j < |U|
      ensures DotPrefix(Y, Transpose(U), i, j, |U|) == DotPrefix(Y, Transpose(U), j, i, |U|)
    {
      SandwichEntry(U, d, Y, i, j, |U|);
    }
  }

  /** F' = Xᵀ F X: the Fock matrix in the orthogonalised basis. */
  function Transformed(X: Matrix, F: Matrix): (F': Matrix)
    requires IsSquare(X, |X|) && IsSquare(F, |X|)
    ensures IsSquare(F', |X|)
  {
    MatMul(MatMul(Transpose(X), F), X)
  }

  /** Steps 7 to 9: (E, C') = eig(F') and C = X C'. C is L x L and there are L orbital energies. */
  function CMatrix(X: Matrix, F: Matrix, numerics: Numerics): (r: (Matrix, seq<real>))
    requires IsSquare(X, |X|) && IsSquare(F, |X|) && numerics.EigShapedAt(Transformed(X, F))
    ensures IsSquare(r.0, |X|) && |r.1| == |X|
    ensures r.1 == numerics.eig(Transformed(X, F)).values
  {
    var e := numerics.eig(Transformed(X, F));
    (MatMul(X, e.vectors), e.values)
  }

  /** The loop bound N // 2: Python's floor division, and an empty range for a negative bound. */
  function Occupied(N: int): (k: nat)
    ensures N >= 0 ==> 2 * k <= N < 2 * k + 2
    ensures N < 2 ==> k == 0
  {
    if N < 0 then 0 else N / 2
  }

  /** The term 2 C[mu][a] C[nu][a] that occupied orbital a adds to P_new[mu][nu]. */
  function DensityTerm(C: Matrix, mu: nat, nu: nat, a: nat): real
    requires IsSquare(C, |C|) && mu < |C| && nu < |C| && a < |C|
  {
    2.0 * C[mu][a] * C[nu][a]
  }

  /** Σ_{a < k} 2 C[mu][a] C[nu][a]: the density loop's running sum after k orbitals. */
  function DensitySum(C: Matrix, mu: nat, nu: nat, k: nat): real
    requires IsSquare(C, |C|) && mu < |C| && nu < |C| && k <= |C|
  {
    if k == 0 then 0.0 else DensitySum(C, mu, nu, k - 1) + DensityTerm(C, mu, nu, k - 1)
  }

  lemma {:induction false} DensitySumSymmetric(C: Matrix, mu: nat, nu: nat, k: nat)
    requires IsSquare(C, |C|) && mu < |C| && nu < |C| && k <= |C|
    ensures DensitySum(C, mu, nu, k) == DensitySum(C, nu, mu, k)
  {
    if k > 0 {
      DensitySumSymmetric(C, mu, nu, k - 1);
    }
  }

  /**
   * P_new[mu][nu] = Σ_{a < N // 2} 2 C[mu][a] C[nu][a]: the closed-shell
   * density of the first N // 2 columns of C. It is symmetric, and zero
   * when there are fewer than two electrons.
   */
  function Density(C: Matrix, N: int): (P: Matrix)
    requires IsSquare(C, |C|) && (|C| == 0 || Occupied(N) <= |C|)
    ensures IsSquare(P, |C|) && IsSymmetric(P)
    ensures N < 2 ==> forall mu, nu :: 0 <= mu < |C| && 0 <= nu < |C| ==> P[mu][nu] == 0.0
    ensures forall mu, nu {:trigger P[mu][nu]} :: 0 <= mu < |C| && 0 <= nu < |C| ==> P[mu][nu] == DensitySum(C, mu, nu, Occupied(N))
  {
    var P := seq(|C|, mu requires 0 <= mu < |C| =>
      seq(|C|, nu requires 0 <= nu < |C| => DensitySum(C, mu, nu, Occupied(N))));
    assert IsSymmetric(P) by {
      forall mu, nu | 0 <= mu < |C| && 0 <= nu < |C| ensures P[mu][nu] == P[nu][mu] {
        DensitySumSymmetric(C, mu, nu, Occupied(N));
      }
    }
    P
  }

  /** The grid (A[i][j] - B[i][j])², the entries of (A - B) ** 2. */
  function SquaredDifferences(A: Matrix, B: Matrix): (f: (nat, nat) -> real)
    requires IsSquare(A, |B|) && IsSquare(B, |B|)
    ensures forall i: nat, j: nat :: i < |B| && j < |B| ==> f(i, j) == (A[i][j] - B[i][j]) * (A[i][j] - B[i][j])
  {
    (i: nat, j: nat) => if i < |B| && j < |B| then (A[i][j] - B[i][j]) * (A[i][j] - B[i][j]) else 0.0
  }

  /** np.sum((A - B) ** 2): never negative, and zero when A == B. */
  function SumOfSquares(A: Matrix, B: Matrix): (s: real)
    requires IsSquare(A, |B|) && IsSquare(B, |B|)
    ensures s >= 0.0
    ensures A == B ==> s == 0.0
  {
    var f := SquaredDifferences(A, B);
    GridNonNegative(f, |B|, |B|);
    if A == B then GridZero(f, |B|, |B|); GridSum(f, |B|, |B|) else GridSum(f, |B|, |B|)
  }

  /**
   * epsilon <= delta, with epsilon = sqrt(Σ (P - P_new)² / L²), decided
   * without the square root: false when L = 0 (numpy's 0 / 0 is nan, and
   * nan <= delta is false) and when delta < 0 (a square root is never
   * negative).
   */
  predicate Converged(P: Matrix, PNew: Matrix, delta: real)
    requires IsSquare(P, |PNew|) && IsSquare(PNew, |PNew|)
  {
    |PNew| > 0 && delta >= 0.0 && SumOfSquares(P, PNew) <= delta * delta * ((|PNew| * |PNew|) as real)
  }

  /** Converged is the test epsilon <= delta for an exact square root. */
  lemma ConvergedIsEpsilonTest(P: Matrix, PNew: Matrix, delta: real, numerics: Numerics)
    requires IsSquare(P, |PNew|) && IsSquare(PNew, |PNew|) && |PNew| > 0
    requires numerics.SqrtExact() && numerics.sqrt(0.0) == 0.0
    ensures Converged(P, PNew, delta)
        <==> numerics.sqrt(SumOfSquares(P, PNew) / ((|PNew| * |PNew|) as real)) <= delta
  {
    var s, area := SumOfSquares(P, PNew), (|PNew| * |PNew|) as real;
    assert area > 0.0;
    var x := s / area;
    QuotientBound(s, area, delta * delta);
    if x > 0.0 {
      var r := numerics.sqrt(x);
      assert r > 0.0 && r * r == x;
      if delta >= 0.0 {
        SquareMonotone(r, delta);
      }
    }
  }

  lemma QuotientBound(s: real, area: real, b: real)
    requires s >= 0.0 && area > 0.0
    ensures s / area >= 0.0
    ensures s / area <= b <==> s <= b * area
  {
    assert s / area * area == s;
  }

  lemma SquareMonotone(r: real, delta: real)
    requires r >= 0.0 && delta >= 0.0
    ensures r * r <= delta * delta <==> r <= delta
  {
    if r <= delta {
      ScaleLe(r, delta, r);
      ScaleLe(r, delta, delta);
    } else {
      ProductPositive(r - delta, r + delta);
      assert r * r - delta * delta == (r - delta) * (r + delta);
    }
  }

  lemma ScaleLe(a: real, b: real, c: real)
    requires a <= b && c >= 0.0
    ensures a * c <= b * c
  {}

  lemma ProductPositive(a: real, b: real)
    requires a > 0.0 && b > 0.0
    ensures a * b > 0.0
  {}

  /** (P_new + P) / 2, the damped next density. */
  function Average(A: Matrix, B: Matrix): (M: Matrix)
    requires IsSquare(A, |A|) && IsSquare(B, |A|)
    ensures IsSquare(M, |A|)
    ensures forall i, j {:trigger M[i][j]} :: 0 <= i < |A| && 0 <= j < |A| ==> M[i][j] == (A[i][j] + B[i][j]) / 2.0
    ensures IsSymmetric(A) && IsSymmetric(B) ==> IsSymmetric(M)
  {
    seq(|A|, i requires 0 <= i < |A| => seq(|A|, j requires 0 <= j < |A| => (A[i][j] + B[i][j]) / 2.0))
  }

  /** Averaging halves the distance to P: the squared difference drops to a quarter. */
  lemma AveragingQuarters(P: Matrix, PNew: Matrix)
    requires IsSquare(P, |PNew|) && IsSquare(PNew, |PNew|)
    ensures SumOfSquares(P, Average(PNew, P)) == 0.25 * SumOfSquares(P, PNew)
  {
    var L, M := |PNew|, Average(PNew, P);
    var f, g := SquaredDifferences(P, PNew), SquaredDifferences(P, M);
    forall i: nat, j: nat | i < L && j < L ensures g(i, j) == 0.25 * f(i, j) {
      var p, q := P[i][j], PNew[i][j];
      assert M[i][j] == (q + p) / 2.0;
      assert p - M[i][j] == 0.5 * (p - q);
    }
    GridScale(f, g, 0.25, L, L);
  }

  /**
   * The shapes the iterator needs: L x L integrals over the L basis functions
   * of T, an eig that returns L eigenpairs, and no more occupied orbitals than
   * C has columns (the density loop indexes C[mu, a] for a < N // 2).
   */
  ghost predicate Inputs(N: int, S: Matrix, T: Matrix, VNuc: Matrix, mnls: Tensor, numerics: Numerics) {
    && IsSquare(S, |T|) && IsSquare(T, |T|) && IsSquare(VNuc, |T|) && IsTensor(mnls, |T|)
    && numerics.EigShaped()
    && (|T| == 0 || Occupied(N) <= |T|)
  }

  /**
   * One consistent state of the iterator: G, F, C and E are those of the
   * density P, and both densities are symmetric L x L matrices.
   */
  ghost predicate Consistent(N: int, S: Matrix, T: Matrix, VNuc: Matrix, mnls: Tensor, numerics: Numerics,
                             X: Matrix, P: Matrix, G: Matrix, F: Matrix, C: Matrix, E: seq<real>, PNew: Matrix)
  {
    && Inputs(N, S, T, VNuc, mnls, numerics)
    && X == Orthogonalizer(S, numerics)
    && IsSquare(P, |T|) && IsSymmetric(P)
    && G == GMatrix(P, mnls)
    && F == Fock(T, VNuc, G)
    && (C, E) == CMatrix(X, F, numerics)
    && IsSquare(PNew, |T|) && IsSymmetric(PNew)
  }

  /**
   * Recomputing G, F, C, E and P_new from a symmetric density yields a
   * consistent state again.
   */
  lemma StepConsistent(N: int, S: Matrix, T: Matrix, VNuc: Matrix, mnls: Tensor, numerics: Numerics,
                       X: Matrix, P: Matrix, G: Matrix, F: Matrix, C: Matrix, E: seq<real>, PNew: Matrix)
    requires Inputs(N, S, T, VNuc, mnls, numerics) && X == Orthogonalizer(S, numerics)
    requires IsSquare(P, |T|) && IsSymmetric(P)
    requires G == GMatrix(P, mnls) && F == Fock(T, VNuc, G) && (C, E) == CMatrix(X, F, numerics)
    requires PNew == Density(C, N)
    ensures Consistent(N, S, T, VNuc, mnls, numerics, X, P, G, F, C, E, PNew)
  {
  }

  class SelfConsistentFieldCalculation {
    const N: int
    const S: Matrix
    const T: Matrix
    const VNuc: Matrix
    const mnls: Tensor
    const convergenceConfig: ConvergenceConfig
    const numerics: Numerics
    const X: Matrix
    var P: Matrix
    var G: Matrix
    var F: Matrix
    var C: Matrix
    var E: seq<real>
    var PNew: Matrix
    /** None until __iter__ is called: the Python attribute does not exist before. */
    var iteration: Option<int>

    /** G, F, C and E are those of the current density P; both densities are symmetric. */
    ghost predicate Valid()
      reads this
    {
      Consistent(N, S, T, VNuc, mnls, numerics, X, P, G, F, C, E, PNew)
    }

    /**
     * __init__ with the default guess: P is the L x L identity, X is built
     * from S, and G, F, C, E and P_new follow from P.
     */
    constructor (N: int, S: Matrix, T: Matrix, VNuc: Matrix, mnls: Tensor,
                 convergenceConfig: ConvergenceConfig, numerics: Numerics)
      requires Inputs(N, S, T, VNuc, mnls, numerics)
      ensures Valid()
      ensures this.N == N && this.S == S && this.T == T && this.VNuc == VNuc && this.mnls == mnls
      ensures this.convergenceConfig == convergenceConfig && this.numerics == numerics
      ensures P == Identity(|T|)
      ensures PNew == Density(C, N)
      ensures iteration == None
    {
      this.N := N;
      this.S := S;
      this.T := T;
      this.VNuc := VNuc;
      this.mnls := mnls;
      this.convergenceConfig := convergenceConfig;
      this.numerics := numerics;
      P := Identity(|T|);
      X := Orthogonalizer(S, numerics);
      iteration := None;
      new;
      G := CalculateGMatrix();
      F := Fock(T, VNuc, G);
      var r := CMatrix(X, F, numerics);
      C, E := r.0, r.1;
      PNew := CalculateElectronDensityMatrix();
    }

    /** __iter__: starts the count at 1 (the constructor ran the first step) and returns this same object. */
    method Iter() returns (it: SelfConsistentFieldCalculation)
      modifies this
      ensures it == this && iteration == Some(1)
      ensures old(Valid()) ==> Valid()
      ensures P == old(P) && G == old(G) && F == old(F) && C == old(C) && E == old(E) && PNew == old(PNew)
    {
      iteration := Some(1);
      it := this;
    }

    /**
     * __next__: commits P <- P_new, recomputes G, F, C, E and P_new from it
     * and adds one to the counter. Only the inputs and P_new are read, so the
     * old G, F, C and E need not be consistent.
     */
    method Next()
      requires Inputs(N, S, T, VNuc, mnls, numerics) && X == Orthogonalizer(S, numerics)
      requires IsSquare(PNew, |T|) && IsSymmetric(PNew) && iteration.Some?
      modifies this
      ensures Valid()
      ensures P == old(PNew) && PNew == Density(C, N)
      ensures iteration == Some(old(iteration).value + 1)
    {
      P := PNew;
      G := CalculateGMatrix();
      F := Fock(T, VNuc, G);
      var r := CMatrix(X, F, numerics);
      C, E := r.0, r.1;
      PNew := CalculateElectronDensityMatrix();
      StepConsistent(N, S, T, VNuc, mnls, numerics, X, P, G, F, C, E, PNew);
      iteration := Some(iteration.value + 1);
    }

    /** calculate_g_matrix: G accumulated over (i, j) in row-major order, one whole-matrix update per pair. */
    method CalculateGMatrix() returns (g: Matrix)
      requires IsSquare(P, |T|) && IsTensor(mnls, |T|)
      ensures g == GMatrix(P, mnls)
    {
      var L, density, eri := |T|, P, mnls;
      var acc := new real[L, L]((_, _) => 0.0);
      for i := 0 to L
        invariant forall m, n :: 0 <= m < L && 0 <= n < L ==> acc[m, n] == GPartial(density, eri, m, n, i)
      {
        for j := 0 to L
          invariant forall m, n :: 0 <= m < L && 0 <= n < L ==>
            acc[m, n] == GPartial(density, eri, m, n, i) + GRow(density, eri, m, n, i, j)
        {
          forall m, n | 0 <= m < L && 0 <= n < L {
            acc[m, n] := acc[m, n] + GTerm(density, eri, m, n, i, j);
          }
        }
      }
      g := MatrixOf(acc);
      var R := GMatrix(density, eri);
      forall m | 0 <= m < L ensures g[m] == R[m] {
        assert forall n :: 0 <= n < L ==> g[m][n] == R[m][n];
      }
    }

    /** calculate_electron_density_matrix: P_new accumulated orbital by orbital, entry by entry. */
    method CalculateElectronDensityMatrix() returns (density: Matrix)
      requires IsSquare(C, |G|) && (|G| == 0 || Occupied(N) <= |G|)
      ensures density == Density(C, N)
    {
      var L := |G|;
      var acc := new real[L, L]((_, _) => 0.0);
      for a := 0 to Occupied(N)
        invariant forall p, q :: 0 <= p < L && 0 <= q < L ==> acc[p, q] == DensitySum(C, p, q, a)
      {
        for mu := 0 to L
          invariant forall p, q :: 0 <= p < L && 0 <= q < L ==>
            acc[p, q] == DensitySum(C, p, q, if p < mu then a + 1 else a)
        {
          for nu := 0 to L
            invariant forall p, q :: 0 <= p < L && 0 <= q < L ==>
              acc[p, q] == DensitySum(C, p, q, if p < mu || (p == mu && q < nu) then a + 1 else a)
          {
            acc[mu, nu] := acc[mu, nu] + DensityTerm(C, mu, nu, a);
          }
        }
      }
      density := MatrixOf(acc);
      var R := Density(C, N);
      forall p | 0 <= p < L ensures density[p] == R[p] {
        assert forall q :: 0 <= q < L ==> density[p][q] == R[p][q];
      }
    }

    /**
     * convergence_criterion: false (stop) when epsilon <= delta, leaving
     * P_new as it is; otherwise P_new is averaged with P when averaging is
     * on, and the result is false exactly when the counter has reached
     * max_iteration. The counter is read only when the delta test fails.
     */
    method ConvergenceCriterion() returns (proceed: bool)
      requires Valid()
      requires iteration.Some? || Converged(P, PNew, convergenceConfig.delta)
      modifies this
      ensures Valid()
      ensures P == old(P) && G == old(G) && F == old(F) && C == old(C) && E == old(E) && iteration == old(iteration)
      ensures proceed <==> !Converged(P, old(PNew), convergenceConfig.delta)
                           && iteration.value != convergenceConfig.maxIteration
      ensures PNew == if Converged(P, old(PNew), convergenceConfig.delta) || !convergenceConfig.averaging
                      then old(PNew) else Average(old(PNew), P)
      ensures !proceed ==> Converged(P, PNew, convergenceConfig.delta) || iteration.value == convergenceConfig.maxIteration
    {
      if Converged(P, PNew, convergenceConfig.delta) {
        return false;
      }
      if convergenceConfig.averaging {
        PNew := Average(PNew, P);
      }
      if iteration.value == convergenceConfig.maxIteration {
        return false;
      } else {
        return true;
      }
    }
  }
}
