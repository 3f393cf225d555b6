/**
 * The fill loop shared by the overlap, kinetic-energy and nuclear-attraction
 * builders (and the older kinetic-energy builder): for every i and every
 * j >= i, integrate the kernel's integrand for (basis[i], basis[j]) once,
 * store it at [i, j] and mirror it to [j, i].
 */
module PairMatrices {
  import opened Linalg
  import opened Basis
  import opened Integrands

  /** One integrator call, for the basis pair (i, j). */
  datatype Pair = Pair(i: nat, j: nat)

  /** Entry [p][q] of the filled matrix: the integral for the pair (min, max). */
  function Entry(basis: seq<Gaussian>, kernel: (Gaussian, Gaussian) -> Field, integrate: Field -> real,
                 p: nat, q: nat): real
    requires p < |basis| && q < |basis|
  {
    if p <= q then integrate(kernel(basis[p], basis[q])) else integrate(kernel(basis[q], basis[p]))
  }

  /**
   * The matrix the fill loop produces: square over the basis, symmetric, and
   * on and above the diagonal the integral of the kernel for (basis[p], basis[q]).
   */
  function PairMatrix(basis: seq<Gaussian>, kernel: (Gaussian, Gaussian) -> Field, integrate: Field -> real): (M: Matrix)
    ensures IsSquare(M, |basis|) && IsSymmetric(M)
    ensures forall p, q :: 0 <= p <= q < |basis| ==> M[p][q] == integrate(kernel(basis[p], basis[q]))
  {
    seq(|basis|, p requires 0 <= p < |basis| =>
      seq(|basis|, q requires 0 <= q < |basis| => Entry(basis, kernel, integrate, p, q)))
  }

  /** The calls of row i from column `from` on: (i, from), ..., (i, n - 1). */
  function Row(i: nat, from: nat, n: nat): (r: seq<Pair>)
    requires from <= n
    ensures |r| == n - from
    ensures forall t :: 0 <= t < |r| ==> r[t] == Pair(i, from + t)
  {
    seq(n - from, t requires 0 <= t < n - from => Pair(i, from + t))
  }

  /** The calls of rows 0 .. i - 1, row r covering columns r .. n - 1. */
  function Rows(i: nat, n: nat): seq<Pair>
    requires i <= n
  {
    if i == 0 then [] else Rows(i - 1, n) + Row(i - 1, i - 1, n)
  }

  /** The sequence of integrator calls of the fill loop over an n-element basis. */
  function UpperTriangle(n: nat): seq<Pair> {
    Rows(n, n)
  }

  predicate LexLess(a: Pair, b: Pair) {
    a.i < b.i || (a.i == b.i && a.j < b.j)
  }

  /** The calls of the first i rows are exactly the pairs p <= q < n with p < i, in lexicographic order. */
  lemma {:induction false} RowsShape(i: nat, n: nat)
    requires i <= n
    ensures forall p: nat, q: nat :: Pair(p, q) in Rows(i, n) <==> p < i && p <= q < n
    ensures forall a, b :: 0 <= a < b < |Rows(i, n)| ==> LexLess(Rows(i, n)[a], Rows(i, n)[b])
    ensures 2 * |Rows(i, n)| == i * (2 * n + 1 - i)
  {
    if i > 0 {
      RowsShape(i - 1, n);
      var front, row := Rows(i - 1, n), Row(i - 1, i - 1, n);
      assert Rows(i, n) == front + row;
      forall p: nat, q: nat ensures Pair(p, q) in Rows(i, n) <==> p < i && p <= q < n {
        if p == i - 1 && p <= q < n {
          assert row[q - p] == Pair(p, q);
        }
      }
      forall a, b | 0 <= a < b < |Rows(i, n)| ensures LexLess(Rows(i, n)[a], Rows(i, n)[b]) {
        if a < |front| && b >= |front| {
          assert front[a] in front;
        }
      }
    }
  }

  /**
   * The fill loop calls the integrator exactly once for every pair
   * i <= j < n, in row-major order, n(n+1)/2 times in all.
   */
  lemma TriangleCalls(n: nat)
    ensures forall p: nat, q: nat :: Pair(p, q) in UpperTriangle(n) <==> p <= q < n
    ensures forall a, b :: 0 <= a < b < |UpperTriangle(n)| ==> UpperTriangle(n)[a] != UpperTriangle(n)[b]
    ensures 2 * |UpperTriangle(n)| == n * (n + 1)
  {
    RowsShape(n, n);
  }

  /**
   * The shared fill loop: a zero matrix, then for each i and each j >= i one
   * integration, written to [i, j] and, off the diagonal, to [j, i].
   */
  method Fill(basis: seq<Gaussian>, kernel: (Gaussian, Gaussian) -> Field, integrate: Field -> real)
    returns (m: array2<real>, ghost calls: seq<Pair>)
    ensures fresh(m)
    ensures m.Length0 == |basis| && m.Length1 == |basis|
    ensures MatrixOf(m) == PairMatrix(basis, kernel, integrate)
    ensures calls == UpperTriangle(|basis|)
  {
    var n := |basis|;
    m := new real[n, n]((_, _) => 0.0);
    calls := [];
    for i := 0 to n
      invariant calls == Rows(i, n)
      invariant forall p, q :: 0 <= p < n && 0 <= q < n ==>
        m[p, q] == if p < i || q < i then Entry(basis, kernel, integrate, p, q) else 0.0
    {
      for j := i to n
        invariant calls == Rows(i, n) + Row(i, i, j)
        invariant forall p, q :: 0 <= p < n && 0 <= q < n ==>
          m[p, q] == if p < i || q < i || (p == i && q < j) || (q == i && p < j)
                     then Entry(basis, kernel, integrate, p, q) else 0.0
      {
        var v := integrate(kernel(basis[i], basis[j]));
        calls := calls + [Pair(i, j)];
        if i == j {
          m[i, j] := v;
        } else {
          m[i, j] := v;
          m[j, i] := v;
        }
      }
    }
    var M, R := MatrixOf(m), PairMatrix(basis, kernel, integrate);
    forall p | 0 <= p < n ensures M[p] == R[p] {
      assert forall q :: 0 <= q < n ==> M[p][q] == R[p][q];
    }
  }
}
