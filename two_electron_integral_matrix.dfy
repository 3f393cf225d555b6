/**
 * The two-electron integral tensor mnls
 * (SCF_method/calculation/matrices/two_electron_integral_matrix.py).
 *
 * The builder walks all L^4 index quadruples in lexicographic order. A
 * quadruple whose entry is still 0 is integrated, and the value is written
 * to all eight positions of its symmetry orbit (i <-> j, k <-> l and
 * (ij) <-> (kl)); a quadruple whose entry is nonzero is skipped. Zero is
 * thus a sentinel for "not yet computed", and an integral that comes out as
 * exactly 0 leaves its orbit open to be integrated again.
 */
module TwoElectronIntegralMatrix {
  import opened Linalg
  import opened Basis
  import opened Integrands

  /** An index quadruple (i, j, k, l) of the tensor, and of one integrator call. */
  datatype Quad = Quad(i: nat, j: nat, k: nat, l: nat)

  predicate InRange(x: Quad, n: nat) {
    x.i < n && x.j < n && x.k < n && x.l < n
  }

  /** The eight index permutations under which the repulsion integral is invariant. */
  function Orbit(q: Quad): set<Quad> {
    { q, Quad(q.j, q.i, q.k, q.l), Quad(q.i, q.j, q.l, q.k), Quad(q.j, q.i, q.l, q.k),
      Quad(q.k, q.l, q.i, q.j), Quad(q.l, q.k, q.i, q.j), Quad(q.k, q.l, q.j, q.i), Quad(q.l, q.k, q.j, q.i) }
  }

  /** Lexicographic order of quadruples: the order in which the loops visit them. */
  predicate Before(x: Quad, y: Quad) {
    x.i < y.i || (x.i == y.i && (x.j < y.j || (x.j == y.j && (x.k < y.k || (x.k == y.k && x.l < y.l)))))
  }

  /** The integrator's value for quadruple q: the repulsion integrand of its four basis functions. */
  function Integral(basis: seq<Gaussian>, integrate: Repulsion -> real, q: Quad): real
    requires InRange(q, |basis|)
  {
    integrate(Repulsion(basis[q.i], basis[q.j], basis[q.k], basis[q.l]))
  }

  /** The integrator never returns exactly 0 on this basis. */
  ghost predicate NeverZero(basis: seq<Gaussian>, integrate: Repulsion -> real) {
    forall x {:trigger Integral(basis, integrate, x)} :: InRange(x, |basis|) ==> Integral(basis, integrate, x) != 0.0
  }

  predicate Cube(m: array4<real>, n: nat) {
    m.Length0 == n && m.Length1 == n && m.Length2 == n && m.Length3 == n
  }

  /**
   * The values of the tensor as a function of the index quadruple. The
   * builder's reasoning is done on this value; `Holds` ties it to the array.
   */
  type Values = Quad -> real

  ghost predicate Holds(m: array4<real>, t: Values, n: nat)
    reads m
  {
    Cube(m, n) &&
    forall a, b, c, d {:trigger m[a, b, c, d]} :: 0 <= a < n && 0 <= b < n && 0 <= c < n && 0 <= d < n ==>
      m[a, b, c, d] == t(Quad(a, b, c, d))
  }

  /** The values after writing v to every position of q's orbit. */
  function Update(t: Values, q: Quad, v: real): (t': Values)
    ensures forall x :: t'(x) == if x in Orbit(q) then v else t(x)
  {
    x => if x in Orbit(q) then v else t(x)
  }

  /** The tensor holds one value on each orbit. */
  ghost predicate Symmetric(t: Values, n: nat) {
    forall x, y {:trigger t(y), Orbit(x)} :: InRange(x, n) && y in Orbit(x) ==> t(y) == t(x)
  }

  /** Membership in an orbit is an equivalence: symmetric and transitive. */
  lemma OrbitEquivalence(x: Quad, y: Quad, z: Quad)
    ensures y in Orbit(x) <==> x in Orbit(y)
    ensures y in Orbit(x) && z in Orbit(y) ==> z in Orbit(x)
  {}

  /** Writing one value to a whole orbit keeps the tensor constant on every orbit. */
  lemma {:induction false} SymmetricUpdate(t: Values, n: nat, q: Quad, v: real)
    requires Symmetric(t, n)
    ensures Symmetric(Update(t, q, v), n)
  {
    var t' := Update(t, q, v);
    forall x, y | InRange(x, n) && y in Orbit(x) ensures t'(y) == t'(x) {
      OrbitEquivalence(q, x, y);
      OrbitEquivalence(y, x, q);
    }
  }

  /** On a constant-on-orbits tensor, every member of x's orbit holds x's entry. */
  lemma OrbitEntry(m: array4<real>, t: Values, n: nat, x: Quad, y: Quad)
    requires Holds(m, t, n) && Symmetric(t, n) && InRange(x, n) && y in Orbit(x)
    ensures InRange(y, n) && m[y.i, y.j, y.k, y.l] == m[x.i, x.j, x.k, x.l]
  {
    assert m[y.i, y.j, y.k, y.l] == t(Quad(y.i, y.j, y.k, y.l));
  }

  /** Invariance of the array under the three generators i <-> j, k <-> l and (ij) <-> (kl). */
  ghost predicate GeneratorSymmetric(m: array4<real>, n: nat)
    requires Cube(m, n)
    reads m
  {
    forall a, b, c, d {:trigger m[a, b, c, d]} :: 0 <= a < n && 0 <= b < n && 0 <= c < n && 0 <= d < n ==>
      && m[a, b, c, d] == m[b, a, c, d]
      && m[a, b, c, d] == m[a, b, d, c]
      && m[a, b, c, d] == m[c, d, a, b]
  }

  /** An array holding a constant-on-orbits value is invariant under the generators. */
  lemma ArrayGenerators(m: array4<real>, t: Values, n: nat)
    requires Holds(m, t, n) && Symmetric(t, n)
    ensures GeneratorSymmetric(m, n)
  {
    forall a, b, c, d | 0 <= a < n && 0 <= b < n && 0 <= c < n && 0 <= d < n
      ensures && m[a, b, c, d] == m[b, a, c, d]
              && m[a, b, c, d] == m[a, b, d, c]
              && m[a, b, c, d] == m[c, d, a, b]
    {
      var x := Quad(a, b, c, d);
      OrbitEntry(m, t, n, x, Quad(b, a, c, d));
      OrbitEntry(m, t, n, x, Quad(a, b, d, c));
      OrbitEntry(m, t, n, x, Quad(c, d, a, b));
    }
  }

  /** A tensor invariant under the three generators i<->j, k<->l and (ij)<->(kl). */
  ghost predicate TensorGenerators(T: Tensor, n: nat)
    requires IsTensor(T, n)
  {
    forall a, b, c, d {:trigger T[a][b][c][d]} :: 0 <= a < n && 0 <= b < n && 0 <= c < n && 0 <= d < n ==>
      && T[a][b][c][d] == T[b][a][c][d]
      && T[a][b][c][d] == T[a][b][d][c]
      && T[a][b][c][d] == T[c][d][a][b]
  }

  /** Invariance under the generators is the full eight-way invariance. */
  lemma GeneratorsEightWay(T: Tensor, n: nat)
    requires IsTensor(T, n) && TensorGenerators(T, n)
    ensures IsPermutationSymmetric(T)
  {
    forall a, b, c, d | 0 <= a < n && 0 <= b < n && 0 <= c < n && 0 <= d < n
      ensures var v := T[a][b][c][d];
        && v == T[b][a][c][d] && v == T[a][b][d][c] && v == T[b][a][d][c]
        && v == T[c][d][a][b] && v == T[d][c][a][b] && v == T[c][d][b][a] && v == T[d][c][b][a]
    {
      assert T[a][b][c][d] == T[b][a][c][d] == T[a][b][d][c];
      assert T[b][a][c][d] == T[b][a][d][c];
      assert T[a][b][c][d] == T[c][d][a][b];
      assert T[c][d][a][b] == T[d][c][a][b] == T[c][d][b][a];
      assert T[d][c][a][b] == T[d][c][b][a];
    }
  }

  /** Invariance of the array under the generators is the full eight-way invariance of its tensor. */
  lemma GeneratorsTensor(m: array4<real>, n: nat)
    requires Cube(m, n) && GeneratorSymmetric(m, n)
    ensures IsPermutationSymmetric(TensorOf(m))
  {
    var T := TensorOf(m);
    forall a, b, c, d | 0 <= a < n && 0 <= b < n && 0 <= c < n && 0 <= d < n
      ensures && T[a][b][c][d] == T[b][a][c][d]
              && T[a][b][c][d] == T[a][b][d][c]
              && T[a][b][c][d] == T[c][d][a][b]
    {
      assert m[a, b, c, d] == m[b, a, c, d];
    }
    GeneratorsEightWay(T, n);
  }

  /** Value symmetry is the full eight-way invariance of the array's tensor. */
  lemma SymmetricTensor(m: array4<real>, t: Values, n: nat)
    requires Holds(m, t, n) && Symmetric(t, n)
    ensures IsPermutationSymmetric(TensorOf(m))
  {
    ArrayGenerators(m, t, n);
    GeneratorsTensor(m, n);
  }

  /** Every call was for an in-range quadruple before the cursor. */
  predicate CallsBefore(calls: seq<Quad>, n: nat, cursor: Quad) {
    forall s :: 0 <= s < |calls| ==> InRange(calls[s], n) && Before(calls[s], cursor)
  }

  /** The calls are in strictly increasing loop order; in particular no quadruple is integrated twice. */
  predicate Increasing(calls: seq<Quad>) {
    forall s1, s2 :: 0 <= s1 < s2 < |calls| ==> Before(calls[s1], calls[s2])
  }

  /** Entry x, if nonzero, is the integral of some call in x's orbit. */
  ghost predicate SourcedAt(t: Values, basis: seq<Gaussian>, integrate: Repulsion -> real, calls: seq<Quad>, x: Quad)
    requires forall s :: 0 <= s < |calls| ==> InRange(calls[s], |basis|)
  {
    t(x) != 0.0 ==>
      exists s :: 0 <= s < |calls| && x in Orbit(calls[s]) && t(x) == Integral(basis, integrate, calls[s])
  }

  /** Every nonzero entry is the integral of some call in its own orbit. */
  ghost predicate Sourced(t: Values, basis: seq<Gaussian>, integrate: Repulsion -> real, calls: seq<Quad>)
    requires forall s :: 0 <= s < |calls| ==> InRange(calls[s], |basis|)
  {
    forall x {:trigger SourcedAt(t, basis, integrate, calls, x)} :: InRange(x, |basis|) ==> SourcedAt(t, basis, integrate, calls, x)
  }

  /** Each call's quadruple still holds the value that call returned. */
  ghost predicate CallsHold(t: Values, basis: seq<Gaussian>, integrate: Repulsion -> real, calls: seq<Quad>)
    requires forall s :: 0 <= s < |calls| ==> InRange(calls[s], |basis|)
  {
    forall s :: 0 <= s < |calls| ==> t(calls[s]) == Integral(basis, integrate, calls[s])
  }

  /** No two calls were made for the same orbit. */
  predicate OrbitsDistinct(calls: seq<Quad>) {
    forall s1, s2 :: 0 <= s1 < s2 < |calls| ==> calls[s2] !in Orbit(calls[s1])
  }

  /** x comes first, in loop order, among the members of its orbit. */
  predicate Leader(x: Quad) {
    forall y :: y in Orbit(x) ==> !Before(y, x)
  }

  /** Every quadruple before the cursor holds a nonzero entry. */
  ghost predicate VisitedNonzero(t: Values, n: nat, cursor: Quad) {
    forall x {:trigger t(x)} :: InRange(x, n) && Before(x, cursor) ==> t(x) != 0.0
  }

  /**
   * The part of the invariant that needs a never-zero integrator: each call
   * still holds its value, no two calls share an orbit, every call came
   * first in its orbit, and every quadruple before the cursor is nonzero.
   */
  ghost predicate Settled(t: Values, basis: seq<Gaussian>, integrate: Repulsion -> real, calls: seq<Quad>, cursor: Quad)
    requires forall s :: 0 <= s < |calls| ==> InRange(calls[s], |basis|)
  {
    && CallsHold(t, basis, integrate, calls)
    && OrbitsDistinct(calls)
    && (forall s :: 0 <= s < |calls| ==> Leader(calls[s]))
    && VisitedNonzero(t, |basis|, cursor)
  }

  /**
   * What holds before visiting `cursor`: the tensor is constant on orbits,
   * the calls so far were for earlier in-range quadruples in loop order,
   * every nonzero entry comes from a call in its orbit, and, when `nz` says
   * that the integrator never returns 0, the calls are settled.
   */
  ghost predicate Inv(t: Values, basis: seq<Gaussian>, integrate: Repulsion -> real, calls: seq<Quad>, cursor: Quad, nz: bool) {
    && Symmetric(t, |basis|)
    && CallsBefore(calls, |basis|, cursor)
    && Increasing(calls)
    && Sourced(t, basis, integrate, calls)
    && (nz ==> Settled(t, basis, integrate, calls, cursor))
  }

  /** The successor of q in the innermost loop's order, before the carry into the outer loops. */
  function Next(q: Quad): Quad {
    Quad(q.i, q.j, q.k, q.l + 1)
  }

  /** The quadruples before Next(q) are those before q, and q. */
  lemma BeforeNext(x: Quad, q: Quad)
    ensures Before(x, Next(q)) <==> Before(x, q) || x == q
  {}

  /** Skipping a nonzero entry moves the cursor on and keeps the invariant. */
  lemma SkipStep(t: Values, basis: seq<Gaussian>, integrate: Repulsion -> real, calls: seq<Quad>, q: Quad, nz: bool)
    requires InRange(q, |basis|) && Inv(t, basis, integrate, calls, q, nz) && t(q) != 0.0
    ensures Inv(t, basis, integrate, calls, Next(q), nz)
  {
    forall x ensures Before(x, Next(q)) <==> Before(x, q) || x == q {
      BeforeNext(x, q);
    }
  }

  /** Under a never-zero integrator, a zero entry lies in no earlier call's orbit. */
  lemma FreshOrbit(t: Values, basis: seq<Gaussian>, integrate: Repulsion -> real, calls: seq<Quad>, q: Quad)
    requires InRange(q, |basis|) && t(q) == 0.0 && Symmetric(t, |basis|)
    requires forall s :: 0 <= s < |calls| ==> InRange(calls[s], |basis|)
    requires NeverZero(basis, integrate) && CallsHold(t, basis, integrate, calls)
    ensures forall s :: 0 <= s < |calls| ==> q !in Orbit(calls[s]) && calls[s] !in Orbit(q)
  {
    forall s | 0 <= s < |calls| ensures q !in Orbit(calls[s]) && calls[s] !in Orbit(q) {
      OrbitEquivalence(q, calls[s], q);
    }
  }

  /** The integrated value of q, written to q's orbit, is accounted for by the call for q. */
  lemma SourcedStep(t: Values, basis: seq<Gaussian>, integrate: Repulsion -> real, calls: seq<Quad>, q: Quad)
    requires InRange(q, |basis|) && forall s :: 0 <= s < |calls| ==> InRange(calls[s], |basis|)
    requires Sourced(t, basis, integrate, calls)
    ensures Sourced(Update(t, q, Integral(basis, integrate, q)), basis, integrate, calls + [q])
  {
    var t', calls' := Update(t, q, Integral(basis, integrate, q)), calls + [q];
    forall x | InRange(x, |basis|) ensures SourcedAt(t', basis, integrate, calls', x) {
      if x in Orbit(q) {
        assert calls'[|calls|] == q;
      } else if t(x) != 0.0 {
        assert SourcedAt(t, basis, integrate, calls, x);
        var s :| 0 <= s < |calls| && x in Orbit(calls[s]) && t(x) == Integral(basis, integrate, calls[s]);
        assert calls'[s] == calls[s];
      }
    }
  }

  /** The calls, extended by q, are still in loop order and before the next cursor. */
  lemma OrderStep(calls: seq<Quad>, n: nat, q: Quad)
    requires InRange(q, n) && CallsBefore(calls, n, q) && Increasing(calls)
    ensures CallsBefore(calls + [q], n, Next(q)) && Increasing(calls + [q])
  {
    var calls' := calls + [q];
    forall s | 0 <= s < |calls'| ensures InRange(calls'[s], n) && Before(calls'[s], Next(q)) {
      if s < |calls| {
        assert calls'[s] == calls[s];
      }
    }
    forall s1, s2 | 0 <= s1 < s2 < |calls'| ensures Before(calls'[s1], calls'[s2]) {
      assert calls'[s1] == calls[s1];
    }
  }

  lemma DistinctStep(calls: seq<Quad>, q: Quad)
    requires OrbitsDistinct(calls)
    requires forall s :: 0 <= s < |calls| ==> q !in Orbit(calls[s])
    ensures OrbitsDistinct(calls + [q])
  {
    var calls' := calls + [q];
    forall s1, s2 | 0 <= s1 < s2 < |calls'| ensures calls'[s2] !in Orbit(calls'[s1]) {
      if s2 < |calls| {
        assert calls'[s1] == calls[s1] && calls'[s2] == calls[s2];
      }
    }
  }

  /** Under a never-zero integrator the earlier calls keep their values and q's call holds its own. */
  lemma HoldStep(t: Values, basis: seq<Gaussian>, integrate: Repulsion -> real, calls: seq<Quad>, q: Quad)
    requires InRange(q, |basis|) && forall s :: 0 <= s < |calls| ==> InRange(calls[s], |basis|)
    requires CallsHold(t, basis, integrate, calls)
    requires forall s :: 0 <= s < |calls| ==> calls[s] !in Orbit(q)
    ensures CallsHold(Update(t, q, Integral(basis, integrate, q)), basis, integrate, calls + [q])
  {
    var t', calls' := Update(t, q, Integral(basis, integrate, q)), calls + [q];
    forall s | 0 <= s < |calls'| ensures t'(calls'[s]) == Integral(basis, integrate, calls'[s]) {
      if s < |calls| {
        assert calls'[s] == calls[s];
      }
    }
  }

  /** A zero entry whose earlier quadruples are all nonzero comes first in its orbit. */
  lemma LeaderStep(t: Values, n: nat, q: Quad)
    requires InRange(q, n) && t(q) == 0.0 && Symmetric(t, n) && VisitedNonzero(t, n, q)
    ensures Leader(q)
  {
    forall y | y in Orbit(q) ensures !Before(y, q) {
      OrbitEquivalence(q, y, y);
      assert InRange(y, n) && q in Orbit(y);
    }
  }

  lemma LeadersStep(calls: seq<Quad>, q: Quad)
    requires (forall s :: 0 <= s < |calls| ==> Leader(calls[s])) && Leader(q)
    ensures forall s :: 0 <= s < |calls + [q]| ==> Leader((calls + [q])[s])
  {
    forall s | 0 <= s < |calls + [q]| ensures Leader((calls + [q])[s]) {
      if s < |calls| {
        assert (calls + [q])[s] == calls[s];
      }
    }
  }

  /** Under a never-zero integrator, q joins the nonzero visited prefix. */
  lemma VisitedStep(t: Values, basis: seq<Gaussian>, integrate: Repulsion -> real, q: Quad)
    requires InRange(q, |basis|) && NeverZero(basis, integrate) && VisitedNonzero(t, |basis|, q)
    ensures VisitedNonzero(Update(t, q, Integral(basis, integrate, q)), |basis|, Next(q))
  {
    var t' := Update(t, q, Integral(basis, integrate, q));
    forall x | InRange(x, |basis|) && Before(x, Next(q)) ensures t'(x) != 0.0 {
      BeforeNext(x, q);
    }
  }

  /**
   * The integrating branch keeps the invariant: with q's entry 0, writing
   * q's integral to its orbit and recording the call moves the cursor on.
   */
  lemma StoreStep(t: Values, basis: seq<Gaussian>, integrate: Repulsion -> real, calls: seq<Quad>, q: Quad, nz: bool)
    requires nz ==> NeverZero(basis, integrate)
    requires InRange(q, |basis|) && Inv(t, basis, integrate, calls, q, nz) && t(q) == 0.0
    ensures Inv(Update(t, q, Integral(basis, integrate, q)), basis, integrate, calls + [q], Next(q), nz)
  {
    var v := Integral(basis, integrate, q);
    SymmetricUpdate(t, |basis|, q, v);
    OrderStep(calls, |basis|, q);
    SourcedStep(t, basis, integrate, calls, q);
    if nz {
      SettledStep(t, basis, integrate, calls, q);
    }
  }

  /** Under a never-zero integrator, the integrating branch keeps the calls settled. */
  lemma SettledStep(t: Values, basis: seq<Gaussian>, integrate: Repulsion -> real, calls: seq<Quad>, q: Quad)
    requires InRange(q, |basis|) && t(q) == 0.0 && Symmetric(t, |basis|) && NeverZero(basis, integrate)
    requires forall s :: 0 <= s < |calls| ==> InRange(calls[s], |basis|)
    requires Settled(t, basis, integrate, calls, q)
    ensures Settled(Update(t, q, Integral(basis, integrate, q)), basis, integrate, calls + [q], Next(q))
  {
    FreshOrbit(t, basis, integrate, calls, q);
    DistinctStep(calls, q);
    HoldStep(t, basis, integrate, calls, q);
    LeaderStep(t, |basis|, q);
    LeadersStep(calls, q);
    VisitedStep(t, basis, integrate, q);
  }

  /** Two cursors with the same in-range predecessors carry the same invariant. */
  lemma CursorShift(t: Values, basis: seq<Gaussian>, integrate: Repulsion -> real, calls: seq<Quad>, c1: Quad, c2: Quad, nz: bool)
    requires Inv(t, basis, integrate, calls, c1, nz)
    requires forall x :: InRange(x, |basis|) ==> (Before(x, c1) <==> Before(x, c2))
    ensures Inv(t, basis, integrate, calls, c2, nz)
  {}

  /**
   * The carries of the nested loops: the cursor past the end of one loop is
   * the start of the next iteration of the loop around it.
   */
  predicate Carry(c1: Quad, c2: Quad, n: nat) {
    || (c1.l == n && c2 == Quad(c1.i, c1.j, c1.k + 1, 0))
    || (c1.k == n && c1.l == 0 && c2 == Quad(c1.i, c1.j + 1, 0, 0))
    || (c1.j == n && c1.k == 0 && c1.l == 0 && c2 == Quad(c1.i + 1, 0, 0, 0))
  }

  /** A carry keeps the invariant. */
  lemma CarryStep(t: Values, basis: seq<Gaussian>, integrate: Repulsion -> real, calls: seq<Quad>, c1: Quad, c2: Quad, nz: bool)
    requires Inv(t, basis, integrate, calls, c1, nz) && Carry(c1, c2, |basis|)
    ensures Inv(t, basis, integrate, calls, c2, nz)
  {
    CursorShift(t, basis, integrate, calls, c1, c2, nz);
  }

  /** The all-zero tensor before the first quadruple satisfies the invariant, with no calls. */
  lemma Start(basis: seq<Gaussian>, integrate: Repulsion -> real, nz: bool)
    ensures Inv(_ => 0.0, basis, integrate, [], Quad(0, 0, 0, 0), nz)
  {}

  /** Writes v to the eight positions of q's orbit, in the builder's order. */
  method WriteOrbit(m: array4<real>, n: nat, q: Quad, v: real)
    requires Cube(m, n) && InRange(q, n)
    modifies m
    ensures forall a, b, c, d :: 0 <= a < n && 0 <= b < n && 0 <= c < n && 0 <= d < n ==>
      m[a, b, c, d] == if Quad(a, b, c, d) in Orbit(q) then v else old(m[a, b, c, d])
  {
    var i, j, k, l := q.i, q.j, q.k, q.l;
    m[i, j, k, l] := v;
    m[j, i, k, l] := m[i, j, k, l];
    m[i, j, l, k] := m[i, j, k, l];
    m[j, i, l, k] := m[i, j, k, l];
    m[k, l, i, j] := m[i, j, k, l];
    m[l, k, i, j] := m[i, j, k, l];
    m[k, l, j, i] := m[i, j, k, l];
    m[l, k, j, i] := m[i, j, k, l];
  }

  /**
   * One iteration of the innermost loop at quadruple q: if mnls[q] is 0,
   * integrate q and write the value to its whole orbit; otherwise leave the
   * tensor alone.
   */
  method Visit(m: array4<real>, basis: seq<Gaussian>, integrate: Repulsion -> real, q: Quad,
               ghost t: Values, ghost calls: seq<Quad>, ghost nz: bool)
    returns (ghost t': Values, ghost calls': seq<Quad>)
    requires nz ==> NeverZero(basis, integrate)
    requires InRange(q, |basis|) && Holds(m, t, |basis|) && Inv(t, basis, integrate, calls, q, nz)
    modifies m
    ensures Holds(m, t', |basis|) && Inv(t', basis, integrate, calls', Next(q), nz)
    ensures t(q) == 0.0 ==> t' == Update(t, q, Integral(basis, integrate, q)) && calls' == calls + [q]
    ensures t(q) != 0.0 ==> t' == t && calls' == calls
    ensures forall x :: InRange(x, |basis|) && t(x) != 0.0 ==> t'(x) == t(x)
  {
    var n := |basis|;
    if m[q.i, q.j, q.k, q.l] != 0.0 {
      t', calls' := t, calls;
      SkipStep(t, basis, integrate, calls, q, nz);
      return;
    }
    var v := integrate(Repulsion(basis[q.i], basis[q.j], basis[q.k], basis[q.l]));
    WriteOrbit(m, n, q, v);
    t', calls' := Update(t, q, v), calls + [q];
    StoreStep(t, basis, integrate, calls, q, nz);
    forall x | InRange(x, n) && t(x) != 0.0 ensures t'(x) == t(x) {
      assert x in Orbit(q) ==> t(x) == t(q);
    }
  }

  /** Every in-range quadruple is before the cursor past the last one. */
  lemma PastEnd(x: Quad, n: nat)
    requires InRange(x, n)
    ensures Before(x, Quad(n, 0, 0, 0))
  {}

  /** Two leaders of the same orbit are the same quadruple. */
  lemma LeaderUnique(x: Quad, y: Quad)
    requires Leader(x) && Leader(y) && x in Orbit(y)
    ensures x == y
  {
    OrbitEquivalence(y, x, x);
  }

  /**
   * After the loops, under a never-zero integrator: every entry is nonzero,
   * and a quadruple was integrated exactly when it comes first in its orbit.
   */
  lemma Finished(t: Values, basis: seq<Gaussian>, integrate: Repulsion -> real, calls: seq<Quad>)
    requires Inv(t, basis, integrate, calls, Quad(|basis|, 0, 0, 0), true) && NeverZero(basis, integrate)
    ensures forall x :: InRange(x, |basis|) ==> t(x) != 0.0
    ensures forall x :: InRange(x, |basis|) ==> (x in calls <==> Leader(x))
  {
    var n := |basis|;
    forall x | InRange(x, n) ensures t(x) != 0.0 {
      PastEnd(x, n);
    }
    forall x | InRange(x, n) ensures x in calls <==> Leader(x) {
      if Leader(x) {
        PastEnd(x, n);
        assert SourcedAt(t, basis, integrate, calls, x);
        var s :| 0 <= s < |calls| && x in Orbit(calls[s]) && t(x) == Integral(basis, integrate, calls[s]);
        LeaderUnique(x, calls[s]);
      }
    }
  }

  /** Sourced, read through the array. */
  lemma SourcedEntries(m: array4<real>, t: Values, basis: seq<Gaussian>, integrate: Repulsion -> real, calls: seq<Quad>)
    requires Holds(m, t, |basis|) && forall s :: 0 <= s < |calls| ==> InRange(calls[s], |basis|)
    requires Sourced(t, basis, integrate, calls)
    ensures forall a, b, c, d ::
      0 <= a < |basis| && 0 <= b < |basis| && 0 <= c < |basis| && 0 <= d < |basis| && m[a, b, c, d] != 0.0 ==>
        exists s :: 0 <= s < |calls| && Quad(a, b, c, d) in Orbit(calls[s])
                    && m[a, b, c, d] == Integral(basis, integrate, calls[s])
  {
    forall a, b, c, d | 0 <= a < |basis| && 0 <= b < |basis| && 0 <= c < |basis| && 0 <= d < |basis| &&
                        m[a, b, c, d] != 0.0
      ensures exists s :: 0 <= s < |calls| && Quad(a, b, c, d) in Orbit(calls[s])
                          && m[a, b, c, d] == Integral(basis, integrate, calls[s])
    {
      assert SourcedAt(t, basis, integrate, calls, Quad(a, b, c, d));
    }
  }

  /** The never-zero conclusions, read through the array. */
  lemma FinishedEntries(m: array4<real>, t: Values, basis: seq<Gaussian>, integrate: Repulsion -> real, calls: seq<Quad>)
    requires Holds(m, t, |basis|) && forall s :: 0 <= s < |calls| ==> InRange(calls[s], |basis|)
    requires CallsHold(t, basis, integrate, calls)
    requires forall x :: InRange(x, |basis|) ==> t(x) != 0.0
    ensures forall s :: 0 <= s < |calls| ==>
      m[calls[s].i, calls[s].j, calls[s].k, calls[s].l] == Integral(basis, integrate, calls[s])
    ensures forall a, b, c, d :: 0 <= a < |basis| && 0 <= b < |basis| && 0 <= c < |basis| && 0 <= d < |basis| ==>
      m[a, b, c, d] != 0.0
  {
    forall s | 0 <= s < |calls|
      ensures m[calls[s].i, calls[s].j, calls[s].k, calls[s].l] == Integral(basis, integrate, calls[s])
    {
      var x := calls[s];
      assert m[x.i, x.j, x.k, x.l] == t(Quad(x.i, x.j, x.k, x.l)) == t(x);
    }
    forall a, b, c, d | 0 <= a < |basis| && 0 <= b < |basis| && 0 <= c < |basis| && 0 <= d < |basis|
      ensures m[a, b, c, d] != 0.0
    {
      assert t(Quad(a, b, c, d)) != 0.0;
    }
  }

  /** What the invariant past the last quadruple says about the array. */
  lemma Conclude(m: array4<real>, t: Values, basis: seq<Gaussian>, integrate: Repulsion -> real, calls: seq<Quad>,
                  nz: bool)
    requires nz == NeverZero(basis, integrate)
    requires Holds(m, t, |basis|) && Inv(t, basis, integrate, calls, Quad(|basis|, 0, 0, 0), nz)
    ensures IsPermutationSymmetric(TensorOf(m))
    ensures forall s :: 0 <= s < |calls| ==> InRange(calls[s], |basis|)
    ensures Increasing(calls)
    ensures forall a, b, c, d ::
      0 <= a < |basis| && 0 <= b < |basis| && 0 <= c < |basis| && 0 <= d < |basis| && m[a, b, c, d] != 0.0 ==>
        exists s :: 0 <= s < |calls| && Quad(a, b, c, d) in Orbit(calls[s])
                    && m[a, b, c, d] == Integral(basis, integrate, calls[s])
    ensures NeverZero(basis, integrate) ==>
      && OrbitsDistinct(calls)
      && (forall s :: 0 <= s < |calls| ==>
            InRange(calls[s], |basis|) && m[calls[s].i, calls[s].j, calls[s].k, calls[s].l] == Integral(basis, integrate, calls[s]))
      && (forall a, b, c, d :: 0 <= a < |basis| && 0 <= b < |basis| && 0 <= c < |basis| && 0 <= d < |basis| ==>
            m[a, b, c, d] != 0.0)
      && (forall x :: InRange(x, |basis|) ==> (x in calls <==> Leader(x)))
  {
    SymmetricTensor(m, t, |basis|);
    SourcedEntries(m, t, basis, integrate, calls);
    if nz {
      Finished(t, basis, integrate, calls);
      FinishedEntries(m, t, basis, integrate, calls);
    }
  }

  /**
   * The loops of TwoElectronIntegrals._calculate_self over a basis: an
   * L x L x L x L tensor of zeros, then the four nested loops in
   * lexicographic order, integrating each quadruple whose entry is still 0
   * and writing the value to its orbit.
   *
   * Whatever the integrator: the tensor is invariant under the eight index
   * permutations, every integration was for an in-range quadruple, the calls
   * come in strictly increasing loop order (no quadruple is integrated
   * twice), and every nonzero entry is the integral of a call in its orbit.
   * When the integrator never returns exactly 0: every entry is nonzero, no
   * two calls share an orbit, every call still holds its integral, and the
   * integrated quadruples are exactly those that come first in their orbit.
   */
  method Build(basis: seq<Gaussian>, integrate: Repulsion -> real)
    returns (mnls: array4<real>, ghost calls: seq<Quad>)
    ensures fresh(mnls)
    ensures Cube(mnls, |basis|)
    ensures IsPermutationSymmetric(TensorOf(mnls))
    ensures forall s :: 0 <= s < |calls| ==> InRange(calls[s], |basis|)
    ensures Increasing(calls)
    ensures forall a, b, c, d ::
      0 <= a < |basis| && 0 <= b < |basis| && 0 <= c < |basis| && 0 <= d < |basis| && mnls[a, b, c, d] != 0.0 ==>
        exists s :: 0 <= s < |calls| && Quad(a, b, c, d) in Orbit(calls[s])
                    && mnls[a, b, c, d] == Integral(basis, integrate, calls[s])
    ensures NeverZero(basis, integrate) ==>
      && OrbitsDistinct(calls)
      && (forall s :: 0 <= s < |calls| ==>
            InRange(calls[s], |basis|) && mnls[calls[s].i, calls[s].j, calls[s].k, calls[s].l] == Integral(basis, integrate, calls[s]))
      && (forall a, b, c, d :: 0 <= a < |basis| && 0 <= b < |basis| && 0 <= c < |basis| && 0 <= d < |basis| ==>
            mnls[a, b, c, d] != 0.0)
      && (forall x :: InRange(x, |basis|) ==> (x in calls <==> Leader(x)))
  {
    var n := |basis|;
    mnls := new real[n, n, n, n]((_, _, _, _) => 0.0);
    ghost var t: Values := _ => 0.0;
    ghost var nz := NeverZero(basis, integrate);
    calls := [];
    Start(basis, integrate, nz);
    for i := 0 to n
      invariant Holds(mnls, t, n) && Inv(t, basis, integrate, calls, Quad(i, 0, 0, 0), nz)
    {
      for j := 0 to n
        invariant Holds(mnls, t, n) && Inv(t, basis, integrate, calls, Quad(i, j, 0, 0), nz)
      {
        for k := 0 to n
          invariant Holds(mnls, t, n) && Inv(t, basis, integrate, calls, Quad(i, j, k, 0), nz)
        {
          for l := 0 to n
            invariant Holds(mnls, t, n) && Inv(t, basis, integrate, calls, Quad(i, j, k, l), nz)
          {
            t, calls := Visit(mnls, basis, integrate, Quad(i, j, k, l), t, calls, nz);
            assert Next(Quad(i, j, k, l)) == Quad(i, j, k, l + 1);
          }
          CarryStep(t, basis, integrate, calls, Quad(i, j, k, n), Quad(i, j, k + 1, 0), nz);
        }
        CarryStep(t, basis, integrate, calls, Quad(i, j, n, 0), Quad(i, j + 1, 0, 0), nz);
      }
      CarryStep(t, basis, integrate, calls, Quad(i, n, 0, 0), Quad(i + 1, 0, 0, 0), nz);
    }
    Conclude(mnls, t, basis, integrate, calls, nz);
  }

  /**
   * The values a two-electron tensor over `basis` may hold: every nonzero
   * entry is the integral of a quadruple in its own orbit, and, when the
   * integrator never returns 0, no entry is zero and every quadruple that
   * comes first in its orbit holds its own integral.
   */
  ghost predicate IntegralsOf(T: Tensor, basis: seq<Gaussian>, integrate: Repulsion -> real) {
    && IsTensor(T, |basis|)
    && (forall a, b, c, d ::
          0 <= a < |basis| && 0 <= b < |basis| && 0 <= c < |basis| && 0 <= d < |basis| && T[a][b][c][d] != 0.0 ==>
            exists q :: InRange(q, |basis|) && Quad(a, b, c, d) in Orbit(q) && T[a][b][c][d] == Integral(basis, integrate, q))
    && (NeverZero(basis, integrate) ==>
          forall q :: InRange(q, |basis|) ==>
            && T[q.i][q.j][q.k][q.l] != 0.0
            && (Leader(q) ==> T[q.i][q.j][q.k][q.l] == Integral(basis, integrate, q)))
  }

  /** Build's conclusions about the array, read as the values of its tensor. */
  lemma TensorIntegrals(m: array4<real>, basis: seq<Gaussian>, integrate: Repulsion -> real, calls: seq<Quad>)
    requires Cube(m, |basis|)
    requires forall s :: 0 <= s < |calls| ==> InRange(calls[s], |basis|)
    requires forall a, b, c, d ::
      0 <= a < |basis| && 0 <= b < |basis| && 0 <= c < |basis| && 0 <= d < |basis| && m[a, b, c, d] != 0.0 ==>
        exists s :: 0 <= s < |calls| && Quad(a, b, c, d) in Orbit(calls[s])
                    && m[a, b, c, d] == Integral(basis, integrate, calls[s])
    requires NeverZero(basis, integrate) ==>
      && (forall s :: 0 <= s < |calls| ==>
            InRange(calls[s], |basis|) && m[calls[s].i, calls[s].j, calls[s].k, calls[s].l] == Integral(basis, integrate, calls[s]))
      && (forall a, b, c, d :: 0 <= a < |basis| && 0 <= b < |basis| && 0 <= c < |basis| && 0 <= d < |basis| ==>
            m[a, b, c, d] != 0.0)
      && (forall x :: InRange(x, |basis|) ==> (x in calls <==> Leader(x)))
    ensures IntegralsOf(TensorOf(m), basis, integrate)
  {
    var n := |basis|;
    var T := TensorOf(m);
    forall a, b, c, d | 0 <= a < n && 0 <= b < n && 0 <= c < n && 0 <= d < n && T[a][b][c][d] != 0.0
      ensures exists q :: InRange(q, n) && Quad(a, b, c, d) in Orbit(q) && T[a][b][c][d] == Integral(basis, integrate, q)
    {
      var s :| 0 <= s < |calls| && Quad(a, b, c, d) in Orbit(calls[s]) && m[a, b, c, d] == Integral(basis, integrate, calls[s]);
      assert InRange(calls[s], n);
    }
    if NeverZero(basis, integrate) {
      forall q | InRange(q, n)
        ensures T[q.i][q.j][q.k][q.l] != 0.0
        ensures Leader(q) ==> T[q.i][q.j][q.k][q.l] == Integral(basis, integrate, q)
      {
        assert m[q.i, q.j, q.k, q.l] != 0.0;
        if Leader(q) {
          assert q in calls;
          var s :| 0 <= s < |calls| && calls[s] == q;
        }
      }
    }
  }

  /**
   * TwoElectronIntegrals._calculate_self: Build over the basis functions, in
   * iteration order, with all of Build's conclusions; the resulting tensor
   * holds integrals of the basis set.
   */
  method CalculateSelf(basis: GaussianBasis, integrate: Repulsion -> real)
    returns (mnls: array4<real>, ghost calls: seq<Quad>)
    ensures Cube(mnls, |basis.basisSet|)
    ensures IsPermutationSymmetric(TensorOf(mnls))
    ensures IntegralsOf(TensorOf(mnls), basis.basisSet, integrate)
    ensures forall s :: 0 <= s < |calls| ==> InRange(calls[s], |basis.basisSet|)
    ensures Increasing(calls)
    ensures forall a, b, c, d ::
      (0 <= a < |basis.basisSet| && 0 <= b < |basis.basisSet| && 0 <= c < |basis.basisSet| && 0 <= d < |basis.basisSet|
       && mnls[a, b, c, d] != 0.0) ==>
        exists s :: 0 <= s < |calls| && Quad(a, b, c, d) in Orbit(calls[s])
                    && mnls[a, b, c, d] == Integral(basis.basisSet, integrate, calls[s])
    ensures NeverZero(basis.basisSet, integrate) ==>
      && OrbitsDistinct(calls)
      && (forall s :: 0 <= s < |calls| ==>
            InRange(calls[s], |basis.basisSet|)
            && mnls[calls[s].i, calls[s].j, calls[s].k, calls[s].l] == Integral(basis.basisSet, integrate, calls[s]))
      && (forall a, b, c, d ::
            0 <= a < |basis.basisSet| && 0 <= b < |basis.basisSet| && 0 <= c < |basis.basisSet| && 0 <= d < |basis.basisSet| ==>
              mnls[a, b, c, d] != 0.0)
      && (forall x :: InRange(x, |basis.basisSet|) ==> (x in calls <==> Leader(x)))
  {
    mnls, calls := Build(basis.basisSet, integrate);
    TensorIntegrals(mnls, basis.basisSet, integrate, calls);
  }
}
