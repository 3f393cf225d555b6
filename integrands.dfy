/**
 * The integrands the matrix builders hand to the integrators, described as
 * data instead of Python closures.
 *
 * A three-dimensional integrand is a `Field`: an expression tree over the
 * basis functions, the finite-difference Laplacian of the kinetic builder
 * and the nuclear Coulomb potential. A six-dimensional integrand is a
 * `Repulsion`: the four basis functions of an electron-repulsion integral.
 * An integrator is then any function from these descriptions to `real`;
 * Monte Carlo sampling stays outside the model.
 *
 * `Eval` gives a field's pointwise value in terms of the two kernels the
 * model does not compute, a Gaussian's value at a point and the inverse
 * distance between two points.
 */
module Integrands {
  import opened Molecules
  import opened Basis

  /** KineticEnergy.dx == dy == dz: the step of the finite-difference Laplacian. */
  const Step: real := 0.00001

  /** A nucleus seen as a point charge: the potential term is -charge / |r - position|. */
  datatype PointCharge = PointCharge(charge: real, position: Vec3)

  datatype Field =
    | Orbital(g: Gaussian)
    | Laplacian(f: Field)
    | NuclearPotential(charges: seq<PointCharge>)
    | Scale(c: real, f: Field)
    | Product(left: Field, right: Field)

  /** The six-dimensional integrand base_i(r1) base_j(r1) / |r1 - r2| base_k(r2) base_l(r2). */
  datatype Repulsion = Repulsion(bi: Gaussian, bj: Gaussian, bk: Gaussian, bl: Gaussian)

  /** The floating-point kernels: N exp(-alpha |r - R|^2) and 1 / |r - r'|. */
  datatype Kernels = Kernels(gauss: (Gaussian, Vec3) -> real, inverseDistance: (Vec3, Vec3) -> real)

  function Plus(a: Vec3, b: Vec3): Vec3 {
    Vec3(a.x + b.x, a.y + b.y, a.z + b.z)
  }

  function Minus(a: Vec3, b: Vec3): Vec3 {
    Vec3(a.x - b.x, a.y - b.y, a.z - b.z)
  }

  /** The potential of one point charge at r: -charge / |r - position|. */
  function ChargeTerm(charge: real, position: Vec3, r: Vec3, inverseDistance: (Vec3, Vec3) -> real): real {
    -charge * inverseDistance(r, position)
  }

  /** The Python sum over nuclei, one term per point charge, in order. */
  function PotentialAt(charges: seq<PointCharge>, r: Vec3, inverseDistance: (Vec3, Vec3) -> real): real {
    if |charges| == 0 then 0.0
    else ChargeTerm(charges[0].charge, charges[0].position, r, inverseDistance)
         + PotentialAt(charges[1..], r, inverseDistance)
  }

  /** Pointwise value of a field. */
  function Eval(f: Field, r: Vec3, k: Kernels): real {
    match f
    case Orbital(g) => k.gauss(g, r)
    case Laplacian(h) =>
      var dx, dy, dz := Vec3(Step, 0.0, 0.0), Vec3(0.0, Step, 0.0), Vec3(0.0, 0.0, Step);
      (Eval(h, Plus(r, dx), k) - 2.0 * Eval(h, r, k) + Eval(h, Minus(r, dx), k)) / (Step * Step)
      + (Eval(h, Plus(r, dy), k) - 2.0 * Eval(h, r, k) + Eval(h, Minus(r, dy), k)) / (Step * Step)
      + (Eval(h, Plus(r, dz), k) - 2.0 * Eval(h, r, k) + Eval(h, Minus(r, dz), k)) / (Step * Step)
    case NuclearPotential(charges) => PotentialAt(charges, r, k.inverseDistance)
    case Scale(c, h) => c * Eval(h, r, k)
    case Product(a, b) => Eval(a, r, k) * Eval(b, r, k)
  }

  /** Pointwise value of a repulsion integrand at (r1, r2). */
  function EvalRepulsion(q: Repulsion, r1: Vec3, r2: Vec3, k: Kernels): real {
    k.gauss(q.bi, r1) * k.gauss(q.bj, r1) * k.inverseDistance(r1, r2) * k.gauss(q.bk, r2) * k.gauss(q.bl, r2)
  }

  /** Overlap._integrand: base_i * base_j. */
  function OverlapIntegrand(bi: Gaussian, bj: Gaussian): Field {
    Product(Orbital(bi), Orbital(bj))
  }

  /** KineticEnergy._integrand: -0.5 * base_i * laplacian(base_j). */
  function KineticIntegrand(bi: Gaussian, bj: Gaussian): Field {
    Product(Scale(-0.5, Orbital(bi)), Laplacian(Orbital(bj)))
  }

  /** NuclearAttraction._integrand: base_i * V_nuclear * base_j. */
  function NuclearIntegrand(charges: seq<PointCharge>, bi: Gaussian, bj: Gaussian): Field {
    Product(Product(Orbital(bi), NuclearPotential(charges)), Orbital(bj))
  }

  /** The nuclear integrand with the molecule's charges fixed, as the builder's kernel. */
  function NuclearKernel(charges: seq<PointCharge>): (Gaussian, Gaussian) -> Field {
    (bi, bj) => NuclearIntegrand(charges, bi, bj)
  }

  /**
   * nuclear_coulomb_potential: one point charge per entry of atomic_numbers,
   * the a-th built from atomic_numbers[a] and nuclei_positions[a] only.
   */
  function CoulombPotential(m: Molecule): (charges: seq<PointCharge>)
    requires |m.atomicNumbers| <= |m.nucleiPositions|
    ensures |charges| == |m.atomicNumbers|
    ensures forall a :: 0 <= a < |charges| ==>
      charges[a] == PointCharge(m.atomicNumbers[a] as real, m.nucleiPositions[a])
  {
    seq(|m.atomicNumbers|, a requires 0 <= a < |m.atomicNumbers| =>
      PointCharge(m.atomicNumbers[a] as real, m.nucleiPositions[a]))
  }

  /** The potential of a union of charge sets is the sum of their potentials. */
  lemma {:induction false} PotentialAppend(a: seq<PointCharge>, b: seq<PointCharge>, r: Vec3,
                                           inverseDistance: (Vec3, Vec3) -> real)
    ensures PotentialAt(a + b, r, inverseDistance)
         == PotentialAt(a, r, inverseDistance) + PotentialAt(b, r, inverseDistance)
  {
    if |a| > 0 {
      assert (a + b)[1..] == a[1..] + b;
      PotentialAppend(a[1..], b, r, inverseDistance);
    } else {
      assert a + b == b;
    }
  }

  /**
   * The potential is the sum over nuclei of -Z_a / |r - R_a|: the term of
   * nucleus a uses atomic_numbers[a] and nuclei_positions[a] and nothing else.
   */
  lemma {:induction false} PotentialIsSumOverNuclei(m: Molecule, r: Vec3, inverseDistance: (Vec3, Vec3) -> real)
    requires |m.atomicNumbers| <= |m.nucleiPositions|
    ensures PotentialAt(CoulombPotential(m), r, inverseDistance)
         == NucleusSum(m.atomicNumbers, m.nucleiPositions, r, inverseDistance, |m.atomicNumbers|)
  {
    PrefixSum(m, r, inverseDistance, |m.atomicNumbers|);
    assert CoulombPotential(m)[..|m.atomicNumbers|] == CoulombPotential(m);
  }

  /** Σ_{a < n} -Z_a * inverseDistance(r, R_a), summed nucleus by nucleus. */
  function NucleusSum(z: seq<int>, positions: seq<Vec3>, r: Vec3, inverseDistance: (Vec3, Vec3) -> real, n: nat): real
    requires n <= |z| && n <= |positions|
  {
    if n == 0 then 0.0
    else NucleusSum(z, positions, r, inverseDistance, n - 1) + ChargeTerm(z[n - 1] as real, positions[n - 1], r, inverseDistance)
  }

  lemma {:induction false} PrefixSum(m: Molecule, r: Vec3, inverseDistance: (Vec3, Vec3) -> real, n: nat)
    requires |m.atomicNumbers| <= |m.nucleiPositions| && n <= |m.atomicNumbers|
    ensures PotentialAt(CoulombPotential(m)[..n], r, inverseDistance)
         == NucleusSum(m.atomicNumbers, m.nucleiPositions, r, inverseDistance, n)
  {
    var c := CoulombPotential(m);
    if n > 0 {
      PrefixSum(m, r, inverseDistance, n - 1);
      assert c[..n] == c[..n - 1] + [c[n - 1]];
      PotentialAppend(c[..n - 1], [c[n - 1]], r, inverseDistance);
      assert PotentialAt([c[n - 1]], r, inverseDistance) == ChargeTerm(c[n - 1].charge, c[n - 1].position, r, inverseDistance);
    }
  }

  /** The overlap integrand is the pointwise product of the two basis functions. */
  lemma OverlapIntegrandValue(bi: Gaussian, bj: Gaussian, r: Vec3, k: Kernels)
    ensures Eval(OverlapIntegrand(bi, bj), r, k) == k.gauss(bi, r) * k.gauss(bj, r)
  {}

  /**
   * The kinetic integrand is -1/2 base_i times the seven-point stencil
   * Laplacian of base_j: the Laplacian acts on the second function only.
   */
  lemma KineticIntegrandValue(bi: Gaussian, bj: Gaussian, r: Vec3, k: Kernels)
    ensures Eval(KineticIntegrand(bi, bj), r, k)
         == -0.5 * k.gauss(bi, r) * StencilLaplacian(bj, r, k)
  {
    assert Eval(Scale(-0.5, Orbital(bi)), r, k) == -0.5 * k.gauss(bi, r);
    assert Eval(Laplacian(Orbital(bj)), r, k) == StencilLaplacian(bj, r, k);
  }

  /** The Laplacian stencil applied to one basis function. */
  function StencilLaplacian(g: Gaussian, r: Vec3, k: Kernels): real {
    var dx, dy, dz := Vec3(Step, 0.0, 0.0), Vec3(0.0, Step, 0.0), Vec3(0.0, 0.0, Step);
    (k.gauss(g, Plus(r, dx)) - 2.0 * k.gauss(g, r) + k.gauss(g, Minus(r, dx))) / (Step * Step)
    + (k.gauss(g, Plus(r, dy)) - 2.0 * k.gauss(g, r) + k.gauss(g, Minus(r, dy))) / (Step * Step)
    + (k.gauss(g, Plus(r, dz)) - 2.0 * k.gauss(g, r) + k.gauss(g, Minus(r, dz))) / (Step * Step)
  }

  /** The nuclear integrand is base_i(r) * V(r) * base_j(r) with V the sum over nuclei. */
  lemma NuclearIntegrandValue(m: Molecule, bi: Gaussian, bj: Gaussian, r: Vec3, k: Kernels)
    requires |m.atomicNumbers| <= |m.nucleiPositions|
    ensures Eval(NuclearKernel(CoulombPotential(m))(bi, bj), r, k)
         == k.gauss(bi, r) * NucleusSum(m.atomicNumbers, m.nucleiPositions, r, k.inverseDistance, |m.atomicNumbers|)
            * k.gauss(bj, r)
  {
    var charges := CoulombPotential(m);
    PotentialIsSumOverNuclei(m, r, k.inverseDistance);
    assert Eval(NuclearPotential(charges), r, k) == PotentialAt(charges, r, k.inverseDistance);
    assert Eval(Product(Orbital(bi), NuclearPotential(charges)), r, k)
        == k.gauss(bi, r) * PotentialAt(charges, r, k.inverseDistance);
  }
}
