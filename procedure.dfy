/**
 * The SCF driver (SCF_method/calculation/procedure.py): build the four
 * integral matrices from one basis object, hand them to the iterator, and
 * step it while its convergence criterion says to go on.
 *
 * The overlap builder renormalises the shared basis before the other three
 * builders run, so T, V_nuc and the two-electron tensor are integrals of the
 * renormalised functions. When that renormalisation fails (numpy's reshape
 * raising) the Python exception ends `calculate`; here it is the status
 * `ReshapeRaised`. The Python loop has no bound of its own, so the model
 * takes a `fuel` count of allowed steps.
 */
module Procedure {
  import opened Linalg
  import opened Basis
  import opened Molecules
  import opened Convergence
  import opened Integrands
  import opened PairMatrices
  import OverlapMatrix
  import KineticEnergyMatrix
  import NuclearAttractionMatrix
  import TwoElectronIntegralMatrix
  import opened CalculationIterator

  /** How `calculate` ended. */
  datatype Status =
    | Stopped          // the criterion returned False: the SCF calculation is returned
    | ReshapeRaised    // the overlap builder's renormalisation raised
    | FuelExhausted    // the model's step bound ran out before the criterion stopped

  class SelfConsistentFieldProcedure {
    const inputBasis: GaussianBasis
    const inputMolecule: Molecule
    const integrator3D: Field -> real
    const integrator6D: Repulsion -> real
    const convergenceConfig: ConvergenceConfig
    const numerics: Numerics

    constructor (inputBasis: GaussianBasis, inputMolecule: Molecule, integrator3D: Field -> real,
                 integrator6D: Repulsion -> real, convergenceConfig: ConvergenceConfig, numerics: Numerics)
      ensures this.inputBasis == inputBasis && this.inputMolecule == inputMolecule
      ensures this.integrator3D == integrator3D && this.integrator6D == integrator6D
      ensures this.convergenceConfig == convergenceConfig && this.numerics == numerics
    {
      this.inputBasis := inputBasis;
      this.inputMolecule := inputMolecule;
      this.integrator3D := integrator3D;
      this.integrator6D := integrator6D;
      this.convergenceConfig := convergenceConfig;
      this.numerics := numerics;
    }

    /**
     * Overlap(input_basis, integrator_3D).matrix: built from the basis as
     * given, which it renormalises, or raises. On success the basis holds
     * the table of reciprocal norms 1/sqrt(S_kk) of the raw overlap, in the
     * old table's shape, and its functions keep their exponents and centres.
     */
    method OverlapStep() returns (ok: bool, S: Matrix)
      requires inputBasis.Valid() && numerics.SqrtExact()
      requires forall k :: 0 <= k < |inputBasis.basisSet| ==>
        integrator3D(OverlapIntegrand(inputBasis.basisSet[k], inputBasis.basisSet[k])) > 0.0
      modifies inputBasis
      ensures inputBasis.Valid() && |inputBasis.basisSet| == |old(inputBasis.basisSet)|
      ensures ok <==> |old(inputBasis.basisSet)| == Size(old(inputBasis.normalizationFactors))
      ensures !ok ==> inputBasis.normalizationFactors == old(inputBasis.normalizationFactors)
      ensures ok ==> Renormalized(inputBasis.normalizationFactors, old(inputBasis.normalizationFactors),
                                  RawNorms(old(inputBasis.basisSet), integrator3D, numerics))
      ensures KeepsLayout(inputBasis.basisSet, old(inputBasis.basisSet))
      ensures ok ==> NormsAt(inputBasis, old(inputBasis.normalizationFactors), RawNorms(old(inputBasis.basisSet), integrator3D, numerics))
      ensures ok ==>
        && S == OverlapMatrix.Rescale(PairMatrix(old(inputBasis.basisSet), OverlapIntegrand, integrator3D),
                                      OverlapMatrix.Norms(PairMatrix(old(inputBasis.basisSet), OverlapIntegrand, integrator3D), numerics.sqrt))
        && IsSquare(S, |inputBasis.basisSet|) && IsSymmetric(S)
        && (forall i :: 0 <= i < |S| ==> S[i][i] == 1.0)
    {
      ghost var raw := PairMatrix(inputBasis.basisSet, OverlapIntegrand, integrator3D);
      var built, overlap, _, norms, _ := OverlapMatrix.CalculateSelf(inputBasis, integrator3D, numerics);
      ok := built;
      S := MatrixOf(overlap);
      if ok {
        assert norms == OverlapMatrix.Norms(raw, numerics.sqrt);
        UnitDiagonal(raw, norms, S);
        ReciprocalTable(inputBasis.normalizationFactors, old(inputBasis.normalizationFactors), norms);
      }
    }

    /**
     * KineticEnergy, NuclearAttraction and TwoElectronIntegral on the
     * (renormalised) basis: T and V_nuc are the pair fills of their
     * integrands, and the tensor is permutation-symmetric and holds
     * integrals of the 6D integrator over the basis functions.
     */
    method BasisIntegrals() returns (T: Matrix, VNuc: Matrix, mnls: Tensor)
      requires |inputMolecule.atomicNumbers| <= |inputMolecule.nucleiPositions|
      ensures T == PairMatrix(inputBasis.basisSet, KineticIntegrand, integrator3D)
      ensures VNuc == PairMatrix(inputBasis.basisSet, NuclearKernel(CoulombPotential(inputMolecule)), integrator3D)
      ensures IsTensor(mnls, |inputBasis.basisSet|) && IsPermutationSymmetric(mnls)
      ensures TwoElectronIntegralMatrix.IntegralsOf(mnls, inputBasis.basisSet, integrator6D)
    {
      var kinetic, _ := KineticEnergyMatrix.CalculateSelf(inputBasis, integrator3D);
      var nuclear, _ := NuclearAttractionMatrix.CalculateSelf(inputMolecule, inputBasis, integrator3D);
      var repulsion, _ := TwoElectronIntegralMatrix.CalculateSelf(inputBasis, integrator6D);
      T, VNuc, mnls := MatrixOf(kinetic), MatrixOf(nuclear), TensorOf(repulsion);
    }

    /**
     * calculate. On a normal end the basis holds the reciprocal norms of
     * the raw overlap, and the returned iterator holds the overlap matrix
     * with unit diagonal built from the basis as given, and T, V_nuc and
     * the permutation-symmetric two-electron tensor of the 6D integrator
     * built from the renormalised basis; its state is consistent and its Fock matrix
     * symmetric; and it stopped because the density converged or because
     * the counter reached max_iteration.
     */
    method Calculate(fuel: nat) returns (status: Status, scf: SelfConsistentFieldCalculation?)
      requires inputBasis.Valid()
      requires numerics.SqrtExact() && numerics.EigShaped()
      requires forall k :: 0 <= k < |inputBasis.basisSet| ==>
        integrator3D(OverlapIntegrand(inputBasis.basisSet[k], inputBasis.basisSet[k])) > 0.0
      requires |inputMolecule.atomicNumbers| <= |inputMolecule.nucleiPositions|
      requires |inputBasis.basisSet| == 0 || Occupied(inputMolecule.numberOfElectrons) <= |inputBasis.basisSet|
      modifies inputBasis
      ensures inputBasis.Valid()
      ensures status == ReshapeRaised <==> |old(inputBasis.basisSet)| != Size(old(inputBasis.normalizationFactors))
      ensures status == ReshapeRaised ==>
        scf == null && inputBasis.normalizationFactors == old(inputBasis.normalizationFactors)
      ensures status != ReshapeRaised ==> scf != null && fresh(scf) && scf.Valid()
      ensures status != ReshapeRaised ==>
        Renormalized(inputBasis.normalizationFactors, old(inputBasis.normalizationFactors),
                     RawNorms(old(inputBasis.basisSet), integrator3D, numerics))
      ensures KeepsLayout(inputBasis.basisSet, old(inputBasis.basisSet))
      ensures status != ReshapeRaised ==>
        NormsAt(inputBasis, old(inputBasis.normalizationFactors), RawNorms(old(inputBasis.basisSet), integrator3D, numerics))
      ensures status != ReshapeRaised ==>
        && scf.N == inputMolecule.numberOfElectrons
        && scf.convergenceConfig == convergenceConfig
        && scf.S == OverlapMatrix.Rescale(PairMatrix(old(inputBasis.basisSet), OverlapIntegrand, integrator3D),
                                          OverlapMatrix.Norms(PairMatrix(old(inputBasis.basisSet), OverlapIntegrand, integrator3D), numerics.sqrt))
        && (forall i :: 0 <= i < |scf.S| ==> scf.S[i][i] == 1.0)
        && scf.T == PairMatrix(inputBasis.basisSet, KineticIntegrand, integrator3D)
        && scf.VNuc == PairMatrix(inputBasis.basisSet, NuclearKernel(CoulombPotential(inputMolecule)), integrator3D)
        && IsPermutationSymmetric(scf.mnls)
        && TwoElectronIntegralMatrix.IntegralsOf(scf.mnls, inputBasis.basisSet, integrator6D)
        && IsSymmetric(scf.F)
      ensures status == Stopped ==> Stopping(scf)
      ensures status != ReshapeRaised ==> Counted(scf)
      ensures 1 <= convergenceConfig.maxIteration <= fuel + 1 ==> status != FuelExhausted
    {
      var ok, S := OverlapStep();
      if !ok {
        return ReshapeRaised, null;
      }
      var T, VNuc, mnls := BasisIntegrals();
      scf := new SelfConsistentFieldCalculation(inputMolecule.numberOfElectrons, S, T, VNuc, mnls,
                                                convergenceConfig, numerics);
      status := Iterate(scf, fuel);
      FockOfValid(scf);
    }
  }

  /** np.sqrt(np.diag(S)) of the raw overlap matrix of a basis set: the norms the overlap builder divides by. */
  function RawNorms(basisSet: seq<Gaussian>, integrate: Field -> real, numerics: Numerics): seq<real> {
    OverlapMatrix.Norms(PairMatrix(basisSet, OverlapIntegrand, integrate), numerics.sqrt)
  }

  /**
   * The table has the shape of the previous one, and its entry [i][j] is the
   * reciprocal of the positive norm at row-major position i * cols + j.
   */
  ghost predicate Renormalized(factors: seq<seq<real>>, previous: seq<seq<real>>, norms: seq<real>) {
    && |factors| == |previous|
    && (forall i :: 0 <= i < |factors| ==> |factors[i]| == Cols(previous))
    && forall i, j :: 0 <= i < |previous| && 0 <= j < Cols(previous) ==>
         && Flat(i, j, Cols(previous)) < |norms|
         && norms[Flat(i, j, Cols(previous))] > 0.0
         && factors[i][j] * norms[Flat(i, j, Cols(previous))] == 1.0
  }

  /** The basis set has its old length, and every function its old exponent and centre. */
  ghost predicate KeepsLayout(basisSet: seq<Gaussian>, previous: seq<Gaussian>) {
    && |basisSet| == |previous|
    && forall k :: 0 <= k < |basisSet| ==> basisSet[k].alpha == previous[k].alpha && basisSet[k].center == previous[k].center
  }

  /**
   * When the old table had one column per exponent, the function of nucleus
   * i and exponent j has norm 1/n_k at its own nucleus-major index k.
   */
  ghost predicate NormsAt(basis: GaussianBasis, previous: seq<seq<real>>, norms: seq<real>)
    reads basis
  {
    Cols(previous) == |basis.alphas| ==>
      forall i, j :: 0 <= i < |basis.nucleiPositions| && 0 <= j < |basis.alphas| ==>
        && Flat(i, j, |basis.alphas|) < |norms| && Flat(i, j, |basis.alphas|) < |basis.basisSet|
        && norms[Flat(i, j, |basis.alphas|)] > 0.0
        && basis.basisSet[Flat(i, j, |basis.alphas|)].norm == 1.0 / norms[Flat(i, j, |basis.alphas|)]
  }

  /** The reshaped reciprocals of positive norms form a renormalised table. */
  lemma ReciprocalTable(factors: seq<seq<real>>, previous: seq<seq<real>>, norms: seq<real>)
    requires |norms| == Size(previous)
    requires forall k :: 0 <= k < |norms| ==> norms[k] > 0.0
    requires factors == Reshape(OverlapMatrix.Reciprocals(norms), |previous|, Cols(previous))
    ensures Renormalized(factors, previous, norms)
  {}

  /** The criterion's stopping condition: the density converged or the counter reached max_iteration. */
  ghost predicate Stopping(scf: SelfConsistentFieldCalculation)
    reads scf
  {
    && IsSquare(scf.P, |scf.PNew|) && IsSquare(scf.PNew, |scf.PNew|)
    && (Converged(scf.P, scf.PNew, scf.convergenceConfig.delta)
        || scf.iteration == Some(scf.convergenceConfig.maxIteration))
  }

  /** The counter has started and has not passed a positive max_iteration. */
  ghost predicate Counted(scf: SelfConsistentFieldCalculation)
    reads scf
  {
    && scf.iteration.Some? && scf.iteration.value >= 1
    && (scf.convergenceConfig.maxIteration >= 1 ==> scf.iteration.value <= scf.convergenceConfig.maxIteration)
  }

  /** The counter has started and is short of max_iteration (never reached when that is below 1). */
  ghost predicate MayStep(scf: SelfConsistentFieldCalculation)
    reads scf
  {
    && scf.iteration.Some? && scf.iteration.value >= 1
    && (scf.convergenceConfig.maxIteration >= 1 ==> scf.iteration.value < scf.convergenceConfig.maxIteration)
  }

  /**
   * iter(SCF_calc), then `while SCF_calc.convergence_criterion(): next(SCF_iter)`,
   * with at most `fuel` steps. The inputs and the consistency of the state
   * are kept throughout; with fuel for max_iteration - 1 steps the loop
   * ends by the criterion.
   */
  method Iterate(scf: SelfConsistentFieldCalculation, fuel: nat) returns (status: Status)
    requires scf.Valid()
    modifies scf
    ensures scf.Valid()
    ensures status != ReshapeRaised
    ensures status == Stopped ==> Stopping(scf)
    ensures Counted(scf)
    ensures 1 <= scf.convergenceConfig.maxIteration <= fuel + 1 ==> status != FuelExhausted
  {
    var it, proceed := Start(scf);
    var steps: nat := 0;
    while proceed && steps < fuel
      invariant it == scf && scf.Valid()
      invariant steps <= fuel && scf.iteration == Some(steps + 1)
      invariant proceed ==> MayStep(scf)
      invariant !proceed ==> Stopping(scf) && Counted(scf)
      decreases fuel - steps
    {
      proceed := Step(it);
      steps := steps + 1;
    }
    if proceed {
      FuelSuffices(scf.iteration.value, scf.convergenceConfig.maxIteration, fuel);
      status := FuelExhausted;
    } else {
      status := Stopped;
    }
  }

  /**
   * A counter short of max_iteration after the whole fuel was spent shows
   * that max_iteration exceeded fuel + 1, and the counter has not passed it.
   */
  lemma FuelSuffices(iteration: int, maxIteration: int, fuel: nat)
    requires iteration == fuel + 1
    requires maxIteration >= 1 ==> iteration < maxIteration
    ensures !(1 <= maxIteration <= fuel + 1)
    ensures maxIteration >= 1 ==> iteration <= maxIteration
  {}

  /** SCF_iter = iter(SCF_calc) and the first SCF_calc.convergence_criterion(). */
  method Start(scf: SelfConsistentFieldCalculation) returns (it: SelfConsistentFieldCalculation, proceed: bool)
    requires scf.Valid()
    modifies scf
    ensures it == scf && scf.Valid() && scf.iteration == Some(1)
    ensures proceed ==> MayStep(scf)
    ensures !proceed ==> Stopping(scf) && Counted(scf)
  {
    it := scf.Iter();
    proceed := scf.ConvergenceCriterion();
  }

  /**
   * One pass of the loop: next(SCF_iter), then SCF_calc.convergence_criterion().
   * A pass allowed while the counter is short of max_iteration leaves it
   * within max_iteration, and short of it again when the loop goes on.
   */
  method Step(it: SelfConsistentFieldCalculation) returns (proceed: bool)
    requires it.Valid() && MayStep(it)
    modifies it
    ensures it.Valid()
    ensures it.iteration == Some(old(it.iteration).value + 1)
    ensures proceed ==> MayStep(it)
    ensures !proceed ==> Stopping(it) && Counted(it)
  {
    it.Next();
    proceed := it.ConvergenceCriterion();
  }

  /** The overlap matrix built from a positive raw diagonal has unit diagonal. */
  lemma UnitDiagonal(raw: Matrix, norms: seq<real>, s: Matrix)
    requires IsSquare(raw, |raw|) && |norms| == |raw|
    requires forall i :: 0 <= i < |raw| ==> norms[i] > 0.0 && norms[i] * norms[i] == raw[i][i]
    requires s == OverlapMatrix.Rescale(raw, norms)
    ensures forall i :: 0 <= i < |s| ==> s[i][i] == 1.0
  {
    forall i | 0 <= i < |s| ensures s[i][i] == 1.0 {
      OverlapMatrix.PositiveProduct(norms[i], norms[i]);
    }
  }

  /** A consistent iterator's Fock matrix is symmetric. */
  lemma FockOfValid(scf: SelfConsistentFieldCalculation)
    requires scf.Valid()
    requires IsSymmetric(scf.T) && IsSymmetric(scf.VNuc) && IsPermutationSymmetric(scf.mnls)
    ensures IsSymmetric(scf.F)
  {
    FockSymmetric(scf.T, scf.VNuc, scf.P, scf.mnls);
  }
}
