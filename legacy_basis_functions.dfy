/**
 * The older copy of the Gaussian basis (SCF_method/basis/basis_functions.py).
 *
 * It builds the same nucleus-major list as `Basis.GaussianBasis`, but its
 * constructor stores the normalisation table exactly as the caller passed
 * it. `renormalize` reads the table's `.shape`, which only a numpy array
 * has: the flag `factorsAreArray` records whether the caller passed one,
 * and a plain list makes `renormalize` fail.
 */
module LegacyBasis {
  import opened Molecules
  import opened Basis

  class GaussianBasis {
    const nucleiPositions: seq<Vec3>
    const alphas: seq<real>
    /** Whether normalization_factors was passed as a numpy array (and so has a shape). */
    const factorsAreArray: bool
    var normalizationFactors: seq<seq<real>>
    var basisSet: seq<Gaussian>

    ghost predicate Valid()
      reads this
    {
      && (factorsAreArray ==> IsTable(normalizationFactors))
      && CoversLayout(nucleiPositions, alphas, normalizationFactors)
      && basisSet == BasisSetOf(alphas, nucleiPositions, normalizationFactors)
    }

    constructor (nucleiPositions: seq<Vec3>, normalizationFactors: seq<seq<real>>, alphas: seq<real>,
                 factorsAreArray: bool)
      requires factorsAreArray ==> IsTable(normalizationFactors)
      requires CoversLayout(nucleiPositions, alphas, normalizationFactors)
      ensures Valid()
      ensures this.nucleiPositions == nucleiPositions && this.alphas == alphas
      ensures this.factorsAreArray == factorsAreArray
      ensures this.normalizationFactors == normalizationFactors
      ensures |basisSet| == |nucleiPositions| * |alphas|
    {
      var created := CreateBasisSet(alphas, nucleiPositions, normalizationFactors);
      this.nucleiPositions := nucleiPositions;
      this.alphas := alphas;
      this.factorsAreArray := factorsAreArray;
      this.normalizationFactors := normalizationFactors;
      basisSet := created;
    }

    /** __getitem__ */
    function GetItem(item: int): (r: Option<Gaussian>)
      reads this
      ensures r == Lookup(basisSet, item)
    {
      Lookup(basisSet, item)
    }

    /** __len__ */
    function Length(): (n: nat)
      reads this
      ensures n == |basisSet|
    {
      |basisSet|
    }

    /** __iter__: yields the basis functions one by one, in list order. */
    method Iterate() returns (items: seq<Gaussian>)
      ensures items == basisSet
    {
      items := [];
      for k := 0 to |basisSet|
        invariant items == basisSet[..k]
      {
        items := items + [basisSet[k]];
      }
    }

    /**
     * renormalize: fails when the stored table has no shape (a plain list)
     * or when the coefficient count differs from its element count;
     * otherwise reshapes row-major and regenerates the list.
     */
    method Renormalize(overlapMatrixCoeffs: seq<real>) returns (ok: bool)
      requires Valid()
      modifies this
      ensures Valid()
      ensures ok <==> factorsAreArray && |overlapMatrixCoeffs| == Size(old(normalizationFactors))
      ensures ok ==> normalizationFactors
                     == Reshape(overlapMatrixCoeffs, |old(normalizationFactors)|, Cols(old(normalizationFactors)))
      ensures !ok ==> normalizationFactors == old(normalizationFactors) && basisSet == old(basisSet)
      ensures |basisSet| == |old(basisSet)|
      ensures forall k :: 0 <= k < |basisSet| ==>
        basisSet[k].alpha == old(basisSet[k].alpha) && basisSet[k].center == old(basisSet[k].center)
      ensures ok && Cols(old(normalizationFactors)) == |alphas| ==>
        forall i, j :: 0 <= i < |nucleiPositions| && 0 <= j < |alphas| ==>
          Flat(i, j, |alphas|) < |overlapMatrixCoeffs| &&
          basisSet[Flat(i, j, |alphas|)].norm == overlapMatrixCoeffs[Flat(i, j, |alphas|)]
    {
      if !factorsAreArray {
        return false;
      }
      var rows, cols := |normalizationFactors|, Cols(normalizationFactors);
      if |overlapMatrixCoeffs| != rows * cols {
        return false;
      }
      var table := Reshape(overlapMatrixCoeffs, rows, cols);
      SameLayout(alphas, nucleiPositions, normalizationFactors, table);
      normalizationFactors := table;
      basisSet := CreateBasisSet(alphas, nucleiPositions, normalizationFactors);
      ok := true;
    }
  }
}
