/**
 * The Gaussian basis set (SCF_method/calculation/basis/basis_functions.py).
 *
 * A basis function N * exp(-alpha * |r - R|^2) is kept as its three
 * parameters; evaluating it at points is floating-point work this model
 * leaves out. The basis object holds one function per (nucleus, exponent)
 * pair in nucleus-major order, and `Renormalize` replaces the normalisation
 * table and regenerates the list in the same order.
 */
module Basis {
  import opened Molecules

  datatype Option<T> = None | Some(value: T)

  /** gaussian_base_element(alpha, r0, norm), as its parameters rather than a closure. */
  datatype Gaussian = Gaussian(alpha: real, center: Vec3, norm: real)

  /** Number of columns of a table built by np.array from a list of rows. */
  function Cols(table: seq<seq<real>>): nat {
    if |table| == 0 then 0 else |table[0]|
  }

  /** The table is rectangular, so that np.array gives it a two-dimensional shape. */
  predicate IsTable(table: seq<seq<real>>) {
    forall i :: 0 <= i < |table| ==> |table[i]| == Cols(table)
  }

  /** The number of elements of the table's array, the product of its shape. */
  function Size(table: seq<seq<real>>): nat {
    |table| * Cols(table)
  }

  /** normalization_factors[i][j] exists for every nucleus i and exponent j. */
  predicate CoversLayout(nuclei: seq<Vec3>, alphas: seq<real>, factors: seq<seq<real>>) {
    |factors| >= |nuclei| && forall i :: 0 <= i < |nuclei| ==> |factors[i]| >= |alphas|
  }

  /** The functions generated for one nucleus, one per exponent, in exponent order. */
  function Shell(alphas: seq<real>, center: Vec3, factors: seq<real>): (s: seq<Gaussian>)
    requires |factors| >= |alphas|
    ensures |s| == |alphas|
    ensures forall j :: 0 <= j < |alphas| ==> s[j] == Gaussian(alphas[j], center, factors[j])
  {
    seq(|alphas|, j requires 0 <= j < |alphas| => Gaussian(alphas[j], center, factors[j]))
  }

  lemma MulLeq(a: nat, b: nat, c: nat)
    requires a <= b
    ensures a * c <= b * c
  {}

  /** Row-major position of entry [i][j] of a table with the given row width. */
  function Flat(i: nat, j: nat, width: nat): nat {
    i * width + j
  }

  /**
   * The basis set built from the nuclei, exponents and normalisation table,
   * nucleus-major: the element at i * |alphas| + j has centre nuclei[i],
   * exponent alphas[j] and norm factors[i][j].
   */
  function BasisSetOf(alphas: seq<real>, nuclei: seq<Vec3>, factors: seq<seq<real>>): (b: seq<Gaussian>)
    requires CoversLayout(nuclei, alphas, factors)
    ensures |b| == |nuclei| * |alphas|
    ensures forall i, j :: 0 <= i < |nuclei| && 0 <= j < |alphas| ==>
      Flat(i, j, |alphas|) < |b| && b[Flat(i, j, |alphas|)] == Gaussian(alphas[j], nuclei[i], factors[i][j])
    decreases |nuclei|
  {
    if |nuclei| == 0 then []
    else
      var n := |nuclei| - 1;
      var front := BasisSetOf(alphas, nuclei[..n], factors);
      assert |front| + |alphas| == |nuclei| * |alphas|;
      front + Shell(alphas, nuclei[n], factors[n])
  }

  /**
   * Two tables covering the same layout give basis sets that differ only in
   * their norms: same length, and the same exponent and centre at every index.
   */
  lemma {:induction false} SameLayout(alphas: seq<real>, nuclei: seq<Vec3>, f1: seq<seq<real>>, f2: seq<seq<real>>)
    requires CoversLayout(nuclei, alphas, f1) && CoversLayout(nuclei, alphas, f2)
    ensures |BasisSetOf(alphas, nuclei, f1)| == |BasisSetOf(alphas, nuclei, f2)|
    ensures forall k :: 0 <= k < |BasisSetOf(alphas, nuclei, f1)| ==>
      && BasisSetOf(alphas, nuclei, f1)[k].alpha == BasisSetOf(alphas, nuclei, f2)[k].alpha
      && BasisSetOf(alphas, nuclei, f1)[k].center == BasisSetOf(alphas, nuclei, f2)[k].center
    decreases |nuclei|
  {
    if |nuclei| > 0 {
      var n := |nuclei| - 1;
      SameLayout(alphas, nuclei[..n], f1, f2);
    }
  }

  /** _create_basis_set: one append per (nucleus, exponent), nucleus-major. */
  method CreateBasisSet(alphas: seq<real>, nucleiPosition: seq<Vec3>, normalizationFactors: seq<seq<real>>)
    returns (basisSet: seq<Gaussian>)
    requires CoversLayout(nucleiPosition, alphas, normalizationFactors)
    ensures basisSet == BasisSetOf(alphas, nucleiPosition, normalizationFactors)
  {
    basisSet := [];
    for i := 0 to |nucleiPosition|
      invariant basisSet == BasisSetOf(alphas, nucleiPosition[..i], normalizationFactors)
    {
      var r := nucleiPosition[i];
      for j := 0 to |alphas|
        invariant basisSet == BasisSetOf(alphas, nucleiPosition[..i], normalizationFactors)
                              + Shell(alphas[..j], r, normalizationFactors[i])
      {
        basisSet := basisSet + [Gaussian(alphas[j], r, normalizationFactors[i][j])];
        assert Shell(alphas[..j + 1], r, normalizationFactors[i])
            == Shell(alphas[..j], r, normalizationFactors[i]) + [Gaussian(alphas[j], r, normalizationFactors[i][j])];
      }
      assert alphas[..|alphas|] == alphas;
      assert nucleiPosition[..i + 1][..i] == nucleiPosition[..i];
    }
    assert nucleiPosition[..|nucleiPosition|] == nucleiPosition;
  }

  /** Entry [i][j] of a rows x cols table sits inside its row-major flattening. */
  lemma FlatBound(i: nat, j: nat, rows: nat, cols: nat)
    requires i < rows && j < cols
    ensures Flat(i, j, cols) < rows * cols
  {
    MulLeq(i + 1, rows, cols);
    assert (i + 1) * cols == i * cols + cols;
  }

  /** overlap_matrix_coeffs.reshape((rows, cols)): row-major, so entry [i][j] is c[i * cols + j]. */
  function Reshape(c: seq<real>, rows: nat, cols: nat): (t: seq<seq<real>>)
    requires |c| == rows * cols
    ensures |t| == rows && forall i :: 0 <= i < rows ==> |t[i]| == cols
    ensures forall i, j :: 0 <= i < rows && 0 <= j < cols ==> Flat(i, j, cols) < |c| && t[i][j] == c[Flat(i, j, cols)]
  {
    assert forall i, j :: 0 <= i < rows && 0 <= j < cols ==> Flat(i, j, cols) < |c| by {
      forall i, j | 0 <= i < rows && 0 <= j < cols ensures Flat(i, j, cols) < |c| {
        FlatBound(i, j, rows, cols);
      }
    }
    seq(rows, i requires 0 <= i < rows => seq(cols, j requires 0 <= j < cols => c[Flat(i, j, cols)]))
  }

  /** __getitem__ on a Python list: indices from -len to len - 1, IndexError otherwise. */
  function Lookup(basisSet: seq<Gaussian>, item: int): (r: Option<Gaussian>)
    ensures r.Some? <==> -|basisSet| <= item < |basisSet|
    ensures 0 <= item < |basisSet| ==> r == Some(basisSet[item])
    ensures -|basisSet| <= item < 0 ==> r == Some(basisSet[|basisSet| + item])
  {
    if 0 <= item < |basisSet| then Some(basisSet[item])
    else if -|basisSet| <= item < 0 then Some(basisSet[|basisSet| + item])
    else None
  }

  class GaussianBasis {
    const nucleiPositions: seq<Vec3>
    const alphas: seq<real>
    var normalizationFactors: seq<seq<real>>
    var basisSet: seq<Gaussian>

    ghost predicate Valid()
      reads this
    {
      && IsTable(normalizationFactors)
      && CoversLayout(nucleiPositions, alphas, normalizationFactors)
      && basisSet == BasisSetOf(alphas, nucleiPositions, normalizationFactors)
    }

    constructor (nucleiPositions: seq<Vec3>, normalizationFactors: seq<seq<real>>, alphas: seq<real>)
      requires IsTable(normalizationFactors)
      requires CoversLayout(nucleiPositions, alphas, normalizationFactors)
      ensures Valid()
      ensures this.nucleiPositions == nucleiPositions && this.alphas == alphas
      ensures this.normalizationFactors == normalizationFactors
      ensures |basisSet| == |nucleiPositions| * |alphas|
    {
      var created := CreateBasisSet(alphas, nucleiPositions, normalizationFactors);
      this.nucleiPositions := nucleiPositions;
      this.alphas := alphas;
      this.normalizationFactors := normalizationFactors;
      basisSet := created;
    }

    /** __getitem__ */
    function GetItem(item: int): (r: Option<Gaussian>)
      reads this
      ensures r == Lookup(basisSet, item)
    {
      Lookup(basisSet, item)
    }

    /** __len__ */
    function Length(): (n: nat)
      reads this
      ensures n == |basisSet|
    {
      |basisSet|
    }

    /** __iter__: yields the basis functions one by one, in list order. */
    method Iterate() returns (items: seq<Gaussian>)
      ensures items == basisSet
    {
      items := [];
      for k := 0 to |basisSet|
        invariant items == basisSet[..k]
      {
        items := items + [basisSet[k]];
      }
    }

    /**
     * renormalize: reshape the flat coefficients to the shape of the stored
     * table (failing, as numpy's reshape raises, when the element counts
     * differ) and regenerate the list from the stored nuclei and exponents.
     */
    method Renormalize(overlapMatrixCoeffs: seq<real>) returns (ok: bool)
      requires Valid()
      modifies this
      ensures Valid()
      ensures ok <==> |overlapMatrixCoeffs| == Size(old(normalizationFactors))
      ensures ok ==> normalizationFactors
                     == Reshape(overlapMatrixCoeffs, |old(normalizationFactors)|, Cols(old(normalizationFactors)))
      ensures !ok ==> normalizationFactors == old(normalizationFactors) && basisSet == old(basisSet)
      ensures Cols(normalizationFactors) == Cols(old(normalizationFactors))
      ensures |basisSet| == |old(basisSet)|
      ensures forall k :: 0 <= k < |basisSet| ==>
        basisSet[k].alpha == old(basisSet[k].alpha) && basisSet[k].center == old(basisSet[k].center)
      ensures ok && Cols(old(normalizationFactors)) == |alphas| ==>
        forall i, j :: 0 <= i < |nucleiPositions| && 0 <= j < |alphas| ==>
          Flat(i, j, |alphas|) < |overlapMatrixCoeffs| &&
          basisSet[Flat(i, j, |alphas|)].norm == overlapMatrixCoeffs[Flat(i, j, |alphas|)]
    {
      var rows, cols := |normalizationFactors|, Cols(normalizationFactors);
      if |overlapMatrixCoeffs| != rows * cols {
        return false;
      }
      var table := Reshape(overlapMatrixCoeffs, rows, cols);
      SameLayout(alphas, nucleiPositions, normalizationFactors, table);
      normalizationFactors := table;
      basisSet := CreateBasisSet(alphas, nucleiPositions, normalizationFactors);
      ok := true;
    }
  }
}
