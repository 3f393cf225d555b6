/**
 * Finite sums over reals in the order the iterator's loops add them up: the
 * sum along one row of a grid and the row-major sum of a rectangular grid.
 * The grid is given as a function of its two indices, so that the
 * symmetry of G and the convergence measure can be argued about one
 * definition of "sum over all (i, j)".
 */
module Sums {

  /** Σ_{j < k} f(i, j): row i of the grid up to column k. */
  function RowSum(f: (nat, nat) -> real, i: nat, k: nat): real {
    if k == 0 then 0.0 else RowSum(f, i, k - 1) + f(i, k - 1)
  }

  /** Σ_{i < k} f(i, j): column j of the grid down to row k. */
  function ColSum(f: (nat, nat) -> real, j: nat, k: nat): real {
    if k == 0 then 0.0 else ColSum(f, j, k - 1) + f(k - 1, j)
  }

  /** Σ_{i < rows} Σ_{j < cols} f(i, j), row by row. */
  function GridSum(f: (nat, nat) -> real, rows: nat, cols: nat): real {
    if rows == 0 then 0.0 else GridSum(f, rows - 1, cols) + RowSum(f, rows - 1, cols)
  }

  /** The grid read with its indices exchanged. */
  function Flip(f: (nat, nat) -> real): (g: (nat, nat) -> real)
    ensures forall i: nat, j: nat :: g(i, j) == f(j, i)
  {
    (i: nat, j: nat) => f(j, i)
  }

  lemma {:induction false} RowCongruent(f: (nat, nat) -> real, g: (nat, nat) -> real, i: nat, k: nat)
    requires forall j: nat :: j < k ==> f(i, j) == g(i, j)
    ensures RowSum(f, i, k) == RowSum(g, i, k)
  {
    if k > 0 {
      RowCongruent(f, g, i, k - 1);
    }
  }

  /** Grids that agree on rows < rows and columns < cols have the same sum. */
  lemma {:induction false} GridCongruent(f: (nat, nat) -> real, g: (nat, nat) -> real, rows: nat, cols: nat)
    requires forall i: nat, j: nat :: i < rows && j < cols ==> f(i, j) == g(i, j)
    ensures GridSum(f, rows, cols) == GridSum(g, rows, cols)
  {
    if rows > 0 {
      GridCongruent(f, g, rows - 1, cols);
      RowCongruent(f, g, rows - 1, cols);
    }
  }

  /** A grid that is zero on its range sums to zero. */
  lemma {:induction false} GridZero(f: (nat, nat) -> real, rows: nat, cols: nat)
    requires forall i: nat, j: nat :: i < rows && j < cols ==> f(i, j) == 0.0
    ensures GridSum(f, rows, cols) == 0.0
  {
    GridCongruent(f, (i: nat, j: nat) => 0.0, rows, cols);
    ZeroGrid(rows, cols);
  }

  lemma {:induction false} ZeroGrid(rows: nat, cols: nat)
    ensures GridSum((i: nat, j: nat) => 0.0, rows, cols) == 0.0
  {
    if rows > 0 {
      ZeroGrid(rows - 1, cols);
      ZeroRow(rows - 1, cols);
    }
  }

  lemma {:induction false} ZeroRow(i: nat, k: nat)
    ensures RowSum((i: nat, j: nat) => 0.0, i, k) == 0.0
  {
    if k > 0 {
      ZeroRow(i, k - 1);
    }
  }

  /** A grid that is non-negative on its range has a non-negative sum. */
  lemma {:induction false} GridNonNegative(f: (nat, nat) -> real, rows: nat, cols: nat)
    requires forall i: nat, j: nat :: i < rows && j < cols ==> f(i, j) >= 0.0
    ensures GridSum(f, rows, cols) >= 0.0
  {
    if rows > 0 {
      GridNonNegative(f, rows - 1, cols);
      RowNonNegative(f, rows - 1, cols);
    }
  }

  lemma {:induction false} RowNonNegative(f: (nat, nat) -> real, i: nat, k: nat)
    requires forall j: nat :: j < k ==> f(i, j) >= 0.0
    ensures RowSum(f, i, k) >= 0.0
  {
    if k > 0 {
      RowNonNegative(f, i, k - 1);
    }
  }

  /** Scaling every entry by c scales the sum by c. */
  lemma {:induction false} GridScale(f: (nat, nat) -> real, g: (nat, nat) -> real, c: real, rows: nat, cols: nat)
    requires forall i: nat, j: nat :: i < rows && j < cols ==> g(i, j) == c * f(i, j)
    ensures GridSum(g, rows, cols) == c * GridSum(f, rows, cols)
  {
    if rows > 0 {
      GridScale(f, g, c, rows - 1, cols);
      RowScale(f, g, c, rows - 1, cols);
      Distribute(c, GridSum(f, rows - 1, cols), RowSum(f, rows - 1, cols));
    }
  }

  lemma {:induction false} RowScale(f: (nat, nat) -> real, g: (nat, nat) -> real, c: real, i: nat, k: nat)
    requires forall j: nat :: j < k ==> g(i, j) == c * f(i, j)
    ensures RowSum(g, i, k) == c * RowSum(f, i, k)
  {
    if k > 0 {
      RowScale(f, g, c, i, k - 1);
      Distribute(c, RowSum(f, i, k - 1), f(i, k - 1));
    }
  }

  lemma Distribute(c: real, a: real, b: real)
    ensures c * (a + b) == c * a + c * b
  {}

  /** Adding one column to every row adds that column's sum to the grid's. */
  lemma {:induction false} GridExtendColumns(f: (nat, nat) -> real, rows: nat, cols: nat)
    ensures GridSum(f, rows, cols + 1) == GridSum(f, rows, cols) + ColSum(f, cols, rows)
  {
    if rows > 0 {
      GridExtendColumns(f, rows - 1, cols);
    }
  }

  /** A column of the flipped grid is a row of the original. */
  lemma {:induction false} FlippedColumn(f: (nat, nat) -> real, j: nat, k: nat)
    ensures ColSum(Flip(f), j, k) == RowSum(f, j, k)
  {
    if k > 0 {
      FlippedColumn(f, j, k - 1);
    }
  }

  /** A grid with no columns sums to zero. */
  lemma {:induction false} GridNoColumns(f: (nat, nat) -> real, rows: nat)
    ensures GridSum(f, rows, 0) == 0.0
  {
    if rows > 0 {
      GridNoColumns(f, rows - 1);
    }
  }

  /** Summing a grid row by row or column by column gives the same total. */
  lemma {:induction false} GridSwap(f: (nat, nat) -> real, rows: nat, cols: nat)
    ensures GridSum(f, rows, cols) == GridSum(Flip(f), cols, rows)
  {
    if rows == 0 {
      GridNoColumns(Flip(f), cols);
    } else {
      GridSwap(f, rows - 1, cols);
      GridExtendColumns(Flip(f), cols, rows - 1);
      FlippedColumn(f, rows - 1, cols);
    }
  }
}
