/** Dense real matrices as sequences of rows, and the array operations the
    covariance compiler applies to them. */
module Matrices {

  type Matrix = seq<seq<real>>

  predicate IsMatrix(m: Matrix, rows: nat, cols: nat)
  {
    |m| == rows && forall i | 0 <= i < rows :: |m[i]| == cols
  }

  /** A rows x cols matrix of zeros. */
  function Zeros(rows: nat, cols: nat): (z: Matrix)
    ensures IsMatrix(z, rows, cols)
  {
    seq(rows, _ => seq(cols, _ => 0.0))
  }

  /** The size x size matrix with ones on the k-th diagonal (column - row == k). */
  function Eye(size: nat, k: int): (e: Matrix)
    ensures IsMatrix(e, size, size)
  {
    seq(size, r => seq(size, c => if c - r == k then 1.0 else 0.0))
  }

  /** Elementwise sum. */
  function Add(a: Matrix, b: Matrix, rows: nat, cols: nat): (s: Matrix)
    requires IsMatrix(a, rows, cols) && IsMatrix(b, rows, cols)
    ensures IsMatrix(s, rows, cols)
  {
    seq(rows, r requires 0 <= r < rows => seq(cols, c requires 0 <= c < cols => a[r][c] + b[r][c]))
  }

  /** Elementwise product. */
  function Hadamard(a: Matrix, b: Matrix, rows: nat, cols: nat): (s: Matrix)
    requires IsMatrix(a, rows, cols) && IsMatrix(b, rows, cols)
    ensures IsMatrix(s, rows, cols)
  {
    seq(rows, r requires 0 <= r < rows => seq(cols, c requires 0 <= c < cols => a[r][c] * b[r][c]))
  }

  /** A size x size matrix repeated reps times along both axes. */
  function Tile(m: Matrix, size: nat, reps: nat): (t: Matrix)
    requires IsMatrix(m, size, size)
    ensures IsMatrix(t, reps * size, reps * size)
  {
    seq(reps * size, a requires 0 <= a < reps * size =>
      seq(reps * size, b requires 0 <= b < reps * size => m[a % size][b % size]))
  }

  lemma HadamardAt(a: Matrix, b: Matrix, rows: nat, cols: nat, r: nat, c: nat)
    requires IsMatrix(a, rows, cols) && IsMatrix(b, rows, cols) && r < rows && c < cols
    ensures Hadamard(a, b, rows, cols)[r][c] == a[r][c] * b[r][c]
  {
  }

  lemma TileAt(m: Matrix, size: nat, reps: nat, a: nat, b: nat)
    requires IsMatrix(m, size, size) && a < reps * size && b < reps * size
    ensures size > 0 && Tile(m, size, reps)[a][b] == m[a % size][b % size]
  {
  }

  /** The contents of a two-dimensional array, row by row. */
  function ToSeq(a: array2<real>): (m: Matrix)
    reads a
    ensures IsMatrix(m, a.Length0, a.Length1)
  {
    seq(a.Length0, r requires 0 <= r < a.Length0 reads a =>
      seq(a.Length1, c requires 0 <= c < a.Length1 reads a => a[r, c]))
  }
}
