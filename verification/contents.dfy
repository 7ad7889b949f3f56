/** Values held in host staging memory and the data movements the host code
    performs on them: zero fills, prefix copies, row-major flattening,
    transposition, column reordering and the two sums the host computes.

    Floating point is modelled by `real`; the sums add in the order the C
    loops add, so only rounding is left out.
 */
module Contents {

  /** 0, 1, ..., n-1: the column indices before cuda_eigenvectors sorts
      them (ML/MVKernels.c:963-966), and the order in which the forward and
      update loops visit the layers. */
  function Iota(n: nat): (r: seq<nat>)
    ensures |r| == n && forall i :: 0 <= i < n ==> r[i] == i
    decreases n
  {
    if n == 0 then [] else Iota(n - 1) + [n - 1]
  }

  // ---------------------------------------------------------------------
  // Index arithmetic for row-major matrices

  lemma MulLe(a: nat, b: nat, c: nat)
    requires a <= b
    ensures a * c <= b * c
  {
  }

  /** Entry (i, j) of a row-major rows x cols matrix lies inside it. */
  lemma IndexInside(i: nat, j: nat, rows: nat, cols: nat)
    requires i < rows && j < cols
    ensures i * cols + j < rows * cols
  {
    MulLe(i + 1, rows, cols);
  }

  /** Row and column are recovered from a row-major index. */
  lemma IndexSplit(i: nat, j: nat, cols: nat)
    requires j < cols
    ensures (i * cols + j) / cols == i && (i * cols + j) % cols == j
  {
    var n := i * cols + j;
    var q := n / cols;
    var r := n % cols;
    assert q * cols + r == n;
    if q > i {
      MulLe(i + 1, q, cols);
    } else if q < i {
      MulLe(q + 1, i, cols);
    }
  }

  /** A row-major index below rows * cols names a row below rows. */
  lemma IndexRow(k: nat, rows: nat, cols: nat)
    requires k < rows * cols
    ensures cols > 0 && k / cols < rows && k % cols < cols
    ensures (k / cols) * cols + k % cols == k
  {
    if k / cols >= rows {
      MulLe(rows, k / cols, cols);
    }
  }

  // ---------------------------------------------------------------------
  // Fills and copies

  function Zeros(n: nat): (r: seq<real>)
    ensures |r| == n && forall k :: 0 <= k < n ==> r[k] == 0.0
  {
    seq(n, _ => 0.0)
  }

  /** `dst` with its first |src| values replaced by `src` (a memcpy of
      |src| values to the start of `dst`). */
  function Overwrite(dst: seq<real>, src: seq<real>): (r: seq<real>)
    requires |src| <= |dst|
    ensures |r| == |dst|
    ensures r[..|src|] == src && r[|src|..] == dst[|src|..]
  {
    src + dst[|src|..]
  }

  /** The first `count` rows of `rows`, each cut to `width` values, laid out
      row-major (see FlattenAt). */
  function Flatten(rows: seq<seq<real>>, count: nat, width: nat): (r: seq<real>)
    requires count <= |rows|
    requires forall i :: 0 <= i < count ==> width <= |rows[i]|
    ensures |r| == count * width
    decreases count
  {
    if count == 0 then [] else Flatten(rows, count - 1, width) + rows[count - 1][..width]
  }

  /** Value j of row i lands at i * width + j. */
  lemma {:induction false} FlattenAt(rows: seq<seq<real>>, count: nat, width: nat, i: nat, j: nat)
    requires count <= |rows|
    requires forall i :: 0 <= i < count ==> width <= |rows[i]|
    requires i < count && j < width
    ensures i * width + j < count * width
    ensures Flatten(rows, count, width)[i * width + j] == rows[i][j]
    decreases count
  {
    IndexInside(i, j, count, width);
    if i < count - 1 {
      FlattenAt(rows, count - 1, width, i, j);
      IndexInside(i, j, count - 1, width);
    } else {
      MulLe(i, count - 1, width);
    }
  }

  /** run_gpu_transpose_2D_array's effect on values: the rows x cols matrix
      at the start of `src` is written transposed (cols x rows) to the start
      of `dst` (see TransposeAt); the rest of `dst` is untouched. */
  function TransposeInto(dst: seq<real>, src: seq<real>, rows: nat, cols: nat): (r: seq<real>)
    requires rows * cols <= |dst| && rows * cols <= |src|
    ensures |r| == |dst|
    ensures r[rows * cols..] == dst[rows * cols..]
  {
    seq(|dst|, k requires 0 <= k < |dst| =>
      if k < rows * cols then
        IndexRow(k, cols, rows);
        IndexInside(k % rows, k / rows, rows, cols);
        src[(k % rows) * cols + k / rows]
      else dst[k])
  }

  /** Entry (i, j) of the source is entry (j, i) of the result. */
  lemma TransposeAt(dst: seq<real>, src: seq<real>, rows: nat, cols: nat, i: nat, j: nat)
    requires rows * cols <= |dst| && rows * cols <= |src|
    requires i < rows && j < cols
    ensures j * rows + i < rows * cols && i * cols + j < rows * cols
    ensures TransposeInto(dst, src, rows, cols)[j * rows + i] == src[i * cols + j]
  {
    IndexInside(j, i, cols, rows);
    IndexInside(i, j, rows, cols);
    IndexSplit(j, i, rows);
  }

  /** Transposing back restores the original values. */
  lemma TransposeTwice(dst: seq<real>, mid: seq<real>, src: seq<real>, rows: nat, cols: nat)
    requires rows * cols <= |dst| && rows * cols <= |mid| && rows * cols <= |src|
    ensures TransposeInto(dst, TransposeInto(mid, src, rows, cols), cols, rows)[..rows * cols] == src[..rows * cols]
  {
    var t := TransposeInto(mid, src, rows, cols);
    var u := TransposeInto(dst, t, cols, rows);
    forall k | 0 <= k < rows * cols
      ensures u[k] == src[k]
    {
      IndexRow(k, rows, cols);
      var i, j := k / cols, k % cols;
      TransposeAt(dst, t, cols, rows, j, i);
      TransposeAt(mid, src, rows, cols, i, j);
    }
  }

  /** The gather run_gpu_reorder_eigenvectors performs: column c of the
      result is column order[c] of the rows x cols source (see GatherAt). */
  function GatherColumns(src: seq<real>, rows: nat, cols: nat, order: seq<nat>): (r: seq<real>)
    requires rows * cols <= |src|
    requires |order| == cols && forall c :: 0 <= c < cols ==> order[c] < cols
    ensures |r| == rows * cols
  {
    seq(rows * cols, k requires 0 <= k < rows * cols =>
      IndexRow(k, rows, cols);
      IndexInside(k / cols, order[k % cols], rows, cols);
      src[(k / cols) * cols + order[k % cols]])
  }

  lemma GatherAt(src: seq<real>, rows: nat, cols: nat, order: seq<nat>, i: nat, c: nat)
    requires rows * cols <= |src|
    requires |order| == cols && forall c :: 0 <= c < cols ==> order[c] < cols
    requires i < rows && c < cols
    ensures i * cols + c < rows * cols && i * cols + order[c] < rows * cols
    ensures GatherColumns(src, rows, cols, order)[i * cols + c] == src[i * cols + order[c]]
  {
    IndexInside(i, c, rows, cols);
    IndexInside(i, order[c], rows, cols);
    IndexSplit(i, c, cols);
  }

  // ---------------------------------------------------------------------
  // Sums, added left to right as the host loops add them

  function Sum(s: seq<real>): real
    decreases |s|
  {
    if |s| == 0 then 0.0 else Sum(s[..|s| - 1]) + s[|s| - 1]
  }

  function SumSquares(s: seq<real>): real
    decreases |s|
  {
    if |s| == 0 then 0.0 else SumSquares(s[..|s| - 1]) + s[|s| - 1] * s[|s| - 1]
  }

  /** Extending a prefix by one value adds that value. */
  lemma SumStep(s: seq<real>, n: nat)
    requires n < |s|
    ensures Sum(s[..n + 1]) == Sum(s[..n]) + s[n]
    ensures SumSquares(s[..n + 1]) == SumSquares(s[..n]) + s[n] * s[n]
  {
    assert s[..n + 1][..n] == s[..n];
  }

  /** Sums over concatenations split. */
  lemma {:induction false} SumAppend(a: seq<real>, b: seq<real>)
    ensures Sum(a + b) == Sum(a) + Sum(b)
    ensures SumSquares(a + b) == SumSquares(a) + SumSquares(b)
    decreases |b|
  {
    if |b| == 0 {
      assert a + b == a;
    } else {
      var n := |b| - 1;
      assert (a + b)[..|a + b| - 1] == a + b[..n];
      SumAppend(a, b[..n]);
    }
  }
}
