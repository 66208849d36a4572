/** Integer numpy arrays as the model sees them: a two-dimensional array is
    an `array2<int>` whose value is a rectangular `Matrix`, a one-dimensional
    array an `array<int>` whose value is a `seq<int>`. */
module Numpy {
  import opened Slicing

  predicate IsRect(m: seq<seq<int>>)
  {
    forall i :: 0 <= i < |m| ==> |m[i]| == |m[0]|
  }

  /** The value of a two-dimensional integer array: every row has the same length. */
  type Matrix = m: seq<seq<int>> | IsRect(m) witness []

  /** Column count; a matrix without rows is taken to have no columns. */
  function Width(m: Matrix): nat
  {
    if |m| == 0 then 0 else |m[0]|
  }

  predicate HasShape(m: Matrix, rows: nat, cols: nat)
  {
    |m| == rows && forall i :: 0 <= i < |m| ==> |m[i]| == cols
  }

  /** Current contents of a two-dimensional array. */
  function Rows(a: array2<int>): (m: Matrix)
    reads a
    ensures HasShape(m, a.Length0, a.Length1)
    ensures forall i, j :: 0 <= i < a.Length0 && 0 <= j < a.Length1 ==> m[i][j] == a[i, j]
  {
    seq(a.Length0, i requires 0 <= i < a.Length0 reads a =>
      seq(a.Length1, j requires 0 <= j < a.Length1 reads a => a[i, j]))
  }

  /** A fresh array holding the matrix `m` (numpy's copy / a helper's fresh result). */
  method FromRows(m: Matrix) returns (a: array2<int>)
    ensures fresh(a) && Rows(a) == m
  {
    a := new int[|m|, Width(m)]((i, j) requires 0 <= i < |m| && 0 <= j < Width(m) => m[i][j]);
    assert forall i :: 0 <= i < |m| ==> Rows(a)[i] == m[i];
  }

  /** A fresh one-dimensional array holding `s`. */
  method FromSeq(s: seq<int>) returns (a: array<int>)
    ensures fresh(a) && a[..] == s
  {
    a := new int[|s|](i requires 0 <= i < |s| => s[i]);
  }

  /** `(m == 0).all()`. */
  predicate AllZero(m: Matrix)
  {
    forall i, j :: 0 <= i < |m| && 0 <= j < |m[i]| ==> m[i][j] == 0
  }

  /** `numpy.eye(n, dtype=int)`. */
  function Identity(n: nat): (m: Matrix)
    ensures HasShape(m, n, n)
    ensures forall i, j :: 0 <= i < n && 0 <= j < n ==> (m[i][j] == 1 <==> i == j) && (m[i][j] == 0 <==> i != j)
  {
    seq(n, i requires 0 <= i < n => seq(n, j requires 0 <= j < n => if i == j then 1 else 0))
  }

  /** `numpy.zeros(n, dtype=int)`. */
  function Zeros(n: nat): (s: seq<int>)
    ensures |s| == n && forall k :: 0 <= k < n ==> s[k] == 0
  {
    seq(n, _ => 0)
  }

  /** `numpy.flip(s)` on a one-dimensional array: the entries in reverse order. */
  function Flip<T>(s: seq<T>): (f: seq<T>)
    ensures |f| == |s| && forall i :: 0 <= i < |s| ==> f[i] == s[|s| - 1 - i]
  {
    seq(|s|, i requires 0 <= i < |s| => s[|s| - 1 - i])
  }

  /** `numpy.flipud(m)`: `Flip` along the first axis, which keeps the matrix rectangular. */
  function FlipRows(m: Matrix): (f: Matrix)
    ensures f == Flip(m)
  {
    var f := Flip(m);
    assert forall i :: 0 <= i < |f| ==> |f[i]| == |m[0]|;
    f
  }

  /** `m[lo:hi]` along the first axis: Python's slice of the row sequence,
      which is again rectangular. */
  function RowSlice(m: Matrix, lo: int, hi: int): Matrix
  {
    var t := Slice(m, lo, hi);
    assert forall k :: 0 <= k < |t| ==> |t[k]| == |m[0]|;
    t
  }
}
