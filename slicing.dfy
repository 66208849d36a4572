/** Python slice semantics (step 1) and numpy's slice assignment with
    broadcasting of a one-element value, on plain sequences and arrays. */
module Slicing {
  import opened Errors

  /** Python's normalisation of one slice bound `i` against a length `len`:
      a negative bound counts from the end, and the result is clamped to [0, len]. */
  function Bound(len: nat, i: int): (b: nat)
    ensures b <= len
    ensures 0 <= i <= len ==> b == i
  {
    if i < 0 then (if len + i < 0 then 0 else len + i)
    else if i > len then len
    else i
  }

  /** Number of elements selected by `s[lo:hi]`. */
  function SliceLength(len: nat, lo: int, hi: int): (n: nat)
    ensures n <= len
    ensures 0 <= lo <= hi <= len ==> n == hi - lo
  {
    var a, b := Bound(len, lo), Bound(len, hi);
    if a <= b then b - a else 0
  }

  /** `s[lo:hi]`: never fails, selects the elements from the normalised start. */
  function Slice<T>(s: seq<T>, lo: int, hi: int): (t: seq<T>)
    ensures |t| == SliceLength(|s|, lo, hi)
    ensures forall k :: 0 <= k < |t| ==> Bound(|s|, lo) + k < |s| && t[k] == s[Bound(|s|, lo) + k]
    ensures 0 <= lo <= hi <= |s| ==> t == s[lo..hi]
  {
    var a, b := Bound(|s|, lo), Bound(|s|, hi);
    if a <= b then s[a..b] else []
  }

  /** Index into a value broadcast along one axis: an axis of length one is repeated. */
  function Bc(len: nat, i: nat): nat
  {
    if len == 1 then 0 else i
  }

  /** numpy broadcasts a one-dimensional value onto `n` targets when it has
      exactly `n` elements or a single one. */
  predicate Fits(vals: seq<int>, n: nat)
  {
    |vals| == n || |vals| == 1
  }

  /** `s[lo:hi] = vals` on a one-dimensional numpy array: ValueError unless the
      value broadcasts onto the selected elements, which are then overwritten. */
  function AssignSlice(s: seq<int>, lo: int, hi: int, vals: seq<int>): (res: Result<seq<int>>)
    ensures res.Ok? <==> Fits(vals, SliceLength(|s|, lo, hi))
    ensures res.Err? ==> res.error == ValueError
    ensures res.Ok? ==> |res.value| == |s|
    ensures res.Ok? ==> forall k :: 0 <= k < |s| ==>
      res.value[k] == if Bound(|s|, lo) <= k < Bound(|s|, lo) + SliceLength(|s|, lo, hi)
                      then vals[Bc(|vals|, k - Bound(|s|, lo))] else s[k]
  {
    var a, n := Bound(|s|, lo), SliceLength(|s|, lo, hi);
    if !Fits(vals, n) then Err(ValueError)
    else Ok(seq(|s|, k requires 0 <= k < |s| => if a <= k < a + n then vals[Bc(|vals|, k - a)] else s[k]))
  }

  /** For an in-range slice and a value of more than one element, the write
      succeeds exactly when the value has one element per selected position. */
  lemma AssignInRange(s: seq<int>, lo: int, hi: int, vals: seq<int>)
    requires 0 <= lo <= hi <= |s| && |vals| != 1
    ensures AssignSlice(s, lo, hi, vals).Ok? <==> |vals| == hi - lo
    ensures AssignSlice(s, lo, hi, vals).Ok? ==>
      AssignSlice(s, lo, hi, vals).value == s[..lo] + vals + s[hi..]
  {
    if AssignSlice(s, lo, hi, vals).Ok? {
      var t := AssignSlice(s, lo, hi, vals).value;
      assert forall k :: 0 <= k < |s| ==> t[k] == (s[..lo] + vals + s[hi..])[k];
    }
  }

  /** In-place `a[lo:hi] = vals`; on a ValueError the array is untouched. */
  method WriteSlice(a: array<int>, lo: int, hi: int, vals: seq<int>) returns (ok: bool)
    modifies a
    ensures ok == AssignSlice(old(a[..]), lo, hi, vals).Ok?
    ensures ok ==> a[..] == AssignSlice(old(a[..]), lo, hi, vals).value
    ensures !ok ==> a[..] == old(a[..])
  {
    var start, n := Bound(a.Length, lo), SliceLength(a.Length, lo, hi);
    if !Fits(vals, n) {
      return false;
    }
    var k := 0;
    while k < n
      invariant 0 <= k <= n
      invariant forall i :: 0 <= i < a.Length ==>
        a[i] == if start <= i < start + k then vals[Bc(|vals|, i - start)] else old(a[i])
    {
      a[start + k] := vals[Bc(|vals|, k)];
      k := k + 1;
    }
    ok := true;
    assert a[..] == AssignSlice(old(a[..]), lo, hi, vals).value;
  }
}
