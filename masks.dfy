/** Qubit masks and the block writes of `CliffordMap.embed`.

    A tableau row or column index j belongs to qubit j / 2: column 2q holds
    the X bit and column 2q + 1 the Z bit of qubit q, and row 2q is the image
    of X_q, row 2q + 1 the image of Z_q. `numpy.repeat(mask, 2)` turns a flag
    per qubit into a flag per row/column. `numpy.ix_` turns a boolean index
    into the positions of its true entries, so the selected block is indexed
    by the rank of each selected position among the selected ones. */
module Masks {
  import opened Numpy
  import opened Slicing

  /** `numpy.repeat(mask, 2)`. */
  function Repeat2(mask: seq<bool>): seq<bool>
  {
    seq(2 * |mask|, j requires 0 <= j < 2 * |mask| => mask[j / 2])
  }

  lemma Repeat2At(mask: seq<bool>, i: nat)
    requires i < 2 * |mask|
    ensures |Repeat2(mask)| == 2 * |mask| && i / 2 < |mask| && Repeat2(mask)[i] == mask[i / 2]
  {
  }

  /** Number of true entries. */
  function Count(m: seq<bool>): (k: nat)
    ensures k <= |m|
  {
    if m == [] then 0 else Count(m[..|m| - 1]) + (if m[|m| - 1] then 1 else 0)
  }

  lemma {:induction false} CountConcat(a: seq<bool>, b: seq<bool>)
    ensures Count(a + b) == Count(a) + Count(b)
    decreases |b|
  {
    if b == [] {
      assert a + b == a;
    } else {
      CountConcat(a, b[..|b| - 1]);
      assert (a + b)[..|a + b| - 1] == a + b[..|b| - 1];
    }
  }

  lemma CountPrefixStep(m: seq<bool>, i: nat)
    requires i < |m|
    ensures Count(m[..i + 1]) == Count(m[..i]) + (if m[i] then 1 else 0)
  {
    assert m[..i + 1][..i] == m[..i];
  }

  lemma {:induction false} CountPrefixMono(m: seq<bool>, i: nat, j: nat)
    requires i <= j <= |m|
    ensures Count(m[..i]) <= Count(m[..j])
    ensures i < j && m[i] ==> Count(m[..i]) < Count(m[..j])
    decreases j
  {
    if i < j {
      CountPrefixMono(m, i, j - 1);
      CountPrefixStep(m, j - 1);
    }
  }

  /** Position of index i among the selected indices of m: how many selected indices precede it. */
  function Rank(m: seq<bool>, i: nat): (k: nat)
    requires i <= |m|
    ensures k <= Count(m)
    ensures i < |m| && m[i] ==> k < Count(m)
  {
    CountPrefixMono(m, i, |m|);
    assert m[..|m|] == m;
    Count(m[..i])
  }

  /** The selected indices in increasing order (what `numpy.ix_` makes of a boolean index). */
  function Selected(m: seq<bool>): (pos: seq<nat>)
    ensures |pos| == Count(m)
    ensures forall a :: 0 <= a < |pos| ==> pos[a] < |m| && m[pos[a]] && Rank(m, pos[a]) == a
  {
    if m == [] then []
    else
      var pre := m[..|m| - 1];
      var before := Selected(pre);
      assert forall p :: 0 <= p <= |pre| ==> pre[..p] == m[..p];
      before + (if m[|m| - 1] then [|m| - 1] else [])
  }

  /** Each selected index sits in `Selected` at its rank. */
  lemma {:induction false} SelectedAtRank(m: seq<bool>, i: nat)
    requires i < |m| && m[i]
    ensures Rank(m, i) < |Selected(m)| && Selected(m)[Rank(m, i)] == i
    decreases |m|
  {
    var pre := m[..|m| - 1];
    if i < |m| - 1 {
      SelectedAtRank(pre, i);
      assert pre[..i] == m[..i];
    }
  }

  lemma {:induction false} CountRepeat2(mask: seq<bool>)
    ensures Count(Repeat2(mask)) == 2 * Count(mask)
    decreases |mask|
  {
    if mask != [] {
      var pre, l := mask[..|mask| - 1], mask[|mask| - 1];
      CountRepeat2(pre);
      assert Repeat2(mask) == Repeat2(pre) + [l, l];
      CountConcat(Repeat2(pre), [l, l]);
      assert [l, l][..1] == [l] && [l][..0] == [];
    }
  }

  /** In the repeated mask, the X position 2q of qubit q has rank twice the
      qubit's rank, and its Z position 2q + 1 follows right after it. */
  lemma RepeatRank(mask: seq<bool>, q: nat)
    requires q < |mask|
    ensures Rank(Repeat2(mask), 2 * q) == 2 * Rank(mask, q)
    ensures Rank(Repeat2(mask), 2 * q + 1) == 2 * Rank(mask, q) + (if mask[q] then 1 else 0)
  {
    var m2 := Repeat2(mask);
    assert m2[..2 * q] == Repeat2(mask[..q]);
    CountRepeat2(mask[..q]);
    CountPrefixStep(m2, 2 * q);
  }

  // ---- two-dimensional block: self.gs[numpy.ix_(m, m)] = v ----

  /** Every selected position indexes an existing row and column (else numpy raises IndexError). */
  predicate InBounds(m: seq<bool>, rows: nat, cols: nat)
  {
    forall p :: 0 <= p < |m| && m[p] ==> p < rows && p < cols
  }

  /** The value broadcasts onto a k-by-k block (else numpy raises ValueError). */
  predicate BlockFits(v: Matrix, k: nat)
  {
    (|v| == k || |v| == 1) && (Width(v) == k || Width(v) == 1)
  }

  /** Entry (i, j) after the block write. */
  function BlockEntry(g: Matrix, v: Matrix, m: seq<bool>, i: nat, j: nat): int
    requires i < |g| && j < |g[i]| && BlockFits(v, Count(m))
  {
    if i < |m| && m[i] && j < |m| && m[j]
    then v[Bc(|v|, Rank(m, i))][Bc(Width(v), Rank(m, j))]
    else g[i][j]
  }

  /** `g[numpy.ix_(m, m)] = v` on the value of the array. */
  function EmbedBlock(g: Matrix, v: Matrix, m: seq<bool>): (e: Matrix)
    requires BlockFits(v, Count(m))
    ensures HasShape(e, |g|, Width(g))
  {
    var e := seq(|g|, i requires 0 <= i < |g| =>
      seq(|g[i]|, j requires 0 <= j < |g[i]| => BlockEntry(g, v, m, i, j)));
    assert forall i :: 0 <= i < |e| ==> |e[i]| == |g[0]|;
    e
  }

  lemma EmbedBlockAt(g: Matrix, v: Matrix, m: seq<bool>, i: nat, j: nat)
    requires BlockFits(v, Count(m)) && i < |g| && j < |g[i]|
    ensures i < |EmbedBlock(g, v, m)| && j < |EmbedBlock(g, v, m)[i]|
    ensures EmbedBlock(g, v, m)[i][j] == BlockEntry(g, v, m, i, j)
  {
  }

  /** `g[numpy.ix_(m, m)]`: the selected block, read back. */
  function ExtractBlock(g: Matrix, m: seq<bool>): (b: Matrix)
    requires InBounds(m, |g|, Width(g))
    ensures HasShape(b, Count(m), Count(m))
  {
    var pos := Selected(m);
    seq(Count(m), a requires 0 <= a < Count(m) =>
      seq(Count(m), c requires 0 <= c < Count(m) => g[pos[a]][pos[c]]))
  }

  /** Writing a block of the exact shape and reading it back returns it. */
  lemma EmbedThenExtract(g: Matrix, v: Matrix, m: seq<bool>)
    requires InBounds(m, |g|, Width(g)) && HasShape(v, Count(m), Count(m))
    ensures BlockFits(v, Count(m))
    ensures ExtractBlock(EmbedBlock(g, v, m), m) == v
  {
    var k := Count(m);
    assert BlockFits(v, k);
    var e := EmbedBlock(g, v, m);
    var pos := Selected(m);
    var x := ExtractBlock(e, m);
    forall a, c | 0 <= a < k && 0 <= c < k
      ensures x[a][c] == v[a][c]
    {
      assert x[a][c] == e[pos[a]][pos[c]];
      EmbedBlockAt(g, v, m, pos[a], pos[c]);
      assert Bc(|v|, a) == a && Bc(Width(v), c) == c;
    }
    assert forall a :: 0 <= a < k ==> x[a] == v[a];
  }

  /** Writing back the block already there changes nothing. */
  lemma ExtractThenEmbed(g: Matrix, m: seq<bool>)
    requires InBounds(m, |g|, Width(g))
    ensures BlockFits(ExtractBlock(g, m), Count(m))
    ensures EmbedBlock(g, ExtractBlock(g, m), m) == g
  {
    var k, pos := Count(m), Selected(m);
    var b := ExtractBlock(g, m);
    var e := EmbedBlock(g, b, m);
    forall i, j | 0 <= i < |g| && 0 <= j < |g[i]|
      ensures e[i][j] == g[i][j]
    {
      if i < |m| && m[i] && j < |m| && m[j] {
        SelectedAtRank(m, i);
        SelectedAtRank(m, j);
        var ri, rj := Rank(m, i), Rank(m, j);
        assert Bc(|b|, ri) == ri && Bc(Width(b), rj) == rj;
        calc {
          e[i][j];
          BlockEntry(g, b, m, i, j);
          b[ri][rj];
          g[pos[ri]][pos[rj]];
        }
      }
    }
    assert forall i :: 0 <= i < |g| ==> e[i] == g[i];
  }

  /** A second block write over the same mask replaces the first entirely. */
  lemma EmbedTwice(g: Matrix, v: Matrix, w: Matrix, m: seq<bool>)
    requires BlockFits(v, Count(m)) && BlockFits(w, Count(m))
    ensures EmbedBlock(EmbedBlock(g, v, m), w, m) == EmbedBlock(g, w, m)
  {
    var a, b := EmbedBlock(EmbedBlock(g, v, m), w, m), EmbedBlock(g, w, m);
    assert forall i :: 0 <= i < |g| ==> a[i] == b[i];
  }

  /** Rank of row/column i of the repeated mask, from the rank of its qubit i / 2. */
  lemma RepeatRankAt(mask: seq<bool>, i: nat)
    requires i < 2 * |mask| && mask[i / 2]
    ensures Repeat2(mask)[i] && Rank(Repeat2(mask), i) == 2 * Rank(mask, i / 2) + i % 2
  {
    RepeatRank(mask, i / 2);
  }

  /** An entry in a row or a column of an unflagged qubit keeps its value. */
  lemma EmbedQubitsOutside(g: Matrix, v: Matrix, mask: seq<bool>, i: nat, j: nat)
    requires HasShape(g, 2 * |mask|, 2 * |mask|) && BlockFits(v, Count(Repeat2(mask)))
    requires i < 2 * |mask| && j < 2 * |mask| && !(mask[i / 2] && mask[j / 2])
    ensures EmbedBlock(g, v, Repeat2(mask))[i][j] == g[i][j]
  {
    Repeat2At(mask, i);
    Repeat2At(mask, j);
    EmbedBlockAt(g, v, Repeat2(mask), i, j);
  }

  /** An entry (i, j) with both qubits flagged is taken from the small map at
      the same parts (X for an even index, Z for an odd one) of the qubits
      Rank(mask, i / 2) and Rank(mask, j / 2). */
  lemma EmbedQubitsInside(g: Matrix, v: Matrix, mask: seq<bool>, i: nat, j: nat)
    requires HasShape(g, 2 * |mask|, 2 * |mask|) && HasShape(v, 2 * Count(mask), 2 * Count(mask))
    requires i < 2 * |mask| && j < 2 * |mask| && mask[i / 2] && mask[j / 2]
    ensures BlockFits(v, Count(Repeat2(mask)))
    ensures 2 * Rank(mask, i / 2) + i % 2 < |v| && 2 * Rank(mask, j / 2) + j % 2 < |v|
    ensures EmbedBlock(g, v, Repeat2(mask))[i][j] == v[2 * Rank(mask, i / 2) + i % 2][2 * Rank(mask, j / 2) + j % 2]
  {
    CountRepeat2(mask);
    var m2 := Repeat2(mask);
    RepeatRankAt(mask, i);
    RepeatRankAt(mask, j);
    var ri, rj := Rank(m2, i), Rank(m2, j);
    assert ri < |v| && rj < |v|;
    assert Bc(|v|, ri) == ri && Bc(Width(v), rj) == rj;
    EmbedBlockAt(g, v, m2, i, j);
  }

  /** Every entry in a row or a column of an unflagged qubit keeps its value. */
  lemma EmbedKeepsUnflagged(g: Matrix, v: Matrix, mask: seq<bool>)
    requires HasShape(g, 2 * |mask|, 2 * |mask|) && BlockFits(v, Count(Repeat2(mask)))
    ensures forall i, j :: 0 <= i < 2 * |mask| && 0 <= j < 2 * |mask| && !(mask[i / 2] && mask[j / 2]) ==>
      EmbedBlock(g, v, Repeat2(mask))[i][j] == g[i][j]
  {
    forall i, j | 0 <= i < 2 * |mask| && 0 <= j < 2 * |mask| && !(mask[i / 2] && mask[j / 2])
      ensures EmbedBlock(g, v, Repeat2(mask))[i][j] == g[i][j]
    {
      EmbedQubitsOutside(g, v, mask, i, j);
    }
  }

  /** In-place `a[numpy.ix_(m, m)] = v`. */
  method WriteBlock(a: array2<int>, v: Matrix, m: seq<bool>)
    requires InBounds(m, a.Length0, a.Length1) && BlockFits(v, Count(m))
    modifies a
    ensures Rows(a) == EmbedBlock(old(Rows(a)), v, m)
  {
    ghost var g := Rows(a);
    var i := 0;
    while i < a.Length0
      invariant 0 <= i <= a.Length0
      invariant forall x, y :: 0 <= x < a.Length0 && 0 <= y < a.Length1 ==>
        a[x, y] == if x < i then BlockEntry(g, v, m, x, y) else g[x][y]
    {
      if i < |m| && m[i] {
        var j := 0;
        while j < a.Length1
          invariant 0 <= j <= a.Length1
          invariant forall x, y :: 0 <= x < a.Length0 && 0 <= y < a.Length1 ==>
            a[x, y] == if x < i || (x == i && y < j) then BlockEntry(g, v, m, x, y) else g[x][y]
        {
          if j < |m| && m[j] {
            a[i, j] := v[Bc(|v|, Rank(m, i))][Bc(Width(v), Rank(m, j))];
          }
          j := j + 1;
        }
      }
      i := i + 1;
    }
    var e := EmbedBlock(g, v, m);
    assert forall x :: 0 <= x < a.Length0 ==> Rows(a)[x] == e[x];
  }

  // ---- one-dimensional boolean index: self.ps[m] = vals ----

  /** `p[m] = vals` for a boolean index of the array's own length. */
  function EmbedPhases(p: seq<int>, vals: seq<int>, m: seq<bool>): (e: seq<int>)
    requires |m| == |p| && Fits(vals, Count(m))
    ensures |e| == |p|
  {
    seq(|p|, i requires 0 <= i < |p| => if m[i] then vals[Bc(|vals|, Rank(m, i))] else p[i])
  }

  /** `p[m]`: the selected entries, read back. */
  function ExtractPhases(p: seq<int>, m: seq<bool>): (s: seq<int>)
    requires |m| == |p|
    ensures |s| == Count(m)
  {
    seq(Count(m), a requires 0 <= a < Count(m) => p[Selected(m)[a]])
  }

  lemma EmbedPhasesThenExtract(p: seq<int>, vals: seq<int>, m: seq<bool>)
    requires |m| == |p| && |vals| == Count(m)
    ensures ExtractPhases(EmbedPhases(p, vals, m), m) == vals
  {
    var e := EmbedPhases(p, vals, m);
    var x, pos := ExtractPhases(e, m), Selected(m);
    forall a | 0 <= a < |vals| ensures x[a] == vals[a] {
      assert x[a] == e[pos[a]];
      assert Rank(m, pos[a]) == a && Bc(|vals|, a) == a;
    }
  }

  lemma ExtractPhasesThenEmbed(p: seq<int>, m: seq<bool>)
    requires |m| == |p|
    ensures EmbedPhases(p, ExtractPhases(p, m), m) == p
  {
    var e := EmbedPhases(p, ExtractPhases(p, m), m);
    forall i | 0 <= i < |p| && m[i] ensures e[i] == p[i] {
      SelectedAtRank(m, i);
    }
  }

  /** The phases of unflagged qubits keep their values. */
  lemma EmbedPhasesKeepsUnflagged(p: seq<int>, vals: seq<int>, mask: seq<bool>)
    requires |p| == 2 * |mask| && Fits(vals, Count(Repeat2(mask)))
    ensures forall i :: 0 <= i < 2 * |mask| && !mask[i / 2] ==> EmbedPhases(p, vals, Repeat2(mask))[i] == p[i]
  {
    forall i | 0 <= i < 2 * |mask| && !mask[i / 2]
      ensures EmbedPhases(p, vals, Repeat2(mask))[i] == p[i]
    {
      Repeat2At(mask, i);
    }
  }

  /** In-place `a[m] = vals`. */
  method WriteMasked(a: array<int>, vals: seq<int>, m: seq<bool>)
    requires |m| == a.Length && Fits(vals, Count(m))
    modifies a
    ensures a[..] == EmbedPhases(old(a[..]), vals, m)
  {
    var i := 0;
    while i < a.Length
      invariant 0 <= i <= a.Length
      invariant forall x :: 0 <= x < a.Length ==>
        a[x] == if x < i && m[x] then vals[Bc(|vals|, Rank(m, x))] else old(a[x])
    {
      if m[i] {
        a[i] := vals[Bc(|vals|, Rank(m, i))];
      }
      i := i + 1;
    }
  }
}
