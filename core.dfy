/** Operations whose code is the same in both copies of the module: the value
    computations behind CliffordMap.inverse and CliffordMap.embed, and the
    sampling of the stabilizer group. The classes of each copy call these. */
module Core {
  import opened Errors
  import opened Slicing
  import opened Numpy
  import opened Masks
  import opened Tableau
  import opened Helpers

  /** `identity_map(N)`: `CliffordMap(numpy.eye(2N))`, with the phases PauliList
      gives a list built without phases. */
  function IdentityValue(b: Backend, n: nat): (v: Paulis)
    ensures HasShape(v.gs, 2 * n, 2 * n) && v.ps == b.defaultPhases(v.gs)
    ensures forall i, j :: 0 <= i < 2 * n && 0 <= j < 2 * n ==> v.gs[i][j] == if i == j then 1 else 0
  {
    Paulis(Identity(2 * n), b.defaultPhases(Identity(2 * n)))
  }

  // ---- CliffordMap.inverse ----

  /** The inverse map: its Pauli strings are the GF(2) inverse of the map's,
      and its phases are the unique values in [0, 4) that cancel, mod 4, the
      phase mismatch `pauli_combine` reports plus the default phases of the
      inverse strings. */
  function Inverse(b: Backend, m: Paulis): (inv: Paulis)
    requires InverseContract(b, m)
    ensures inv.gs == b.z2inv(m.gs)
    ensures var mis, base := b.pauliCombine(inv.gs, m.gs, m.ps).ps, b.ps0(inv.gs);
      |inv.ps| == |mis| &&
      forall i :: 0 <= i < |inv.ps| ==> 0 <= inv.ps[i] < 4 && (inv.ps[i] + mis[i] + base[i]) % 4 == 0
  {
    var gsInv := b.z2inv(m.gs);
    var mis := b.pauliCombine(gsInv, m.gs, m.ps).ps;
    Paulis(gsInv, InversePhases(mis, b.ps0(gsInv)))
  }

  /** Any phase vector in [0, 4) that cancels the mismatch is the one `Inverse` returns. */
  lemma InverseDetermined(b: Backend, m: Paulis, q: seq<int>)
    requires InverseContract(b, m)
    requires var inv := b.z2inv(m.gs);
      var mis, base := b.pauliCombine(inv, m.gs, m.ps).ps, b.ps0(inv);
      |q| == |mis| && forall i :: 0 <= i < |q| ==> 0 <= q[i] < 4 && (q[i] + mis[i] + base[i]) % 4 == 0
    ensures Inverse(b, m).ps == q
  {
    var inv := b.z2inv(m.gs);
    InversePhasesUnique(b.pauliCombine(inv, m.gs, m.ps).ps, b.ps0(inv), q);
  }

  // ---- CliffordMap.embed ----

  /** What `embed` leaves in `gs` and `ps`, and the exception it raises, if any. */
  datatype Embedded = Embedded(gs: Matrix, ps: seq<int>, error: Option<Error>)

  /** `mask2 = numpy.repeat(mask, 2)`, then `gs[numpy.ix_(mask2, mask2)] = small.gs`,
      then `ps[mask2] = small.ps`. numpy.ix_ turns the boolean mask into the
      indices of its True entries, so the block write needs the small strings
      to broadcast onto the block (ValueError, checked while numpy sets up the
      assignment) and those indices to be in range (IndexError, checked next,
      before anything is written); the phase write needs a mask as long as
      `ps` (IndexError) and phases that broadcast (ValueError). A failure of
      the phase write comes after the block write, which stays in place. */
  function Embed(g: Matrix, p: seq<int>, small: Paulis, mask: seq<bool>): (e: Embedded)
    ensures HasShape(e.gs, |g|, Width(g)) && |e.ps| == |p|
    ensures var m2 := Repeat2(mask); var k := Count(m2);
      e.error.None? <==>
        InBounds(m2, |g|, Width(g)) && BlockFits(small.gs, k) && |m2| == |p| && Fits(small.ps, k)
    ensures var m2 := Repeat2(mask);
      !BlockFits(small.gs, Count(m2)) ==> e == Embedded(g, p, Some(ValueError))
    ensures var m2 := Repeat2(mask);
      BlockFits(small.gs, Count(m2)) && !InBounds(m2, |g|, Width(g)) ==> e == Embedded(g, p, Some(IndexError))
    ensures var m2 := Repeat2(mask);
      BlockFits(small.gs, Count(m2)) && InBounds(m2, |g|, Width(g)) ==> e.gs == EmbedBlock(g, small.gs, m2)
    ensures var m2 := Repeat2(mask);
      BlockFits(small.gs, Count(m2)) && InBounds(m2, |g|, Width(g)) && |m2| != |p| ==> e.error == Some(IndexError)
    ensures var m2 := Repeat2(mask);
      BlockFits(small.gs, Count(m2)) && InBounds(m2, |g|, Width(g)) && |m2| == |p| && !Fits(small.ps, Count(m2)) ==>
        e.error == Some(ValueError)
    ensures e.error.Some? ==> e.ps == p
    ensures var m2 := Repeat2(mask);
      e.error.None? ==> |m2| == |p| && Fits(small.ps, Count(m2)) && e.ps == EmbedPhases(p, small.ps, m2)
  {
    var m2 := Repeat2(mask);
    var k := Count(m2);
    if !BlockFits(small.gs, k) then Embedded(g, p, Some(ValueError))
    else if !InBounds(m2, |g|, Width(g)) then Embedded(g, p, Some(IndexError))
    else
      var g2 := EmbedBlock(g, small.gs, m2);
      if |m2| != |p| then Embedded(g2, p, Some(IndexError))
      else if !Fits(small.ps, k) then Embedded(g2, p, Some(ValueError))
      else Embedded(g2, EmbedPhases(p, small.ps, m2), None)
  }

  /** Embedding an n'-qubit map into an n-qubit map along a mask of n flags,
      n' of them set, succeeds, and reading the flagged qubits' block and
      phases back gives the small map. */
  lemma EmbedWellShaped(g: Matrix, p: seq<int>, small: Paulis, mask: seq<bool>)
    requires HasShape(g, 2 * |mask|, 2 * |mask|) && |p| == 2 * |mask|
    requires HasShape(small.gs, 2 * Count(mask), 2 * Count(mask)) && |small.ps| == 2 * Count(mask)
    ensures Embed(g, p, small, mask).error.None?
    ensures ExtractBlock(Embed(g, p, small, mask).gs, Repeat2(mask)) == small.gs
    ensures ExtractPhases(Embed(g, p, small, mask).ps, Repeat2(mask)) == small.ps
  {
    var m2 := Repeat2(mask);
    CountRepeat2(mask);
    assert InBounds(m2, |g|, Width(g));
    EmbedThenExtract(g, small.gs, m2);
    EmbedPhasesThenExtract(p, small.ps, m2);
  }

  /** In the same situation every entry in a row or a column of an unflagged
      qubit, and every phase of one, is unchanged. */
  lemma EmbedKeepsOtherQubits(g: Matrix, p: seq<int>, small: Paulis, mask: seq<bool>)
    requires HasShape(g, 2 * |mask|, 2 * |mask|) && |p| == 2 * |mask|
    requires HasShape(small.gs, 2 * Count(mask), 2 * Count(mask)) && |small.ps| == 2 * Count(mask)
    ensures forall i, j :: 0 <= i < 2 * |mask| && 0 <= j < 2 * |mask| && !(mask[i / 2] && mask[j / 2]) ==>
      Embed(g, p, small, mask).gs[i][j] == g[i][j]
    ensures forall i :: 0 <= i < 2 * |mask| && !mask[i / 2] ==> Embed(g, p, small, mask).ps[i] == p[i]
  {
    var m2 := Repeat2(mask);
    CountRepeat2(mask);
    assert InBounds(m2, |g|, Width(g));
    EmbedKeepsUnflagged(g, small.gs, mask);
    EmbedPhasesKeepsUnflagged(p, small.ps, mask);
  }

  /** Embedding along a mask whose doubled length differs from the number of
      phases, when the block write itself is in range and fits, raises
      IndexError after the block has been written: the map is left with the
      new block and its old phases. */
  lemma EmbedFailsAfterBlockWrite(g: Matrix, p: seq<int>, small: Paulis, mask: seq<bool>)
    requires HasShape(g, |p|, |p|) && 2 * |mask| < |p|
    requires HasShape(small.gs, 2 * Count(mask), 2 * Count(mask)) && |small.ps| == 2 * Count(mask)
    ensures Embed(g, p, small, mask).error == Some(IndexError)
    ensures ExtractBlock(Embed(g, p, small, mask).gs, Repeat2(mask)) == small.gs
    ensures Embed(g, p, small, mask).ps == p
  {
    var m2 := Repeat2(mask);
    CountRepeat2(mask);
    assert InBounds(m2, |g|, Width(g));
    EmbedThenExtract(g, small.gs, m2);
  }

  // ---- StabilizerState.sample ----

  /** `sample(L)`: `numpy.random.randint(2, size=(L, N - r))` is the draw `draw`
      (numpy raises ValueError for a negative dimension); the result combines
      the active stabilizers, rows [r, N), with it. */
  function Sample(b: Backend, t: Tab, count: int, draw: Matrix): (res: Result<Paulis>)
    requires count >= 0 && t.r <= Qubits(t.gs) ==> IsCoefficients(draw, count, Qubits(t.gs) - t.r)
    ensures res.Err? <==> count < 0 || t.r > Qubits(t.gs)
    ensures res.Err? ==> res.error == ValueError
    ensures res.Ok? ==> res.value == b.pauliCombine(draw, Stabilizers(t).gs, Stabilizers(t).ps)
    ensures res.Ok? && IsTableau(t) && RankInRange(t) ==>
      |draw| == count && forall i :: 0 <= i < count ==> |draw[i]| == |Stabilizers(t).gs|
  {
    if count < 0 || t.r > Qubits(t.gs) then Err(ValueError)
    else Ok(b.pauliCombine(draw, RowSlice(t.gs, t.r, Qubits(t.gs)), Slice(t.ps, t.r, Qubits(t.gs))))
  }
}
