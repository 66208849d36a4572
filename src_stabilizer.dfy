/** The src copy of the module (src/stabilizer.py): the same classes and
    constructors as the build copy, with `StabilizerState.__init__` keeping the
    phases it is given (r starts at 0), `expect` limited to Pauli lists and
    states, `entropy` passing its region to the helper unchanged, the
    enumeration `stabilizer_group`, and `stabilizer_state` projecting the
    stabilizers in their given order and writing their phases reversed. */
module SrcStabilizer {
  import opened Errors
  import opened Slicing
  import opened Numpy
  import opened Masks
  import opened Tableau
  import opened Helpers
  import opened Core

  // ---- values the operations produce ----

  /** `StabilizerState.copy`: tableau, phases and r all kept. */
  function CopyOf(t: Tab): (c: Tab)
    ensures c == t
  {
    Tab(t.gs, t.ps, RankOrZero(Some(t.r)))
  }

  /** `CliffordMap.to_state(r)`: the state generated by the map from the zero
      state, with the phases `map_to_state` computes. */
  function StateOfMap(b: Backend, m: Paulis, arg: Option<int>): Tab
  {
    var st := b.mapToState(m.gs, m.ps);
    Tab(st.gs, st.ps, RankOrZero(arg))
  }

  /** HELPER CONTRACT (assumed, not shown): `map_to_state` of the N-qubit
      identity gives a 2N-by-2N tableau with one phase per row. */
  predicate IdentityStateShape(b: Backend, n: nat)
  {
    var st := b.mapToState(IdentityValue(b, n).gs, IdentityValue(b, n).ps);
    HasShape(st.gs, 2 * n, 2 * n) && |st.ps| == 2 * n
  }

  /** What `expect` accepts: a PauliList (a CliffordMap among them) or a state. */
  datatype Observable = List(terms: Paulis) | OfState(state: Tab)

  /** `StabilizerState.expect(obs)`: one value per observed Pauli; a state
      observable is measured as the list of its active stabilizers. */
  function Expect(b: Backend, t: Tab, obs: Observable): (xs: seq<int>)
    decreases if obs.OfState? then 1 else 0
    ensures obs.List? ==> xs == b.stabilizerExpect(t.gs, t.ps, obs.terms.gs, obs.terms.ps, t.r)
    ensures obs.OfState? ==> xs == Expect(b, t, List(Stabilizers(obs.state)))
  {
    var o := match obs case List(terms) => terms case OfState(s) => Stabilizers(s);
    b.stabilizerExpect(t.gs, t.ps, o.gs, o.ps, t.r)
  }

  /** `StabilizerState.entropy(mask)`: the active stabilizers and the region,
      as given, go to the helper. */
  function Entropy(b: Backend, t: Tab, region: Region): (e: int)
    ensures IsTableau(t) && RankInRange(t) ==>
      exists v :: e == b.stabilizerEntropy(v, region) && |v| == Qubits(t.gs) - t.r &&
        forall k :: 0 <= k < |v| ==> v[k] == t.gs[t.r + k]
  {
    b.stabilizerEntropy(Stabilizers(t).gs, region)
  }

  /** `stabilizer_group()`: `binary_repr(numpy.arange(2**(N - r)))` lists
      every subset of the active stabilizers, and `pauli_combine` multiplies
      each subset out. On a tableau the integers enumerated number 2 to the
      count of active stabilizers. */
  function StabilizerGroup(b: Backend, t: Tab): (g: Paulis)
    requires t.r <= Qubits(t.gs)
    ensures IsTableau(t) && 0 <= t.r ==>
      g == b.pauliCombine(b.binaryRepr(Arange(Pow2(|Stabilizers(t).gs|))), Stabilizers(t).gs, Stabilizers(t).ps)
  {
    var c := b.binaryRepr(Arange(Pow2(Qubits(t.gs) - t.r)));
    b.pauliCombine(c, RowSlice(t.gs, t.r, Qubits(t.gs)), Slice(t.ps, t.r, Qubits(t.gs)))
  }

  /** When `binary_repr` writes each integer's bits, the coefficient rows of
      `stabilizer_group` on K active stabilizers are 2^K rows of K bits, no two
      alike, and every row of K bits is among them: every subset of the active
      stabilizers is multiplied out exactly once. */
  lemma StabilizerGroupEnumerates(b: Backend, t: Tab)
    requires IsTableau(t) && RankInRange(t) && BinaryReprEnumerates(b, Qubits(t.gs) - t.r)
    ensures var k := |Stabilizers(t).gs|; var c := b.binaryRepr(Arange(Pow2(k)));
      StabilizerGroup(b, t) == b.pauliCombine(c, Stabilizers(t).gs, Stabilizers(t).ps) &&
      IsCoefficients(c, Pow2(k), k) &&
      (forall i, j :: 0 <= i < j < |c| ==> c[i] != c[j]) &&
      (forall v :: IsBitRow(v, k) ==> exists i :: 0 <= i < |c| && c[i] == v)
  {
    var k := |Stabilizers(t).gs|;
    var c := b.binaryRepr(Arange(Pow2(k)));
    forall i, j | 0 <= i < j < |c| ensures c[i] != c[j] {
      ValueOfBits(i, k);
      ValueOfBits(j, k);
    }
    forall v | IsBitRow(v, k) ensures exists i :: 0 <= i < |c| && c[i] == v {
      BitsOfValue(v);
      var i := BitsValue(v);
      assert c[i] == v;
    }
  }

  /** `stabilizer_state(stabilizers)`: ValueError unless the stabilizers
      commute; otherwise the maximally mixed state (r = N) is projected onto
      the stabilizers in their given order, and their phases are written, in
      reverse (numpy.flip), into the active rows [r, N). */
  function FromStabilizers(b: Backend, stabs: Paulis): (res: Result<Tab>)
    ensures !AllZero(b.acqMat(stabs.gs)) ==> res == Err(ValueError)
    ensures res.Err? ==> res.error == ValueError
  {
    if !AllZero(b.acqMat(stabs.gs)) then Err(ValueError)
    else
      var n := Qubits(stabs.gs);
      var mixed := StateOfMap(b, IdentityValue(b, n), Some(n));
      var proj := b.stabilizerProject(mixed.gs, stabs.gs, mixed.r);
      match AssignSlice(mixed.ps, proj.r, Qubits(proj.gs), Flip(stabs.ps))
      case Ok(p) => Ok(Tab(proj.gs, p, proj.r))
      case Err(e) => Err(e)
  }

  /** For commuting stabilizers and a projection that leaves r in [0, N],
      the construction succeeds exactly when the phases broadcast onto the
      active rows: one phase per active row (N - r of them), or a single phase
      for all of them; otherwise numpy raises ValueError. */
  lemma FromStabilizersPhaseCount(b: Backend, stabs: Paulis)
    requires AllZero(b.acqMat(stabs.gs))
    requires var n := Qubits(stabs.gs);
      var mixed := StateOfMap(b, IdentityValue(b, n), Some(n));
      var proj := b.stabilizerProject(mixed.gs, stabs.gs, n);
      0 <= proj.r <= Qubits(proj.gs) <= |mixed.ps|
    ensures var n := Qubits(stabs.gs);
      var mixed := StateOfMap(b, IdentityValue(b, n), Some(n));
      var proj := b.stabilizerProject(mixed.gs, stabs.gs, n);
      FromStabilizers(b, stabs).Ok? <==> |stabs.ps| == Qubits(proj.gs) - proj.r || |stabs.ps| == 1
  {
  }

  /** For commuting stabilizers and a projection that leaves r in [0, N], with
      one phase per active row or a single phase: the result has the projected
      tableau and r, active row r + k carries the phase of stabilizer K - 1 - k
      (K of them) or the single phase, broadcast, and every other phase is that
      of the maximally mixed state. */
  lemma FromStabilizersActivePhases(b: Backend, stabs: Paulis)
    requires AllZero(b.acqMat(stabs.gs))
    requires var n := Qubits(stabs.gs);
      var mixed := StateOfMap(b, IdentityValue(b, n), Some(n));
      var proj := b.stabilizerProject(mixed.gs, stabs.gs, n);
      0 <= proj.r <= Qubits(proj.gs) <= |mixed.ps| &&
      (|stabs.ps| == Qubits(proj.gs) - proj.r || |stabs.ps| == 1)
    ensures var n := Qubits(stabs.gs);
      var mixed := StateOfMap(b, IdentityValue(b, n), Some(n));
      var proj := b.stabilizerProject(mixed.gs, stabs.gs, n);
      var res := FromStabilizers(b, stabs);
      res.Ok? && res.value.gs == proj.gs && res.value.r == proj.r && |res.value.ps| == |mixed.ps| &&
      (forall k :: proj.r <= k < Qubits(proj.gs) ==> res.value.ps[k] == stabs.ps[|stabs.ps| - 1 - Bc(|stabs.ps|, k - proj.r)]) &&
      (forall k :: 0 <= k < |mixed.ps| && !(proj.r <= k < Qubits(proj.gs)) ==> res.value.ps[k] == mixed.ps[k])
  {
  }

  // ---- the classes ----

  class CliffordMap {
    var gs: array2<int>
    var ps: array<int>

    /** The map as a value: row 2i is the image of X_i, row 2i + 1 that of Z_i. */
    function Value(): Paulis
      reads this, gs, ps
    {
      Paulis(Rows(gs), ps[..])
    }

    /** `CliffordMap(gs, ps)` on freshly computed arrays. */
    constructor (g: Matrix, p: seq<int>)
      ensures fresh(gs) && fresh(ps) && Value() == Paulis(g, p)
    {
      var a := FromRows(g);
      var q := FromSeq(p);
      gs, ps := a, q;
    }

    method Copy() returns (c: CliffordMap)
      ensures fresh(c) && fresh(c.gs) && fresh(c.ps) && c.Value() == Value()
    {
      c := new CliffordMap(Rows(gs), ps[..]);
    }

    /** The map read as a state, keeping the phases `map_to_state` computes. */
    method ToState(b: Backend, arg: Option<int>) returns (s: StabilizerState)
      ensures fresh(s) && fresh(s.gs) && fresh(s.ps)
      ensures s.Value() == StateOfMap(b, Value(), arg)
    {
      var st := b.mapToState(Rows(gs), ps[..]);
      s := new StabilizerState(st.gs, st.ps);
      s := s.SetR(arg);
    }

    /** In-place `embed`; returns the map itself, or the exception raised
        part-way, leaving what was written before it. */
    method Embed(small: CliffordMap, mask: seq<bool>) returns (res: Result<CliffordMap>)
      modifies gs, ps
      ensures var e := Core.Embed(old(Rows(gs)), old(ps[..]), old(small.Value()), mask);
        Rows(gs) == e.gs && ps[..] == e.ps &&
        (if e.error.None? then res == Ok(this) else res == Err(e.error.value))
    {
      var sv := small.Value();
      var m2 := Repeat2(mask);
      var k := Count(m2);
      ghost var g0, p0 := Rows(gs), ps[..];
      assert InBounds(m2, gs.Length0, gs.Length1) == InBounds(m2, |g0|, Width(g0));
      if !BlockFits(sv.gs, k) {
        return Err(ValueError);
      }
      if !InBounds(m2, gs.Length0, gs.Length1) {
        return Err(IndexError);
      }
      WriteBlock(gs, sv.gs, m2);
      if |m2| != ps.Length {
        return Err(IndexError);
      }
      if !Fits(sv.ps, k) {
        return Err(ValueError);
      }
      WriteMasked(ps, sv.ps, m2);
      return Ok(this);
    }

    /** `compose(other)`: this map transforms first; neither operand changes. */
    method Compose(b: Backend, other: CliffordMap) returns (c: CliffordMap)
      ensures fresh(c) && fresh(c.gs) && fresh(c.ps)
      ensures c.Value() == b.pauliTransform(Rows(gs), ps[..], Rows(other.gs), other.ps[..])
    {
      var t := b.pauliTransform(Rows(gs), ps[..], Rows(other.gs), other.ps[..]);
      c := new CliffordMap(t.gs, t.ps);
    }

    method Inverse(b: Backend) returns (c: CliffordMap)
      requires InverseContract(b, Value())
      ensures fresh(c) && fresh(c.gs) && fresh(c.ps)
      ensures c.Value() == Core.Inverse(b, Value())
    {
      var v := Core.Inverse(b, Value());
      c := new CliffordMap(v.gs, v.ps);
    }
  }

  /** What `measure` is given: a list of Paulis, or a state whose active
      stabilizers are measured. */
  datatype Target = ListTarget(rows: Paulis) | StateTarget(state: StabilizerState)

  function Observed(obs: Target): Paulis
    reads if obs.StateTarget? then {obs.state, obs.state.gs, obs.state.ps} else {}
  {
    match obs
    case ListTarget(rows) => rows
    case StateTarget(s) => Stabilizers(s.Value())
  }

  class StabilizerState {
    var gs: array2<int>
    var ps: array<int>
    var r: int

    /** The state as a value: rows [r, N) are its active stabilizers. */
    function Value(): Tab
      reads this, gs, ps
    {
      Tab(Rows(gs), ps[..], r)
    }

    /** `StabilizerState(gs, ps)`: the phases are kept and r starts at 0. */
    constructor (g: Matrix, p: seq<int>)
      ensures fresh(gs) && fresh(ps) && Value() == Tab(g, p, 0)
    {
      var a := FromRows(g);
      var q := FromSeq(p);
      gs, ps, r := a, q, 0;
    }

    /** `copy()`: a new state with equal tableau, phases and r. */
    method Copy() returns (c: StabilizerState)
      ensures fresh(c) && fresh(c.gs) && fresh(c.ps)
      ensures c.Value() == CopyOf(Value())
    {
      c := new StabilizerState(Rows(gs), ps[..]);
      c := c.SetR(Some(r));
    }

    /** `set_r(r)`: only r changes; the state itself is returned. */
    method SetR(arg: Option<int>) returns (self: StabilizerState)
      modifies this`r
      ensures self == this && r == RankOrZero(arg)
    {
      r := RankOrZero(arg);
      return this;
    }

    method ToMap(b: Backend) returns (m: CliffordMap)
      ensures fresh(m) && fresh(m.gs) && fresh(m.ps)
      ensures m.Value() == b.stateToMap(Rows(gs), ps[..])
    {
      var v := b.stateToMap(Rows(gs), ps[..]);
      m := new CliffordMap(v.gs, v.ps);
    }

    /** `measure(obs)`: the tableau, phases and r are replaced by what
        `stabilizer_measure` returns for the observed rows, read before the
        update; an observable state other than this one is left untouched. */
    method Measure(b: Backend, obs: Target) returns (out: seq<int>, log2prob: real)
      modifies this
      ensures var o := old(Observed(obs));
        var m := b.stabilizerMeasure(old(Rows(gs)), old(ps[..]), o.gs, o.ps, old(r));
        Value() == Tab(m.gs, m.ps, m.r) && out == m.out && log2prob == m.log2prob
      ensures fresh(gs) && fresh(ps)
      ensures obs.StateTarget? && obs.state != this ==> obs.state.Value() == old(obs.state.Value())
    {
      var o := Observed(obs);
      var m := b.stabilizerMeasure(Rows(gs), ps[..], o.gs, o.ps, r);
      var a := FromRows(m.gs);
      var q := FromSeq(m.ps);
      gs, ps, r := a, q, m.r;
      out, log2prob := m.out, m.log2prob;
    }
  }

  // ---- map and state constructors ----

  method IdentityMap(b: Backend, n: nat) returns (m: CliffordMap)
    ensures fresh(m) && fresh(m.gs) && fresh(m.ps)
    ensures m.Value() == IdentityValue(b, n)
  {
    m := new CliffordMap(Identity(2 * n), b.defaultPhases(Identity(2 * n)));
  }

  /** `clifford_rotation_map(gen)` for the Pauli `gen` = (g, p) on |g| / 2
      qubits: the rotation applied to the identity strings with zero phases. */
  method CliffordRotationMap(b: Backend, g: seq<int>, p: int) returns (m: CliffordMap)
    ensures fresh(m) && fresh(m.gs) && fresh(m.ps)
    ensures m.Value() == b.cliffordRotate(g, p, Identity(2 * (|g| / 2)), Zeros(2 * (|g| / 2)))
  {
    var n := |g| / 2;
    var v := b.cliffordRotate(g, p, Identity(2 * n), Zeros(2 * n));
    m := new CliffordMap(v.gs, v.ps);
  }

  method MaximallyMixedState(b: Backend, n: nat) returns (s: StabilizerState)
    ensures fresh(s) && fresh(s.gs) && fresh(s.ps)
    ensures s.Value() == StateOfMap(b, IdentityValue(b, n), Some(n)) && s.r == n
    ensures IdentityStateShape(b, n) ==>
      IsTableau(s.Value()) && RankInRange(s.Value()) && Stabilizers(s.Value()) == Paulis([], [])
  {
    var id := IdentityMap(b, n);
    s := id.ToState(b, Some(n));
    if IdentityStateShape(b, n) {
      ActiveCountAtExtremes(s.Value());
    }
  }

  method ZeroState(b: Backend, n: nat) returns (s: StabilizerState)
    ensures fresh(s) && fresh(s.gs) && fresh(s.ps)
    ensures s.Value() == StateOfMap(b, IdentityValue(b, n), None) && s.r == 0
    ensures IdentityStateShape(b, n) ==>
      IsTableau(s.Value()) && RankInRange(s.Value()) && |Stabilizers(s.Value()).gs| == n
  {
    var id := IdentityMap(b, n);
    s := id.ToState(b, None);
    if IdentityStateShape(b, n) {
      ActiveCountAtExtremes(s.Value());
    }
  }

  /** `stabilizer_state(stabilizers)` for an already parsed PauliList. */
  method StabilizerStateOf(b: Backend, stabs: Paulis) returns (res: Result<StabilizerState>)
    ensures res.Err? ==> FromStabilizers(b, stabs) == Err(res.error)
    ensures res.Ok? ==> fresh(res.value) && FromStabilizers(b, stabs) == Ok(res.value.Value())
  {
    if !AllZero(b.acqMat(stabs.gs)) {
      return Err(ValueError);
    }
    var n := Qubits(stabs.gs);
    var state := MaximallyMixedState(b, n);
    var proj := b.stabilizerProject(Rows(state.gs), stabs.gs, state.r);
    var a := FromRows(proj.gs);
    state.gs, state.r := a, proj.r;
    var ok := WriteSlice(state.ps, state.r, Qubits(Rows(state.gs)), Flip(stabs.ps));
    if !ok {
      return Err(ValueError);
    }
    return Ok(state);
  }
}
