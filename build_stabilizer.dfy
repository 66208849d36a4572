/** The build copy of the module (build/lib/pyclifford/stabilizer.py):
    CliffordMap and StabilizerState as classes whose numpy arrays are Dafny
    arrays, and the map and state constructors. In this copy
    `StabilizerState.__init__(self, gs, r=0)` takes no phases, so the calls
    `StabilizerState(gs, ps)` in `copy` and `to_state` bind the phases to `r`
    and the new state gets PauliList's default phases instead. */
module BuildStabilizer {
  import opened Errors
  import opened Slicing
  import opened Numpy
  import opened Masks
  import opened Tableau
  import opened Helpers
  import opened Core

  // ---- values the operations produce ----

  /** `StabilizerState(gs, ps).set_r(r)` in this copy: the phases `p` passed
      as the second argument land in `r`, which `set_r` then overwrites, so the
      state holds the default phases of `gs` and keeps `p` only when `p`
      already is that default. */
  function Rebuilt(b: Backend, g: Matrix, p: seq<int>, arg: Option<int>): (t: Tab)
    ensures t.gs == g && t.r == RankOrZero(arg) && t.ps == b.defaultPhases(t.gs)
    ensures t.ps == p <==> p == b.defaultPhases(g)
  {
    Tab(g, b.defaultPhases(g), RankOrZero(arg))
  }

  /** The state rebuilt this way does not depend on the phases passed. */
  lemma RebuiltIgnoresPhases(b: Backend, g: Matrix, p: seq<int>, q: seq<int>, arg: Option<int>)
    ensures Rebuilt(b, g, p, arg) == Rebuilt(b, g, q, arg)
  {
  }

  /** `StabilizerState.copy`: the tableau and r are kept; the copy equals the
      original exactly when the original holds the default phases. */
  function CopyOf(b: Backend, t: Tab): (c: Tab)
    ensures c.gs == t.gs && c.r == t.r
    ensures c.ps == b.defaultPhases(t.gs)
    ensures c == t <==> t.ps == b.defaultPhases(t.gs)
  {
    Rebuilt(b, t.gs, t.ps, Some(t.r))
  }

  /** `CliffordMap.to_state(r)`: the state generated by the map from the zero
      state; it keeps the phases `map_to_state` computes only when they are
      the default ones. */
  function StateOfMap(b: Backend, m: Paulis, arg: Option<int>): (t: Tab)
    ensures var st := b.mapToState(m.gs, m.ps);
      t.gs == st.gs && t.r == RankOrZero(arg) && (t.ps == st.ps <==> st.ps == b.defaultPhases(st.gs))
    ensures t.ps == b.defaultPhases(b.mapToState(m.gs, m.ps).gs)
  {
    var st := b.mapToState(m.gs, m.ps);
    Rebuilt(b, st.gs, st.ps, arg)
  }

  /** The observables `expect` dispatches on, in the order of its isinstance
      tests (a StabilizerState is also a PauliList, and is caught first). */
  datatype Observable =
    | Single(g: seq<int>, p: int)                   // Pauli
    | Polynomial(terms: Paulis, cs: seq<Complex>)   // PauliPolynomial
    | OfState(state: Tab)                           // StabilizerState
    | List(terms: Paulis)                           // PauliList, CliffordMap
    | Unsupported                                   // any other object: no branch taken

  datatype Expectation =
    | Values(xs: seq<int>)       // one value per Pauli of a list
    | Weighted(sum: Complex)     // numpy.sum(cs * xs)
    | Overlap(trace: real)       // Tr(rho sigma)
    | NoValue                    // the function falls off its end and returns None

  /** A Pauli is promoted to a polynomial, a polynomial to a list. */
  function Promotions(obs: Observable): nat
  {
    match obs
    case Single(_, _) => 2
    case Polynomial(_, _) => 1
    case _ => 0
  }

  /** `StabilizerState.expect(obs)` on the state `t`. A Pauli is promoted
      with `as_polynomial`; when that gives the one-term polynomial of weight
      one, its expectation is the plain sum of the values `stabilizer_expect`
      returns; a polynomial weighs the values of
      its terms, failing when numpy cannot broadcast the weights against them;
      a state observable is measured through its active stabilizers only and
      is refused for a mixed `t`. */
  function Expect(b: Backend, t: Tab, obs: Observable): (res: Result<Expectation>)
    decreases Promotions(obs)
    ensures obs.List? ==> res == Ok(Values(b.stabilizerExpect(t.gs, t.ps, obs.terms.gs, obs.terms.ps, t.r)))
    ensures obs.Polynomial? ==>
      var xs := b.stabilizerExpect(t.gs, t.ps, obs.terms.gs, obs.terms.ps, t.r);
      (res.Ok? <==> Products(obs.cs, xs).Ok?) &&
      (res.Ok? ==> res == Ok(Weighted(Total(Products(obs.cs, xs).value))))
    ensures obs.Single? && AsPolynomialUnit(b, obs.g, obs.p) ==>
      res == Ok(Weighted(Complex(SumInts(b.stabilizerExpect(t.gs, t.ps, [obs.g], [obs.p], t.r)) as real, 0.0)))
    ensures obs.OfState? ==>
      (res.Err? <==> t.r != 0) &&
      (t.r == 0 ==> res == Ok(Overlap(
        b.projectionTrace(t.gs, t.ps, Stabilizers(obs.state).gs, Stabilizers(obs.state).ps, 0) / Pow2Real(obs.state.r))))
    ensures obs.Unsupported? ==> res == Ok(NoValue)
    ensures res.Err? ==>
      (res.error == ValueError && (obs.Polynomial? || obs.Single?)) || (res.error == NotImplementedError && obs.OfState?)
  {
    match obs
    case Single(g, p) =>
      var q := b.asPolynomial(g, p);
      UnitWeightSum(b.stabilizerExpect(t.gs, t.ps, [g], [p], t.r));
      Expect(b, t, Polynomial(q.terms, q.cs))
    case Polynomial(terms, cs) =>
      var xs := Expect(b, t, List(terms)).value.xs;
      (match WeightedSum(cs, xs)
       case Ok(z) => Ok(Weighted(z))
       case Err(e) => Err(e))
    case OfState(s) =>
      if t.r != 0 then Err(NotImplementedError)
      else
        var trace := b.projectionTrace(t.gs, t.ps, RowSlice(s.gs, s.r, Qubits(s.gs)), Slice(s.ps, s.r, Qubits(s.gs)), 0);
        Ok(Overlap(trace / Pow2Real(s.r)))
    case List(terms) => Ok(Values(b.stabilizerExpect(t.gs, t.ps, terms.gs, terms.ps, t.r)))
    case Unsupported => Ok(NoValue)
  }

  /** The flag vector `entropy` hands to the helper: a flag region as given,
      a list of qubit indices through `mask(indices, N)`. */
  function RegionFlags(b: Backend, region: Region, n: nat): seq<bool>
  {
    match region
    case Flags(f) => f
    case Indices(ix) => b.toMask(ix, n)
  }

  /** `StabilizerState.entropy(subsys)`: an empty region has entropy 0 and the
      helper is not consulted; otherwise the helper sees only the active
      stabilizers and always a flag vector, never raw indices. */
  function Entropy(b: Backend, t: Tab, region: Region): (e: int)
    ensures RegionSize(region) == 0 ==> e == 0
    ensures RegionSize(region) != 0 ==>
      exists f :: e == b.stabilizerEntropy(Stabilizers(t).gs, Flags(f)) &&
        (region.Flags? ==> f == region.flags) && (region.Indices? ==> f == b.toMask(region.indices, Qubits(t.gs)))
  {
    if RegionSize(region) == 0 then 0
    else
      var f := RegionFlags(b, region, Qubits(t.gs));
      b.stabilizerEntropy(RowSlice(t.gs, t.r, Qubits(t.gs)), Flags(f))
  }

  /** `identity_map(N).to_state()` with `ps[:N] = readout` written into it. */
  function ReadoutState(b: Backend, n: nat, readout: seq<int>): Result<Tab>
  {
    var st := StateOfMap(b, IdentityValue(b, n), None);
    match AssignSlice(st.ps, 0, n, readout)
    case Ok(p) => Ok(Tab(st.gs, p, st.r))
    case Err(e) => Err(e)
  }

  /** Writing a readout into the identity state succeeds exactly when it
      broadcasts onto the first N phases; a readout of one phase per qubit
      gives the pure identity state whose first N phases are the readout and
      whose other phases are unchanged. */
  lemma ReadoutStateWrites(b: Backend, n: nat, readout: seq<int>)
    requires IdentityStateShape(b, n)
    ensures ReadoutState(b, n, readout).Ok? <==> |readout| == n || |readout| == 1
    ensures var st := StateOfMap(b, IdentityValue(b, n), None);
      |readout| == n ==> ReadoutState(b, n, readout) == Ok(Tab(st.gs, readout + st.ps[n..], 0))
  {
    var st := StateOfMap(b, IdentityValue(b, n), None);
    assert |st.ps| == 2 * n;
    if |readout| == n {
      var p := AssignSlice(st.ps, 0, n, readout).value;
      forall k | 0 <= k < 2 * n ensures p[k] == (readout + st.ps[n..])[k] {
        if k < n {
          assert Bc(|readout|, k) == k;
        }
      }
      assert p == readout + st.ps[n..];
    }
  }

  /** `StabilizerState.get_prob(readout)`. A readout of the wrong length
      evaluates the name `Error`, which the module does not define. */
  function ProbabilityOf(b: Backend, t: Tab, readout: seq<int>): (res: Result<Expectation>)
    ensures |readout| != Qubits(t.gs) ==> res == Err(NameError)
  {
    if Qubits(t.gs) != |readout| then Err(NameError)
    else
      match ReadoutState(b, Qubits(t.gs), readout)
      case Err(e) => Err(e)
      case Ok(s) => Expect(b, t, OfState(s))
  }

  /** HELPER CONTRACT (assumed, not shown): `map_to_state` of the N-qubit
      identity gives a 2N-by-2N tableau, and PauliList gives one default
      phase per row. */
  predicate IdentityStateShape(b: Backend, n: nat)
  {
    var g := b.mapToState(IdentityValue(b, n).gs, IdentityValue(b, n).ps).gs;
    HasShape(g, 2 * n, 2 * n) && |b.defaultPhases(g)| == 2 * n
  }

  /** For a readout of one sign per qubit: on a mixed state `get_prob` is
      refused; on a pure state it is the projection trace against the N
      stabilizers of the readout state, each carrying its readout phase. */
  lemma ProbabilityUsesReadout(b: Backend, t: Tab, readout: seq<int>)
    requires |readout| == Qubits(t.gs) && IdentityStateShape(b, |readout|)
    ensures t.r != 0 ==> ProbabilityOf(b, t, readout) == Err(NotImplementedError)
    ensures t.r == 0 ==>
      var g := b.mapToState(IdentityValue(b, |readout|).gs, IdentityValue(b, |readout|).ps).gs;
      ProbabilityOf(b, t, readout) == Ok(Overlap(b.projectionTrace(t.gs, t.ps, g[..|readout|], readout, 0) / 1.0))
  {
    var n := |readout|;
    var st := StateOfMap(b, IdentityValue(b, n), None);
    assert |st.ps| == 2 * n && Qubits(st.gs) == n;
    var p := AssignSlice(st.ps, 0, n, readout).value;
    assert p[..n] == readout by {
      forall k | 0 <= k < n ensures p[k] == readout[k] {
        assert Bc(|readout|, k) == k;
      }
    }
    var s := Tab(st.gs, p, 0);
    assert ReadoutState(b, n, readout) == Ok(s);
    ActiveCountAtExtremes(s);
    assert Stabilizers(s) == Paulis(st.gs[..n], readout);
  }

  /** `stabilizer_state(stabilizers)`: ValueError unless the stabilizers
      commute; otherwise the maximally mixed state (r = N) is projected onto
      the stabilizers in reverse row order (numpy.flipud), and their phases
      are written, in the given order, into the active rows [r, N). */
  function FromStabilizers(b: Backend, stabs: Paulis): (res: Result<Tab>)
    ensures !AllZero(b.acqMat(stabs.gs)) ==> res == Err(ValueError)
    ensures res.Err? ==> res.error == ValueError
  {
    if !AllZero(b.acqMat(stabs.gs)) then Err(ValueError)
    else
      var n := Qubits(stabs.gs);
      var mixed := StateOfMap(b, IdentityValue(b, n), Some(n));
      var proj := b.stabilizerProject(mixed.gs, FlipRows(stabs.gs), mixed.r);
      match AssignSlice(mixed.ps, proj.r, Qubits(proj.gs), stabs.ps)
      case Ok(p) => Ok(Tab(proj.gs, p, proj.r))
      case Err(e) => Err(e)
  }

  /** For commuting stabilizers and a projection that leaves r in [0, N],
      the construction succeeds exactly when the phases broadcast onto the
      active rows: one phase per active row (N - r of them), or a single phase
      for all of them; otherwise numpy raises ValueError. */
  lemma FromStabilizersPhaseCount(b: Backend, stabs: Paulis)
    requires AllZero(b.acqMat(stabs.gs))
    requires var n := Qubits(stabs.gs);
      var mixed := StateOfMap(b, IdentityValue(b, n), Some(n));
      var proj := b.stabilizerProject(mixed.gs, FlipRows(stabs.gs), n);
      0 <= proj.r <= Qubits(proj.gs) <= |mixed.ps|
    ensures var n := Qubits(stabs.gs);
      var mixed := StateOfMap(b, IdentityValue(b, n), Some(n));
      var proj := b.stabilizerProject(mixed.gs, FlipRows(stabs.gs), n);
      FromStabilizers(b, stabs).Ok? <==> |stabs.ps| == Qubits(proj.gs) - proj.r || |stabs.ps| == 1
  {
  }

  /** For commuting stabilizers and a projection that leaves r in [0, N], with
      one phase per active row or a single phase: the result has the projected
      tableau and r, the active rows carry the given phases in order (or the
      single phase, broadcast), and every other phase is that of the maximally
      mixed state. */
  lemma FromStabilizersActivePhases(b: Backend, stabs: Paulis)
    requires AllZero(b.acqMat(stabs.gs))
    requires var n := Qubits(stabs.gs);
      var mixed := StateOfMap(b, IdentityValue(b, n), Some(n));
      var proj := b.stabilizerProject(mixed.gs, FlipRows(stabs.gs), n);
      0 <= proj.r <= Qubits(proj.gs) <= |mixed.ps| &&
      (|stabs.ps| == Qubits(proj.gs) - proj.r || |stabs.ps| == 1)
    ensures var n := Qubits(stabs.gs);
      var mixed := StateOfMap(b, IdentityValue(b, n), Some(n));
      var proj := b.stabilizerProject(mixed.gs, FlipRows(stabs.gs), n);
      var res := FromStabilizers(b, stabs);
      res.Ok? && res.value.gs == proj.gs && res.value.r == proj.r && |res.value.ps| == |mixed.ps| &&
      (forall k :: proj.r <= k < Qubits(proj.gs) ==> res.value.ps[k] == stabs.ps[Bc(|stabs.ps|, k - proj.r)]) &&
      (forall k :: 0 <= k < |mixed.ps| && !(proj.r <= k < Qubits(proj.gs)) ==> res.value.ps[k] == mixed.ps[k])
  {
  }

  // ---- the classes ----

  class CliffordMap {
    var gs: array2<int>
    var ps: array<int>

    /** The map as a value: row 2i is the image of X_i, row 2i + 1 that of Z_i. */
    function Value(): Paulis
      reads this, gs, ps
    {
      Paulis(Rows(gs), ps[..])
    }

    /** `CliffordMap(gs, ps)` on freshly computed arrays. */
    constructor (g: Matrix, p: seq<int>)
      ensures fresh(gs) && fresh(ps) && Value() == Paulis(g, p)
    {
      var a := FromRows(g);
      var q := FromSeq(p);
      gs, ps := a, q;
    }

    method Copy() returns (c: CliffordMap)
      ensures fresh(c) && fresh(c.gs) && fresh(c.ps) && c.Value() == Value()
    {
      c := new CliffordMap(Rows(gs), ps[..]);
    }

    /** The map read as a state; in this copy the state loses the phases
        `map_to_state` computes. */
    method ToState(b: Backend, arg: Option<int>) returns (s: StabilizerState)
      ensures fresh(s) && fresh(s.gs) && fresh(s.ps)
      ensures s.Value() == StateOfMap(b, Value(), arg)
    {
      var st := b.mapToState(Rows(gs), ps[..]);
      // the phases st.ps are bound to r here and replaced by set_r below
      s := new StabilizerState(b, st.gs, 0);
      s := s.SetR(arg);
    }

    /** In-place `embed`; returns the map itself, or the exception raised
        part-way, leaving what was written before it. */
    method Embed(small: CliffordMap, mask: seq<bool>) returns (res: Result<CliffordMap>)
      modifies gs, ps
      ensures var e := Core.Embed(old(Rows(gs)), old(ps[..]), old(small.Value()), mask);
        Rows(gs) == e.gs && ps[..] == e.ps &&
        (if e.error.None? then res == Ok(this) else res == Err(e.error.value))
    {
      var sv := small.Value();
      var m2 := Repeat2(mask);
      var k := Count(m2);
      ghost var g0, p0 := Rows(gs), ps[..];
      assert InBounds(m2, gs.Length0, gs.Length1) == InBounds(m2, |g0|, Width(g0));
      if !BlockFits(sv.gs, k) {
        return Err(ValueError);
      }
      if !InBounds(m2, gs.Length0, gs.Length1) {
        return Err(IndexError);
      }
      WriteBlock(gs, sv.gs, m2);
      if |m2| != ps.Length {
        return Err(IndexError);
      }
      if !Fits(sv.ps, k) {
        return Err(ValueError);
      }
      WriteMasked(ps, sv.ps, m2);
      return Ok(this);
    }

    /** `compose(other)`: this map transforms first; neither operand changes. */
    method Compose(b: Backend, other: CliffordMap) returns (c: CliffordMap)
      ensures fresh(c) && fresh(c.gs) && fresh(c.ps)
      ensures c.Value() == b.pauliTransform(Rows(gs), ps[..], Rows(other.gs), other.ps[..])
    {
      var t := b.pauliTransform(Rows(gs), ps[..], Rows(other.gs), other.ps[..]);
      c := new CliffordMap(t.gs, t.ps);
    }

    method Inverse(b: Backend) returns (c: CliffordMap)
      requires InverseContract(b, Value())
      ensures fresh(c) && fresh(c.gs) && fresh(c.ps)
      ensures c.Value() == Core.Inverse(b, Value())
    {
      var v := Core.Inverse(b, Value());
      c := new CliffordMap(v.gs, v.ps);
    }
  }

  /** What `measure` is given: a list of Paulis, or a state whose active
      stabilizers are measured. */
  datatype Target = ListTarget(rows: Paulis) | StateTarget(state: StabilizerState)

  function Observed(obs: Target): Paulis
    reads if obs.StateTarget? then {obs.state, obs.state.gs, obs.state.ps} else {}
  {
    match obs
    case ListTarget(rows) => rows
    case StateTarget(s) => Stabilizers(s.Value())
  }

  class StabilizerState {
    var gs: array2<int>
    var ps: array<int>
    var r: int

    /** The state as a value: rows [r, N) are its active stabilizers. */
    function Value(): Tab
      reads this, gs, ps
    {
      Tab(Rows(gs), ps[..], r)
    }

    /** `StabilizerState(gs, r)`: PauliList(gs) receives no phases. */
    constructor (b: Backend, g: Matrix, r0: int)
      ensures fresh(gs) && fresh(ps) && Value() == Tab(g, b.defaultPhases(g), r0)
    {
      var a := FromRows(g);
      var q := FromSeq(b.defaultPhases(g));
      gs, ps, r := a, q, r0;
    }

    /** `copy()`: same tableau and r, default phases. */
    method Copy(b: Backend) returns (c: StabilizerState)
      ensures fresh(c) && fresh(c.gs) && fresh(c.ps)
      ensures c.Value() == CopyOf(b, Value())
    {
      c := new StabilizerState(b, Rows(gs), 0);
      c := c.SetR(Some(r));
    }

    /** `set_r(r)`: only r changes; the state itself is returned. */
    method SetR(arg: Option<int>) returns (self: StabilizerState)
      modifies this`r
      ensures self == this && r == RankOrZero(arg)
    {
      r := RankOrZero(arg);
      return this;
    }

    method ToMap(b: Backend) returns (m: CliffordMap)
      ensures fresh(m) && fresh(m.gs) && fresh(m.ps)
      ensures m.Value() == b.stateToMap(Rows(gs), ps[..])
    {
      var v := b.stateToMap(Rows(gs), ps[..]);
      m := new CliffordMap(v.gs, v.ps);
    }

    /** `measure(obs)`: the tableau, phases and r are replaced by what
        `stabilizer_measure` returns for the observed rows, read before the
        update; an observable state other than this one is left untouched. */
    method Measure(b: Backend, obs: Target) returns (out: seq<int>, log2prob: real)
      modifies this
      ensures var o := old(Observed(obs));
        var m := b.stabilizerMeasure(old(Rows(gs)), old(ps[..]), o.gs, o.ps, old(r));
        Value() == Tab(m.gs, m.ps, m.r) && out == m.out && log2prob == m.log2prob
      ensures fresh(gs) && fresh(ps)
      ensures obs.StateTarget? && obs.state != this ==> obs.state.Value() == old(obs.state.Value())
    {
      var o := Observed(obs);
      var m := b.stabilizerMeasure(Rows(gs), ps[..], o.gs, o.ps, r);
      var a := FromRows(m.gs);
      var q := FromSeq(m.ps);
      gs, ps, r := a, q, m.r;
      out, log2prob := m.out, m.log2prob;
    }

    /** `get_prob(readout)`: builds the readout state from the identity map
        and evaluates `expect` against it. */
    method GetProb(b: Backend, readout: seq<int>) returns (res: Result<Expectation>)
      ensures res == ProbabilityOf(b, Value(), readout)
    {
      var n := Qubits(Rows(gs));
      if n != |readout| {
        return Err(NameError);
      }
      var id := IdentityMap(b, n);
      var rs := id.ToState(b, None);
      var ok := WriteSlice(rs.ps, 0, n, readout);
      if !ok {
        return Err(ValueError);
      }
      res := Expect(b, Value(), OfState(rs.Value()));
    }
  }

  // ---- map and state constructors ----

  method IdentityMap(b: Backend, n: nat) returns (m: CliffordMap)
    ensures fresh(m) && fresh(m.gs) && fresh(m.ps)
    ensures m.Value() == IdentityValue(b, n)
  {
    m := new CliffordMap(Identity(2 * n), b.defaultPhases(Identity(2 * n)));
  }

  /** `clifford_rotation_map(gen)` for the Pauli `gen` = (g, p) on |g| / 2
      qubits: the rotation applied to the identity strings with zero phases. */
  method CliffordRotationMap(b: Backend, g: seq<int>, p: int) returns (m: CliffordMap)
    ensures fresh(m) && fresh(m.gs) && fresh(m.ps)
    ensures m.Value() == b.cliffordRotate(g, p, Identity(2 * (|g| / 2)), Zeros(2 * (|g| / 2)))
  {
    var n := |g| / 2;
    var v := b.cliffordRotate(g, p, Identity(2 * n), Zeros(2 * n));
    m := new CliffordMap(v.gs, v.ps);
  }

  method MaximallyMixedState(b: Backend, n: nat) returns (s: StabilizerState)
    ensures fresh(s) && fresh(s.gs) && fresh(s.ps)
    ensures s.Value() == StateOfMap(b, IdentityValue(b, n), Some(n)) && s.r == n
    ensures IdentityStateShape(b, n) ==>
      IsTableau(s.Value()) && RankInRange(s.Value()) && Stabilizers(s.Value()) == Paulis([], [])
  {
    var id := IdentityMap(b, n);
    s := id.ToState(b, Some(n));
    if IdentityStateShape(b, n) {
      ActiveCountAtExtremes(s.Value());
    }
  }

  method ZeroState(b: Backend, n: nat) returns (s: StabilizerState)
    ensures fresh(s) && fresh(s.gs) && fresh(s.ps)
    ensures s.Value() == StateOfMap(b, IdentityValue(b, n), None) && s.r == 0
    ensures IdentityStateShape(b, n) ==>
      IsTableau(s.Value()) && RankInRange(s.Value()) && |Stabilizers(s.Value()).gs| == n
  {
    var id := IdentityMap(b, n);
    s := id.ToState(b, None);
    if IdentityStateShape(b, n) {
      ActiveCountAtExtremes(s.Value());
    }
  }

  /** `stabilizer_state(stabilizers)` for an already parsed PauliList. */
  method StabilizerStateOf(b: Backend, stabs: Paulis) returns (res: Result<StabilizerState>)
    ensures res.Err? ==> FromStabilizers(b, stabs) == Err(res.error)
    ensures res.Ok? ==> fresh(res.value) && FromStabilizers(b, stabs) == Ok(res.value.Value())
  {
    if !AllZero(b.acqMat(stabs.gs)) {
      return Err(ValueError);
    }
    var n := Qubits(stabs.gs);
    var state := MaximallyMixedState(b, n);
    var proj := b.stabilizerProject(Rows(state.gs), FlipRows(stabs.gs), state.r);
    var a := FromRows(proj.gs);
    state.gs, state.r := a, proj.r;
    var ok := WriteSlice(state.ps, state.r, Qubits(Rows(state.gs)), stabs.ps);
    if !ok {
      return Err(ValueError);
    }
    return Ok(state);
  }
}
