/** Where the build copy and the src copy of the module disagree, and where
    they still agree, stated over the two models side by side. */
module Drift {
  import opened Errors
  import opened Numpy
  import opened Tableau
  import opened Helpers
  import opened Core
  import Build = BuildStabilizer
  import Src = SrcStabilizer

  // ---- copy and to_state: the phases ----

  /** The build copy's `copy` returns a state equal to the original exactly
      when the original already holds the default phases of its tableau; the
      src copy's `copy` always does. */
  lemma CopyKeepsPhasesIff(b: Backend, t: Tab)
    ensures Build.CopyOf(b, t) == t <==> t.ps == b.defaultPhases(t.gs)
    ensures Src.CopyOf(t) == t
  {
  }

  /** The one-qubit state |-> (stabilizer -X: tableau eye(2), phases [2, 0]).
      Whenever PauliList's default phases for that tableau are not [2, 0] (they
      are zeros), the build copy's `copy` turns it into another state, while
      the src copy's `copy` returns it unchanged. */
  lemma CopyDropsPhasesWitness(b: Backend)
    requires b.defaultPhases(Identity(2)) != [2, 0]
    ensures Build.CopyOf(b, Tab(Identity(2), [2, 0], 0)) != Tab(Identity(2), [2, 0], 0)
    ensures Src.CopyOf(Tab(Identity(2), [2, 0], 0)) == Tab(Identity(2), [2, 0], 0)
  {
    CopyKeepsPhasesIff(b, Tab(Identity(2), [2, 0], 0));
  }

  /** `to_state` in the two copies yields the same state exactly when the
      phases `map_to_state` computes are the default ones of its tableau. */
  lemma ToStateAgreesIff(b: Backend, m: Paulis, arg: Option<int>)
    ensures Build.StateOfMap(b, m, arg) == Src.StateOfMap(b, m, arg) <==>
      b.mapToState(m.gs, m.ps).ps == b.defaultPhases(b.mapToState(m.gs, m.ps).gs)
  {
  }

  // ---- stabilizer_state: order of generators and phases ----

  /** HELPER CONTRACT (assumed, not shown), describing the projection the two
      copies are written against: `stabilizer_project` leaves r so that the K
      given generators fill the active rows [r, N), stored there in reverse
      order (row r + k holds generator K - 1 - k). */
  predicate ProjectStoresReversed(b: Backend, g0: Matrix, gens: Matrix, r0: int)
  {
    var pr := b.stabilizerProject(g0, gens, r0);
    0 <= pr.r && pr.r + |gens| == Qubits(pr.gs) <= |pr.gs| &&
    forall i :: pr.r <= i < pr.r + |gens| ==> pr.gs[i] == gens[|gens| - 1 - (i - pr.r)]
  }

  /** The tableau both copies start `stabilizer_state` from: `map_to_state`
      of the N-qubit identity map. */
  function MixedTableau(b: Backend, n: nat): Matrix
  {
    b.mapToState(IdentityValue(b, n).gs, IdentityValue(b, n).ps).gs
  }

  /** Under that contract the build copy, which reverses the generators before
      projecting and writes the phases in order, pairs active row r + k with
      generator k and its phase. */
  lemma BuildPairsPhases(b: Backend, stabs: Paulis)
    requires AllZero(b.acqMat(stabs.gs)) && |stabs.ps| == |stabs.gs|
    requires var n := Qubits(stabs.gs); var g0 := MixedTableau(b, n);
      ProjectStoresReversed(b, g0, FlipRows(stabs.gs), n) &&
      Qubits(b.stabilizerProject(g0, FlipRows(stabs.gs), n).gs) <= |b.defaultPhases(g0)|
    ensures Build.FromStabilizers(b, stabs).Ok?
    ensures var t := Build.FromStabilizers(b, stabs).value;
      forall i :: t.r <= i < t.r + |stabs.gs| ==>
        i < |t.gs| && i < |t.ps| && t.gs[i] == stabs.gs[i - t.r] && t.ps[i] == stabs.ps[i - t.r]
  {
    var n := Qubits(stabs.gs);
    var g0 := MixedTableau(b, n);
    var gens := FlipRows(stabs.gs);
    var proj := b.stabilizerProject(g0, gens, n);
    Build.FromStabilizersActivePhases(b, stabs);
    var t := Build.FromStabilizers(b, stabs).value;
    assert t.gs == proj.gs && t.r == proj.r;
    forall i | t.r <= i < t.r + |stabs.gs|
      ensures i < |t.gs| && i < |t.ps| && t.gs[i] == stabs.gs[i - t.r] && t.ps[i] == stabs.ps[i - t.r]
    {
      assert proj.gs[i] == gens[|gens| - 1 - (i - proj.r)];
    }
  }

  /** Under the same contract the src copy, which projects the generators in
      order and writes the phases reversed, pairs active row r + k with
      generator K - 1 - k and its phase: in both copies every active row
      carries the phase of the generator it holds. */
  lemma SrcPairsPhases(b: Backend, stabs: Paulis)
    requires AllZero(b.acqMat(stabs.gs)) && |stabs.ps| == |stabs.gs|
    requires var n := Qubits(stabs.gs); var g0 := MixedTableau(b, n);
      ProjectStoresReversed(b, g0, stabs.gs, n) &&
      Qubits(b.stabilizerProject(g0, stabs.gs, n).gs) <= |b.mapToState(IdentityValue(b, n).gs, IdentityValue(b, n).ps).ps|
    ensures Src.FromStabilizers(b, stabs).Ok?
    ensures var t := Src.FromStabilizers(b, stabs).value; var last := |stabs.gs| - 1;
      forall i :: t.r <= i < t.r + |stabs.gs| ==>
        i < |t.gs| && i < |t.ps| && t.gs[i] == stabs.gs[last - (i - t.r)] && t.ps[i] == stabs.ps[last - (i - t.r)]
  {
    var n := Qubits(stabs.gs);
    var g0 := MixedTableau(b, n);
    var proj := b.stabilizerProject(g0, stabs.gs, n);
    Src.FromStabilizersActivePhases(b, stabs);
    var t := Src.FromStabilizers(b, stabs).value;
    assert t.gs == proj.gs && t.r == proj.r;
  }

  // ---- entropy ----

  /** On a non-empty flag region the two copies agree; on an empty region
      the build copy answers 0 without the helper, the src copy asks it. */
  lemma EntropyOnFlags(b: Backend, t: Tab, f: seq<bool>)
    ensures |f| > 0 ==> Build.Entropy(b, t, Flags(f)) == Src.Entropy(b, t, Flags(f))
    ensures |f| == 0 ==>
      Build.Entropy(b, t, Flags(f)) == 0 && Src.Entropy(b, t, Flags(f)) == b.stabilizerEntropy(Stabilizers(t).gs, Flags(f))
  {
  }

  /** For a region given as qubit indices the build copy converts them to
      flags with `mask(indices, N)`, the src copy hands them over as they are. */
  lemma EntropyOnIndices(b: Backend, t: Tab, ix: seq<int>)
    requires |ix| > 0
    ensures Build.Entropy(b, t, Indices(ix)) == Src.Entropy(b, t, Flags(b.toMask(ix, Qubits(t.gs))))
    ensures Src.Entropy(b, t, Indices(ix)) == b.stabilizerEntropy(Stabilizers(t).gs, Indices(ix))
  {
  }

  // ---- expect ----

  /** On a Pauli list both copies return the helper's values. */
  lemma ExpectOnListsAgrees(b: Backend, t: Tab, terms: Paulis)
    ensures Build.Expect(b, t, Build.List(terms)) == Ok(Build.Values(Src.Expect(b, t, Src.List(terms))))
  {
  }

  /** On a state observable and a mixed state the build copy refuses, where
      the src copy returns one value per active stabilizer of the observable. */
  lemma ExpectOnStatesDiffers(b: Backend, t: Tab, s: Tab)
    requires t.r != 0
    ensures Build.Expect(b, t, Build.OfState(s)) == Err(NotImplementedError)
    ensures Src.Expect(b, t, Src.OfState(s)) == Src.Expect(b, t, Src.List(Stabilizers(s)))
  {
  }
}
