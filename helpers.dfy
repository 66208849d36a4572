/** The collaborators the module calls but that are not part of this model:
    the GF(2) and tableau routines of pyclifford/utils.py and the default
    phases PauliList gives a list built without phases. They are passed in as
    one record of total functions; nothing is assumed about them except the
    contract predicates below, each stated where an operation relies on it. */
module Helpers {
  import opened Numpy
  import opened Tableau

  /** Result of `stabilizer_project`: new tableau and new r. */
  datatype Projection = Projection(gs: Matrix, r: int)

  /** Result of `stabilizer_measure`: new tableau, phases and r, the outcomes
      and the log2 probability of those outcomes. */
  datatype Measurement = Measurement(gs: Matrix, ps: seq<int>, r: int, out: seq<int>, log2prob: real)

  /** A PauliPolynomial: Pauli terms with complex weights. */
  datatype PauliPolynomial = PauliPolynomial(terms: Paulis, cs: seq<Complex>)

  datatype Backend = Backend(
    acqMat: Matrix -> Matrix,                                       // acq_mat(gs)
    ps0: Matrix -> seq<int>,                                        // ps0(gs)
    z2inv: Matrix -> Matrix,                                        // z2inv(gs)
    pauliCombine: (Matrix, Matrix, seq<int>) -> Paulis,             // pauli_combine(C, gs, ps)
    pauliTransform: (Matrix, seq<int>, Matrix, seq<int>) -> Paulis, // pauli_transform(gs, ps, gs', ps')
    mapToState: (Matrix, seq<int>) -> Paulis,                       // map_to_state(gs, ps)
    stateToMap: (Matrix, seq<int>) -> Paulis,                       // state_to_map(gs, ps)
    cliffordRotate: (seq<int>, int, Matrix, seq<int>) -> Paulis,    // clifford_rotate(g, p, gs, ps)
    stabilizerProject: (Matrix, Matrix, int) -> Projection,         // stabilizer_project(gs, gs_obs, r)
    stabilizerMeasure: (Matrix, seq<int>, Matrix, seq<int>, int) -> Measurement, // stabilizer_measure
    stabilizerExpect: (Matrix, seq<int>, Matrix, seq<int>, int) -> seq<int>,     // stabilizer_expect
    stabilizerEntropy: (Matrix, Region) -> int,                     // stabilizer_entropy(gs, mask)
    projectionTrace: (Matrix, seq<int>, Matrix, seq<int>, int) -> real, // last result of stabilizer_projection_trace
    toMask: (seq<int>, nat) -> seq<bool>,                           // mask(indices, N)
    binaryRepr: seq<int> -> Matrix,                                 // binary_repr(ints)
    asPolynomial: (seq<int>, int) -> PauliPolynomial,               // Pauli(g, p).as_polynomial()
    defaultPhases: Matrix -> seq<int>                               // ps of PauliList(gs) built without ps
  )

  /** HELPER CONTRACT (assumed, not shown): `pauli_combine(gs_inv, gs, ps)`
      returns as many phases as `ps0(gs_inv)`, so that `inverse` can subtract
      them elementwise. */
  predicate InverseContract(b: Backend, m: Paulis)
  {
    var inv := b.z2inv(m.gs);
    |b.pauliCombine(inv, m.gs, m.ps).ps| == |b.ps0(inv)|
  }

  /** HELPER CONTRACT (assumed, not shown): `binary_repr(numpy.arange(2**k))`
      has one row per integer, row i holding the k bits of i, most
      significant first. */
  predicate BinaryReprEnumerates(b: Backend, k: nat)
  {
    var c := b.binaryRepr(Arange(Pow2(k)));
    |c| == Pow2(k) && forall i :: 0 <= i < |c| ==> c[i] == Bits(i, k)
  }

  /** HELPER CONTRACT (assumed, not shown): `Pauli(g, p).as_polynomial()` is
      the one-term polynomial of that Pauli with weight 1. */
  predicate AsPolynomialUnit(b: Backend, g: seq<int>, p: int)
  {
    b.asPolynomial(g, p) == PauliPolynomial(Paulis([g], [p]), [Complex(1.0, 0.0)])
  }
}
