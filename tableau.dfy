/** Values shared by both copies of the module: Pauli lists, the stabilizer
    tableau with its rank marker r, the row partition that r induces, and the
    small arithmetic the module performs itself (phases mod 4, weighted sums). */
module Tableau {
  import opened Errors
  import opened Slicing
  import opened Numpy

  /** The value of a PauliList: one Pauli string per row of `gs`, one phase
      indicator (a power of i) per entry of `ps`. */
  datatype Paulis = Paulis(gs: Matrix, ps: seq<int>)

  /** The value of a StabilizerState: tableau, phases and log2 rank r. */
  datatype Tab = Tab(gs: Matrix, ps: seq<int>, r: int)

  /** PauliList.N: each Pauli string has two columns (X bit, Z bit) per qubit. */
  function Qubits(gs: Matrix): nat
  {
    Width(gs) / 2
  }

  /** A full 2N-by-2N tableau with 2N phases. */
  predicate IsTableau(t: Tab)
  {
    var n := 2 * Qubits(t.gs);
    HasShape(t.gs, n, n) && |t.ps| == n
  }

  predicate RankInRange(t: Tab)
  {
    0 <= t.r <= Qubits(t.gs)
  }

  /** `set_r(r)`: None stands for 0. */
  function RankOrZero(arg: Option<int>): int
  {
    if arg.None? then 0 else arg.value
  }

  /** `self[self.r:self.N]`: the active stabilizers, recomputed from the current r. */
  function Stabilizers(t: Tab): (v: Paulis)
    ensures IsTableau(t) && RankInRange(t) ==>
      |v.gs| == |v.ps| == Qubits(t.gs) - t.r &&
      forall k :: 0 <= k < |v.gs| ==> v.gs[k] == t.gs[t.r + k] && v.ps[k] == t.ps[t.r + k]
  {
    Paulis(RowSlice(t.gs, t.r, Qubits(t.gs)), Slice(t.ps, t.r, Qubits(t.gs)))
  }

  /** The four blocks of rows of a tableau of n qubits with log2 rank r. */
  datatype Role = StandbyStabilizer | ActiveStabilizer | StandbyDestabilizer | ActiveDestabilizer

  function RoleOf(n: nat, r: nat, i: nat): Role
    requires r <= n && i < 2 * n
  {
    if i < r then StandbyStabilizer
    else if i < n then ActiveStabilizer
    else if i < n + r then StandbyDestabilizer
    else ActiveDestabilizer
  }

  /** The active-stabilizer view holds exactly the rows whose role is
      ActiveStabilizer, in order; stabilizer row i and destabilizer row i + n
      are both standby or both active. */
  lemma StabilizersAreActiveRows(t: Tab, i: nat)
    requires IsTableau(t) && RankInRange(t) && i < 2 * Qubits(t.gs)
    ensures RoleOf(Qubits(t.gs), t.r, i) == ActiveStabilizer <==> t.r <= i < Qubits(t.gs)
    ensures RoleOf(Qubits(t.gs), t.r, i) == ActiveStabilizer ==>
      Stabilizers(t).gs[i - t.r] == t.gs[i] && Stabilizers(t).ps[i - t.r] == t.ps[i]
    ensures i < Qubits(t.gs) ==>
      RoleOf(Qubits(t.gs), t.r, i + Qubits(t.gs)) ==
        if i < t.r then StandbyDestabilizer else ActiveDestabilizer
  {
  }

  /** A maximally mixed tableau (r = N) has no active stabilizer; a pure one
      (r = 0) has all N of them active. */
  lemma ActiveCountAtExtremes(t: Tab)
    requires IsTableau(t)
    ensures t.r == Qubits(t.gs) ==> Stabilizers(t) == Paulis([], [])
    ensures t.r == 0 ==> Stabilizers(t).gs == t.gs[..Qubits(t.gs)] && Stabilizers(t).ps == t.ps[..Qubits(t.gs)]
  {
    var n := Qubits(t.gs);
    if t.r == 0 {
      assert Stabilizers(t).gs == t.gs[..n];
    }
  }

  // ---- phases of an inverse map ----

  /** `(- ps_mis - ps0(gs_inv)) % 4`, elementwise; numpy's % takes the sign of
      the divisor, which for the divisor 4 agrees with Dafny's %. */
  function InversePhases(mis: seq<int>, base: seq<int>): (p: seq<int>)
    requires |mis| == |base|
    ensures |p| == |mis|
    ensures forall i :: 0 <= i < |p| ==> 0 <= p[i] < 4 && (p[i] + mis[i] + base[i]) % 4 == 0
  {
    seq(|mis|, i requires 0 <= i < |mis| => (- mis[i] - base[i]) % 4)
  }

  /** The inverse phases are the only phases in [0, 4) that cancel the
      mismatch, so they are determined by that equation alone. */
  lemma InversePhasesUnique(mis: seq<int>, base: seq<int>, q: seq<int>)
    requires |mis| == |base| == |q|
    requires forall i :: 0 <= i < |q| ==> 0 <= q[i] < 4 && (q[i] + mis[i] + base[i]) % 4 == 0
    ensures q == InversePhases(mis, base)
  {
    var p := InversePhases(mis, base);
    forall i | 0 <= i < |q| ensures q[i] == p[i] {
      var c := - mis[i] - base[i];
      var d := q[i] - c;
      assert d % 4 == 0;
      assert p[i] == c % 4;
      assert c == 4 * (c / 4) + c % 4;
      assert d == 4 * (d / 4);
      assert q[i] - p[i] == 4 * (d / 4 + c / 4);
    }
  }

  // ---- coefficients of a PauliPolynomial ----

  datatype Complex = Complex(re: real, im: real)

  function Scale(c: Complex, x: int): Complex
  {
    Complex(c.re * x as real, c.im * x as real)
  }

  function Add(a: Complex, b: Complex): Complex
  {
    Complex(a.re + b.re, a.im + b.im)
  }

  function Total(zs: seq<Complex>): Complex
  {
    if zs == [] then Complex(0.0, 0.0) else Add(Total(zs[..|zs| - 1]), zs[|zs| - 1])
  }

  function SumInts(xs: seq<int>): int
  {
    if xs == [] then 0 else SumInts(xs[..|xs| - 1]) + xs[|xs| - 1]
  }

  /** `cs * xs` with numpy broadcasting: equal lengths multiply pointwise, a
      one-element operand is repeated, anything else is a ValueError. */
  function Products(cs: seq<Complex>, xs: seq<int>): (r: Result<seq<Complex>>)
    ensures r.Ok? <==> |cs| == |xs| || |cs| == 1 || |xs| == 1
    ensures r.Err? ==> r.error == ValueError
    ensures r.Ok? ==> |r.value| == (if |cs| == 1 then |xs| else |cs|)
    ensures r.Ok? ==> forall k :: 0 <= k < |r.value| ==> r.value[k] == Scale(cs[Bc(|cs|, k)], xs[Bc(|xs|, k)])
  {
    if |cs| == |xs| then Ok(seq(|cs|, k requires 0 <= k < |cs| => Scale(cs[k], xs[k])))
    else if |cs| == 1 then Ok(seq(|xs|, k requires 0 <= k < |xs| => Scale(cs[0], xs[k])))
    else if |xs| == 1 then Ok(seq(|cs|, k requires 0 <= k < |cs| => Scale(cs[k], xs[0])))
    else Err(ValueError)
  }

  /** `numpy.sum(cs * xs)`. */
  function WeightedSum(cs: seq<Complex>, xs: seq<int>): Result<Complex>
  {
    match Products(cs, xs)
    case Ok(zs) => Ok(Total(zs))
    case Err(e) => Err(e)
  }

  lemma {:induction false} TotalOfUnitScaled(xs: seq<int>)
    ensures Total(seq(|xs|, k requires 0 <= k < |xs| => Scale(Complex(1.0, 0.0), xs[k]))) ==
      Complex(SumInts(xs) as real, 0.0)
    decreases |xs|
  {
    var zs := seq(|xs|, k requires 0 <= k < |xs| => Scale(Complex(1.0, 0.0), xs[k]));
    if xs != [] {
      var pre := xs[..|xs| - 1];
      TotalOfUnitScaled(pre);
      assert zs[..|zs| - 1] == seq(|pre|, k requires 0 <= k < |pre| => Scale(Complex(1.0, 0.0), pre[k]));
    }
  }

  /** A polynomial with a single term of weight one (a Pauli promoted to a
      polynomial) has as weighted sum the plain sum of the expectation values. */
  lemma UnitWeightSum(xs: seq<int>)
    ensures WeightedSum([Complex(1.0, 0.0)], xs) == Ok(Complex(SumInts(xs) as real, 0.0))
  {
    TotalOfUnitScaled(xs);
    if |xs| == 1 {
      assert Total([Scale(Complex(1.0, 0.0), xs[0])]) == Complex(xs[0] as real, 0.0);
      assert Products([Complex(1.0, 0.0)], xs).value == seq(|xs|, k requires 0 <= k < |xs| => Scale(Complex(1.0, 0.0), xs[k]));
    }
  }

  // ---- regions, coefficient matrices, powers of two ----

  /** An entropy region: a flag per qubit, or a list of qubit indices. */
  datatype Region = Flags(flags: seq<bool>) | Indices(indices: seq<int>)

  function RegionSize(region: Region): nat
  {
    match region
    case Flags(f) => |f|
    case Indices(ix) => |ix|
  }

  /** An L-by-w matrix of 0/1 coefficients, what `numpy.random.randint(2, size=(L, w))` draws. */
  predicate IsCoefficients(c: Matrix, rows: nat, cols: nat)
  {
    HasShape(c, rows, cols) && forall i, j :: 0 <= i < |c| && 0 <= j < |c[i]| ==> c[i][j] == 0 || c[i][j] == 1
  }

  /** `numpy.arange(n)`. */
  function Arange(n: nat): (s: seq<int>)
    ensures |s| == n && forall k :: 0 <= k < n ==> s[k] == k
  {
    seq(n, k => k)
  }

  function Pow2(e: nat): (p: nat)
    ensures p >= 1
  {
    if e == 0 then 1 else 2 * Pow2(e - 1)
  }

  /** Python's `2**e` for an integer exponent (a fraction when e < 0). */
  function Pow2Real(e: int): real
  {
    if e >= 0 then Pow2(e) as real else 1.0 / Pow2(-e) as real
  }

  // ---- binary representations ----

  /** A row of k binary digits. */
  predicate IsBitRow(v: seq<int>, k: nat)
  {
    |v| == k && forall q :: 0 <= q < k ==> v[q] == 0 || v[q] == 1
  }

  /** The k-bit binary representation of x (x mod 2^k), most significant bit first. */
  function Bits(x: nat, k: nat): (c: seq<int>)
    ensures IsBitRow(c, k)
  {
    if k == 0 then [] else Bits(x / 2, k - 1) + [x % 2]
  }

  /** The number whose binary digits, most significant first, are the entries of c. */
  function BitsValue(c: seq<int>): nat
    requires IsBitRow(c, |c|)
  {
    if c == [] then 0 else 2 * BitsValue(c[..|c| - 1]) + c[|c| - 1]
  }

  /** Every row of k bits is the representation of a number below 2^k. */
  lemma {:induction false} BitsOfValue(c: seq<int>)
    requires IsBitRow(c, |c|)
    ensures BitsValue(c) < Pow2(|c|) && Bits(BitsValue(c), |c|) == c
  {
    if c != [] {
      var pre := c[..|c| - 1];
      BitsOfValue(pre);
      var v := BitsValue(c);
      assert v / 2 == BitsValue(pre) && v % 2 == c[|c| - 1];
      assert c == pre + [c[|c| - 1]];
    }
  }

  /** Numbers below 2^k are told apart by their k-bit representations. */
  lemma {:induction false} ValueOfBits(x: nat, k: nat)
    requires x < Pow2(k)
    ensures BitsValue(Bits(x, k)) == x
  {
    if k > 0 {
      ValueOfBits(x / 2, k - 1);
      var c := Bits(x, k);
      assert c[..|c| - 1] == Bits(x / 2, k - 1);
    }
  }
}
