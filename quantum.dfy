/** The circuit bookkeeping of the quantum-simulator demo page: an ordered gate
    list, one measurement slot per qubit and a state vector of 2^n entries.
    The page does no quantum mechanics: its amplitudes and measurement results
    are `Math.random()` draws, which are parameters here, as is `Date.now()`. */
module QuantumSimulator {
  import opened Common
  import opened Numerals

  datatype GateType = H | X | Y | Z | CNOT

  /** A placed gate; `controlQubit` is the optional control of the source's record. */
  datatype QuantumGate = QuantumGate(id: string, kind: GateType, qubit: int, controlQubit: Option<int>)

  datatype Bit = Zero | One

  /** A measurement slot; `result` is None until the first run tick. */
  datatype Measurement = Measurement(qubit: int, result: Option<Bit>)

  function TypeName(t: GateType): (r: string)
    ensures TypeOfName(r) == Some(t)
    ensures forall k :: 0 <= k < |r| ==> r[k] != '-'
  {
    match t
    case H => "H"
    case X => "X"
    case Y => "Y"
    case Z => "Z"
    case CNOT => "CNOT"
  }

  function TypeOfName(s: string): Option<GateType>
  {
    if s == "H" then Some(H)
    else if s == "X" then Some(X)
    else if s == "Y" then Some(Y)
    else if s == "Z" then Some(Z)
    else if s == "CNOT" then Some(CNOT)
    else None
  }

  /** The identifier `${type}-${qubit}-${Date.now()}` given to a new gate. */
  function GateId(kind: GateType, qubit: int, now: nat): string
  {
    TypeName(kind) + "-" + IntToDecimal(qubit) + "-" + ToBase(now, 10)
  }

  function FirstIndexOf(s: string, c: char): (r: int)
    ensures -1 <= r < |s|
    ensures r >= 0 ==> s[r] == c
    ensures forall k :: 0 <= k < |s| && (r < 0 || k < r) ==> s[k] != c
  {
    if s == [] then -1
    else if s[0] == c then 0
    else var r := FirstIndexOf(s[1..], c); if r < 0 then -1 else r + 1
  }

  function LastIndexOf(s: string, c: char): (r: int)
    ensures -1 <= r < |s|
    ensures r >= 0 ==> s[r] == c
    ensures forall k :: r < k < |s| ==> s[k] != c
  {
    if s == [] then -1
    else if s[|s| - 1] == c then |s| - 1
    else LastIndexOf(s[..|s| - 1], c)
  }

  /** The text before and after the first `c` in `s`. */
  function SplitFirst(s: string, c: char): Option<(string, string)>
  {
    var i := FirstIndexOf(s, c);
    if i < 0 then None else Some((s[..i], s[i + 1..]))
  }

  /** The text before and after the last `c` in `s`. */
  function SplitLast(s: string, c: char): Option<(string, string)>
  {
    var i := LastIndexOf(s, c);
    if i < 0 then None else Some((s[..i], s[i + 1..]))
  }

  /** Reads a gate identifier back into the type, qubit and timestamp it was made from. */
  function ParseGateId(id: string): Option<(GateType, int, nat)>
  {
    match SplitFirst(id, '-')
    case None => None
    case Some((name, rest)) =>
      match (TypeOfName(name), SplitLast(rest, '-'))
      case (Some(kind), Some((qubitText, timeText))) =>
        var t := FromBase(timeText, 10);
        if t < 0 then None else Some((kind, ParseDecimal(qubitText), t))
      case _ => None
  }

  lemma FirstIndexAt(s: string, c: char, p: int)
    requires 0 <= p < |s| && s[p] == c
    requires forall k :: 0 <= k < p ==> s[k] != c
    ensures FirstIndexOf(s, c) == p
  {
  }

  lemma LastIndexAt(s: string, c: char, p: int)
    requires 0 <= p < |s| && s[p] == c
    requires forall k :: p < k < |s| ==> s[k] != c
    ensures LastIndexOf(s, c) == p
  {
  }

  lemma SplitAtDash(a: string, b: string)
    ensures (a + "-" + b)[..|a|] == a && (a + "-" + b)[|a| + 1..] == b
  {
    var u := a + "-";
    assert a + "-" + b == u + b;
    assert (u + b)[..|a|] == u[..|a|];
  }

  lemma SplitFirstDash(n: string, rest: string)
    requires forall k :: 0 <= k < |n| ==> n[k] != '-'
    ensures SplitFirst(n + "-" + rest, '-') == Some((n, rest))
  {
    var s := n + "-" + rest;
    assert forall k :: 0 <= k < |n| ==> s[k] == n[k];
    FirstIndexAt(s, '-', |n|);
    SplitAtDash(n, rest);
  }

  lemma NoDashAfter(q: string, t: string)
    requires forall k :: 0 <= k < |t| ==> t[k] != '-'
    ensures forall k :: |q| < k < |q + "-" + t| ==> (q + "-" + t)[k] != '-'
  {
    var u := q + "-";
    assert q + "-" + t == u + t;
    assert forall k :: |u| <= k < |u + t| ==> (u + t)[k] == t[k - |u|];
  }

  lemma SplitLastDash(q: string, t: string)
    requires forall k :: 0 <= k < |t| ==> t[k] != '-'
    ensures SplitLast(q + "-" + t, '-') == Some((q, t))
  {
    NoDashAfter(q, t);
    LastIndexAt(q + "-" + t, '-', |q|);
    SplitAtDash(q, t);
  }

  /** Parsing `name-qubit-time` where neither the name nor the time contains a dash. */
  lemma ParseDashed(n: string, q: string, t: string)
    requires forall k :: 0 <= k < |n| ==> n[k] != '-'
    requires forall k :: 0 <= k < |t| ==> t[k] != '-'
    requires TypeOfName(n).Some? && FromBase(t, 10) >= 0
    ensures ParseGateId(n + "-" + (q + "-" + t)) == Some((TypeOfName(n).value, ParseDecimal(q), FromBase(t, 10)))
  {
    SplitFirstDash(n, q + "-" + t);
    SplitLastDash(q, t);
  }

  /** A gate identifier determines the type, qubit and millisecond it was created with. */
  lemma GateIdRoundTrip(kind: GateType, qubit: int, now: nat)
    ensures ParseGateId(GateId(kind, qubit, now)) == Some((kind, qubit, now))
  {
    var n, q, t := TypeName(kind), IntToDecimal(qubit), ToBase(now, 10);
    assert GateId(kind, qubit, now) == n + "-" + (q + "-" + t);
    assert forall k :: 0 <= k < |t| ==> t[k] != '-' by {
      assert IsDigits(t, 10);
    }
    DecimalRoundTrip(qubit);
    FromToBase(now, 10);
    ParseDashed(n, q, t);
  }

  /** Two gates get the same identifier exactly when they were added with the
      same type, on the same qubit, in the same millisecond. */
  lemma GateIdInjective(k1: GateType, q1: int, t1: nat, k2: GateType, q2: int, t2: nat)
    ensures GateId(k1, q1, t1) == GateId(k2, q2, t2) <==> k1 == k2 && q1 == q2 && t1 == t2
  {
    GateIdRoundTrip(k1, q1, t1);
    GateIdRoundTrip(k2, q2, t2);
  }

  /** The gates a `removeGate(id)` keeps. */
  function WithoutGate(gates: seq<QuantumGate>, id: string): (r: seq<QuantumGate>)
    ensures forall i :: 0 <= i < |r| ==> r[i] in gates && r[i].id != id
    ensures forall i :: 0 <= i < |gates| && gates[i].id != id ==> gates[i] in r
    ensures (forall i :: 0 <= i < |gates| ==> gates[i].id != id) ==> r == gates
  {
    Filter(gates, KeepsGate(id))
  }

  /** The predicate of `prev.filter(gate => gate.id !== gateId)`. */
  function KeepsGate(id: string): QuantumGate -> bool
  {
    (g: QuantumGate) => g.id != id
  }

  /** Removal of one id commutes with concatenation, so the kept gates stay in order. */
  lemma WithoutGateAppend(a: seq<QuantumGate>, b: seq<QuantumGate>, id: string)
    ensures WithoutGate(a + b, id) == WithoutGate(a, id) + WithoutGate(b, id)
  {
    FilterAppend(a, b, KeepsGate(id));
  }

  /** Two gates added with the same type and qubit in the same millisecond share
      an identifier, and removing either removes both. */
  lemma SameMillisecondGatesVanishTogether(kind: GateType, qubit: int, c1: Option<int>, c2: Option<int>, now: nat)
    ensures var g1 := QuantumGate(GateId(kind, qubit, now), kind, qubit, c1);
            var g2 := QuantumGate(GateId(kind, qubit, now), kind, qubit, c2);
            WithoutGate([g1, g2], g1.id) == []
  {
    var g1 := QuantumGate(GateId(kind, qubit, now), kind, qubit, c1);
    var g2 := QuantumGate(GateId(kind, qubit, now), kind, qubit, c2);
    FilterNone([g1, g2], KeepsGate(g1.id));
  }

  /** Array(n).fill(null).map((_, i) => ({qubit: i, result: null})) */
  function InitialMeasurements(n: nat): (r: seq<Measurement>)
    ensures QubitSlots(r, n) && AllUnmeasured(r)
  {
    seq(n, i => Measurement(i, None))
  }

  /** One slot per qubit, slot i for qubit i. */
  predicate QubitSlots(ms: seq<Measurement>, n: nat)
  {
    |ms| == n && forall i :: 0 <= i < n ==> ms[i].qubit == i
  }

  predicate AllUnmeasured(ms: seq<Measurement>)
  {
    forall i :: 0 <= i < |ms| ==> ms[i].result == None
  }

  predicate AllMeasured(ms: seq<Measurement>)
  {
    forall i :: 0 <= i < |ms| ==> ms[i].result.Some?
  }

  function CoinBit(draw: real): (r: Bit)
    ensures r == One <==> draw > 0.5
  {
    if draw > 0.5 then One else Zero
  }

  /** The run tick's measurement update: each slot keeps its qubit and gets '1'
      when its draw exceeds 0.5 and '0' otherwise. */
  function MeasureAll(ms: seq<Measurement>, coin: nat -> real): (r: seq<Measurement>)
    ensures |r| == |ms| && AllMeasured(r)
    ensures forall i :: 0 <= i < |r| ==> r[i].qubit == ms[i].qubit
    ensures forall i :: 0 <= i < |r| ==> (r[i].result == Some(One) <==> coin(i) > 0.5)
  {
    seq(|ms|, i requires 0 <= i < |ms| => ms[i].(result := Some(CoinBit(coin(i)))))
  }

  lemma MeasureAllKeepsSlots(ms: seq<Measurement>, n: nat, coin: nat -> real)
    requires QubitSlots(ms, n)
    ensures QubitSlots(MeasureAll(ms, coin), n)
  {
  }

  /** `simulateCircuit`: one draw per basis state, 2^n of them; the gates are not consulted. */
  function SimulateCircuit(gates: seq<QuantumGate>, numQubits: nat, draw: nat -> real): (r: seq<real>)
    ensures |r| == Pow2(numQubits)
    ensures forall i :: 0 <= i < |r| ==> r[i] == draw(i)
  {
    seq(Pow2(numQubits), i requires 0 <= i => draw(i))
  }

  lemma SimulateIgnoresGates(g1: seq<QuantumGate>, g2: seq<QuantumGate>, numQubits: nat, draw: nat -> real)
    ensures SimulateCircuit(g1, numQubits, draw) == SimulateCircuit(g2, numQubits, draw)
  {
  }

  predicate OnRow(g: QuantumGate, q: int)
  {
    g.qubit == q || g.controlQubit == Some(q)
  }

  /** The gates drawn on qubit row `q`, left to right. */
  function RowGates(circuit: seq<QuantumGate>, q: int): (r: seq<QuantumGate>)
    ensures forall i :: 0 <= i < |r| ==> r[i] in circuit && (r[i].qubit == q || r[i].controlQubit == Some(q))
    ensures forall i :: 0 <= i < |circuit| && (circuit[i].qubit == q || circuit[i].controlQubit == Some(q)) ==> circuit[i] in r
  {
    Filter(circuit, (g: QuantumGate) => OnRow(g, q))
  }

  /** A gate appended to the circuit shows up at the right end of its target
      row and of its control row, and on no other row. */
  lemma AppendedGateRows(circuit: seq<QuantumGate>, g: QuantumGate, q: int)
    ensures RowGates(circuit + [g], q) ==
      if g.qubit == q || g.controlQubit == Some(q) then RowGates(circuit, q) + [g] else RowGates(circuit, q)
  {
    FilterAppend(circuit, [g], (x: QuantumGate) => OnRow(x, q));
  }

  /** `|${i.toString(2).padStart(n, '0')}⟩` without the ket brackets. */
  function BasisLabel(i: nat, n: nat): (r: string)
    ensures |r| == if |ToBase(i, 2)| < n then n else |ToBase(i, 2)|
    ensures IsDigits(r, 2)
    ensures FromBase(r, 2) == i
  {
    var bits := ToBase(i, 2);
    var r := PadStart(bits, n, '0');
    if |bits| < n then
      assert r == seq(n - |bits|, _ => '0') + bits;
      FromBaseLeadingZeros(n - |bits|, bits, 2);
      FromToBase(i, 2);
      r
    else
      FromToBase(i, 2);
      r
  }

  /** On an n-qubit register (n >= 1) every basis index below 2^n gets a
      label of exactly n binary digits, and distinct indices get distinct labels. */
  lemma BasisLabels(n: nat, i: nat, j: nat)
    requires 1 <= n && i < Pow2(n) && j < Pow2(n)
    ensures |BasisLabel(i, n)| == n
    ensures BasisLabel(i, n) == BasisLabel(j, n) <==> i == j
  {
    BinaryLength(i, n);
  }

  /** The page's component state. `numQubits` is 3 and nothing changes it. */
  class Simulator {
    var isRunning: bool
    var numQubits: nat
    var circuit: seq<QuantumGate>
    var measurements: seq<Measurement>
    var stateVector: seq<real>

    ghost predicate Valid()
      reads this
    {
      (measurements == [] || QubitSlots(measurements, numQubits)) &&
      (stateVector == [] || |stateVector| == Pow2(numQubits))
    }

    constructor ()
      ensures Valid()
      ensures !isRunning && numQubits == 3
      ensures circuit == [] && measurements == [] && stateVector == []
    {
      isRunning := false;
      numQubits := 3;
      circuit := [];
      measurements := [];
      stateVector := [];
    }

    /** The effect that runs on mount and whenever `numQubits` changes. */
    method InitMeasurements()
      requires Valid()
      modifies this`measurements
      ensures Valid()
      ensures measurements == InitialMeasurements(numQubits)
      ensures QubitSlots(measurements, numQubits) && AllUnmeasured(measurements)
    {
      measurements := InitialMeasurements(numQubits);
    }

    /** The Run/Stop button. */
    method ToggleRunning()
      requires Valid()
      modifies this`isRunning
      ensures Valid() && isRunning == !old(isRunning)
    {
      isRunning := !isRunning;
    }

    /** `addGate(type, qubit, controlQubit)` at time `now`. */
    method AddGate(kind: GateType, qubit: int, controlQubit: Option<int>, now: nat)
      requires Valid()
      modifies this`circuit
      ensures Valid()
      ensures |circuit| == |old(circuit)| + 1
      ensures circuit[..|old(circuit)|] == old(circuit)
      ensures circuit[|circuit| - 1] == QuantumGate(GateId(kind, qubit, now), kind, qubit, controlQubit)
    {
      circuit := circuit + [QuantumGate(GateId(kind, qubit, now), kind, qubit, controlQubit)];
    }

    /** `removeGate(id)`: every gate carrying `id` goes, the rest keep their order. */
    method RemoveGate(id: string)
      requires Valid()
      modifies this`circuit
      ensures Valid()
      ensures circuit == WithoutGate(old(circuit), id)
      ensures forall i :: 0 <= i < |circuit| ==> circuit[i].id != id
      ensures (forall i :: 0 <= i < |old(circuit)| ==> old(circuit)[i].id != id) ==> circuit == old(circuit)
    {
      circuit := WithoutGate(circuit, id);
    }

    /** `resetCircuit`: no gates, fresh measurement slots, no state vector. */
    method ResetCircuit()
      requires Valid()
      modifies this`circuit, this`measurements, this`stateVector
      ensures Valid()
      ensures circuit == [] && stateVector == []
      ensures measurements == InitialMeasurements(numQubits)
      ensures QubitSlots(measurements, numQubits) && AllUnmeasured(measurements)
    {
      circuit := [];
      measurements := InitialMeasurements(numQubits);
      stateVector := [];
    }

    /** One firing of the run interval, which exists only while running:
        `amplitude(i)` and `coin(i)` are the i-th `Math.random()` draws of
        `simulateCircuit` and of the measurement update. */
    method RunTick(amplitude: nat -> real, coin: nat -> real)
      requires Valid() && isRunning
      modifies this`stateVector, this`measurements
      ensures Valid()
      ensures stateVector == SimulateCircuit(circuit, numQubits, amplitude)
      ensures |stateVector| == Pow2(numQubits)
      ensures measurements == MeasureAll(old(measurements), coin)
      ensures |measurements| == |old(measurements)| && AllMeasured(measurements)
      ensures forall i :: 0 <= i < |measurements| ==> measurements[i].qubit == old(measurements)[i].qubit
    {
      stateVector := SimulateCircuit(circuit, numQubits, amplitude);
      if measurements != [] {
        MeasureAllKeepsSlots(measurements, numQubits, coin);
      }
      measurements := MeasureAll(measurements, coin);
    }
  }
}
