/**
 * Symbolic quantum circuits over a fixed register of qubits.
 *
 * Only the bookkeeping of the circuits is modelled: which gate acts on which
 * qubits and which symbolic angle it carries. Rotation semantics and angle
 * values are not modelled.
 */
module Circuits {

  /** A rotation angle: the weight parameter `theta_index`, or the encoding
      angle of board cell `cell` (2*pi/3 times the cell's input parameter). */
  datatype Angle = Weight(index: nat) | Encoded(cell: nat)

  datatype Gate =
    | RX(qubit: nat, angle: Angle)
    | RY(qubit: nat, angle: Angle)
    | CRY(control: nat, target: nat, angle: Angle)

  /** An entry of a circuit: one gate, or a whole sub-circuit appended as one
      instruction onto the same qubits (qubit q of the sub-circuit on qubit q). */
  datatype Instruction = Op(gate: Gate) | Composite(body: seq<Instruction>)

  function GateQubits(g: Gate): set<nat> {
    match g
    case RX(q, _) => {q}
    case RY(q, _) => {q}
    case CRY(c, t, _) => {c, t}
  }

  /** The gates a circuit applies, with every sub-circuit expanded in place. */
  function Flatten(ins: seq<Instruction>): seq<Gate>
    decreases ins
  {
    if ins == [] then []
    else
      (match ins[0]
       case Op(g) => [g]
       case Composite(body) => Flatten(body))
      + Flatten(ins[1..])
  }

  lemma {:induction false} FlattenAppend(a: seq<Instruction>, b: seq<Instruction>)
    ensures Flatten(a + b) == Flatten(a) + Flatten(b)
    decreases a
  {
    if a == [] {
      assert a + b == b;
    } else {
      assert (a + b)[0] == a[0];
      assert (a + b)[1..] == a[1..] + b;
      FlattenAppend(a[1..], b);
    }
  }

  lemma FlattenSingle(i: Instruction)
    ensures Flatten([i]) == match i case Op(g) => [g] case Composite(body) => Flatten(body)
  {
    assert [i][1..] == [];
  }

  /** A gate acts only on qubits below `n`, and a controlled rotation has
      distinct control and target. */
  predicate GateOn(g: Gate, n: nat) {
    match g
    case RX(q, _) => q < n
    case RY(q, _) => q < n
    case CRY(c, t, _) => c < n && t < n && c != t
  }

  /** Every gate of the circuit, sub-circuits expanded, is valid on `n` qubits. */
  ghost predicate WellFormed(ins: seq<Instruction>, n: nat) {
    forall g :: g in Flatten(ins) ==> GateOn(g, n)
  }

  lemma WellFormedAppend(a: seq<Instruction>, b: seq<Instruction>, n: nat)
    ensures WellFormed(a + b, n) <==> WellFormed(a, n) && WellFormed(b, n)
  {
    FlattenAppend(a, b);
  }

  /** The set of qubits a circuit touches. */
  function Touched(ins: seq<Instruction>): (r: set<nat>)
    ensures forall q :: q in r <==> exists g :: g in Flatten(ins) && q in GateQubits(g)
  {
    set g, q | g in Flatten(ins) && q in GateQubits(g) :: q
  }

  /** The (control, target) pairs of the controlled rotations of a circuit. */
  function ControlPairs(ins: seq<Instruction>): (r: set<(nat, nat)>)
    ensures forall c: nat, t: nat :: (c, t) in r <==> exists a :: CRY(c, t, a) in Flatten(ins)
  {
    set g | g in Flatten(ins) && g.CRY? :: (g.control, g.target)
  }

  /** A quantum circuit object: a qubit count fixed at creation and the list
      of instructions appended to it so far. */
  class QuantumCircuit {
    const numQubits: nat
    var data: seq<Instruction>

    ghost predicate Valid()
      reads this
    {
      WellFormed(data, numQubits)
    }

    constructor (n: nat)
      ensures numQubits == n && data == []
      ensures Valid()
    {
      numQubits := n;
      data := [];
    }

    /** X-axis rotation of `qubit`. */
    method Rx(angle: Angle, qubit: nat)
      requires Valid() && qubit < numQubits
      modifies this
      ensures Valid()
      ensures data == old(data) + [Op(RX(qubit, angle))]
    {
      FlattenSingle(Op(RX(qubit, angle)));
      WellFormedAppend(data, [Op(RX(qubit, angle))], numQubits);
      data := data + [Op(RX(qubit, angle))];
    }

    /** Y-axis rotation of `qubit`. */
    method Ry(angle: Angle, qubit: nat)
      requires Valid() && qubit < numQubits
      modifies this
      ensures Valid()
      ensures data == old(data) + [Op(RY(qubit, angle))]
    {
      FlattenSingle(Op(RY(qubit, angle)));
      WellFormedAppend(data, [Op(RY(qubit, angle))], numQubits);
      data := data + [Op(RY(qubit, angle))];
    }

    /** Y-axis rotation of `target`, controlled by `control`. */
    method Cry(angle: Angle, control: nat, target: nat)
      requires Valid() && control < numQubits && target < numQubits && control != target
      modifies this
      ensures Valid()
      ensures data == old(data) + [Op(CRY(control, target, angle))]
    {
      FlattenSingle(Op(CRY(control, target, angle)));
      WellFormedAppend(data, [Op(CRY(control, target, angle))], numQubits);
      data := data + [Op(CRY(control, target, angle))];
    }

    /** Appends `sub` as one instruction on qubits `0 .. numQubits - 1`. */
    method Append(sub: QuantumCircuit)
      requires Valid() && sub.Valid() && sub.numQubits == numQubits
      modifies this
      ensures Valid()
      ensures data == old(data) + [Composite(old(sub.data))]
    {
      FlattenSingle(Composite(sub.data));
      WellFormedAppend(data, [Composite(sub.data)], numQubits);
      data := data + [Composite(sub.data)];
    }
  }
}
