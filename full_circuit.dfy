/**
 * The classifier circuit `make_full_circuit(l, p, data_param_dict)`.
 *
 * The circuit has `l` layers. Each layer encodes the nine board cells with one
 * X rotation per qubit, then repeats `p` times the six blocks c, e, m, d, o,
 * inn. The blocks take their angles from a list of `9 * p * l` weight
 * parameters, handed out by a running counter that advances by 9 per
 * repetition. A weight parameter is named here by its position in that list.
 */
module FullCircuit {
  import opened Circuits
  import opened Blocks

  // ---------------------------------------------------------------------------
  // The layout of the circuit

  /** The encoding rotations of cells 0 .. n - 1, cell j on qubit j. */
  function EncodingGates(n: nat): (r: seq<Gate>)
    ensures |r| == n
    ensures forall j :: 0 <= j < n ==> r[j] == RX(j, Encoded(j))
  {
    seq(n, j requires 0 <= j < n => RX(j, Encoded(j)))
  }

  /** The start of every layer: one encoding rotation per board cell. */
  function Encoding(): seq<Instruction> {
    Ops(EncodingGates(9))
  }

  /** Block k of the repetition that starts at weight t: c, e, m, d, o, inn
      for k = 0 .. 5, each with the next unused weights. */
  function Block(k: nat, t: nat): Instruction
    requires k < 6
  {
    if k == 0 then Composite(CBlock(Weight(t), Weight(t + 1)))
    else if k == 1 then Composite(EBlock(Weight(t + 2), Weight(t + 3)))
    else if k == 2 then Composite(MBlock(Weight(t + 4), Weight(t + 5)))
    else if k == 3 then Composite(DBlock(Weight(t + 6)))
    else if k == 4 then Composite(OBlock(Weight(t + 7)))
    else Composite(InnBlock(Weight(t + 8)))
  }

  /** One repetition of the six blocks, taking weights t .. t + 8 in order. */
  function Repetition(t: nat): seq<Instruction> {
    seq(6, k requires 0 <= k < 6 => Block(k, t))
  }

  /** `r` repetitions, the first one starting at weight `base`. */
  function Repetitions(base: nat, r: nat): (s: seq<Instruction>)
    decreases r
  {
    if r == 0 then [] else Repetitions(base, r - 1) + Repetition(base + 9 * (r - 1))
  }

  /** The first `l` layers of a circuit with `p` repetitions per layer. */
  function Layers(l: nat, p: nat): (s: seq<Instruction>)
    decreases l
  {
    if l == 0 then [] else Layers(l - 1, p) + Encoding() + Repetitions(9 * p * (l - 1), p)
  }

  // ---------------------------------------------------------------------------
  // The builder

  lemma EncodingStep(j: nat)
    ensures Ops(EncodingGates(j + 1)) == Ops(EncodingGates(j)) + [Op(RX(j, Encoded(j)))]
  {
  }

  lemma RepetitionAppended(before: seq<Instruction>, t: nat)
    ensures before + [Block(0, t)] + [Block(1, t)] + [Block(2, t)] + [Block(3, t)]
          + [Block(4, t)] + [Block(5, t)] == before + Repetition(t)
  {
  }

  lemma RepetitionsStep(base: nat, j: nat)
    ensures Repetitions(base, j + 1) == Repetitions(base, j) + Repetition(base + 9 * j)
  {
  }

  lemma Distribute(x: nat, l: nat)
    requires l > 0
    ensures x * (l - 1) + x == x * l
  {
  }

  lemma MulMono(x: nat, a: nat, b: nat)
    requires a <= b
    ensures x * a <= x * b
  {
    assert x * b == x * a + x * (b - a);
  }

  /** The counter arithmetic of layer i: the next layer starts 9 * p later,
      at most at 9 * p * l. */
  lemma LayerArithmetic(p: nat, l: nat, i: nat)
    requires i < l
    ensures 9 * p * i + 9 * p <= 9 * p * l
    ensures 9 * p * i + 9 * p == 9 * p * (i + 1)
  {
    MulMono(9 * p, i + 1, l);
    Distribute(9 * p, i + 1);
  }

  /** The body of the inner loop of make_full_circuit: the six blocks of one
      repetition, taking weights t .. t + 8 from `thetas`. */
  method AppendRepetition(qc: QuantumCircuit, thetas: seq<Angle>, t: nat)
    requires qc.Valid() && qc.numQubits == 9
    requires t + 9 <= |thetas| && forall k :: 0 <= k < |thetas| ==> thetas[k] == Weight(k)
    modifies qc
    ensures qc.Valid()
    ensures qc.data == old(qc.data) + Repetition(t)
  {
    ghost var before := qc.data;
    var c := MakeC(thetas[t], thetas[t + 1]);
    qc.Append(c);
    assert qc.data == before + [Block(0, t)];
    var e := MakeE(thetas[t + 2], thetas[t + 3]);
    qc.Append(e);
    assert qc.data == before + [Block(0, t)] + [Block(1, t)];
    var m := MakeM(thetas[t + 4], thetas[t + 5]);
    qc.Append(m);
    assert qc.data == before + [Block(0, t)] + [Block(1, t)] + [Block(2, t)];
    var d := MakeD(thetas[t + 6]);
    qc.Append(d);
    assert qc.data == before + [Block(0, t)] + [Block(1, t)] + [Block(2, t)] + [Block(3, t)];
    var o := MakeO(thetas[t + 7]);
    qc.Append(o);
    assert qc.data == before + [Block(0, t)] + [Block(1, t)] + [Block(2, t)] + [Block(3, t)]
      + [Block(4, t)];
    var inn := MakeInn(thetas[t + 8]);
    qc.Append(inn);
    assert qc.data == before + [Block(0, t)] + [Block(1, t)] + [Block(2, t)] + [Block(3, t)]
      + [Block(4, t)] + [Block(5, t)];
    RepetitionAppended(before, t);
  }

  /** The encoding loop of make_full_circuit: one X rotation per cell, cell j
      on qubit j. */
  method AppendEncoding(qc: QuantumCircuit)
    requires qc.Valid() && qc.numQubits == 9
    modifies qc
    ensures qc.Valid()
    ensures qc.data == old(qc.data) + Encoding()
  {
    ghost var before := qc.data;
    for j := 0 to 9
      invariant qc.numQubits == 9 && qc.Valid()
      invariant qc.data == before + Ops(EncodingGates(j))
    {
      EncodingStep(j);
      qc.Rx(Encoded(j), j);
    }
  }

  /** The repetition loop of make_full_circuit: `p` repetitions, the first
      one taking its weights from position `base` of `thetas` on. */
  method AppendRepetitions(qc: QuantumCircuit, thetas: seq<Angle>, base: nat, p: nat)
    requires qc.Valid() && qc.numQubits == 9
    requires base + 9 * p <= |thetas| && forall k :: 0 <= k < |thetas| ==> thetas[k] == Weight(k)
    modifies qc
    ensures qc.Valid()
    ensures qc.data == old(qc.data) + Repetitions(base, p)
  {
    ghost var before := qc.data;
    var currTheta := base;
    for j := 0 to p
      invariant qc.numQubits == 9 && qc.Valid()
      invariant currTheta == base + 9 * j
      invariant qc.data == before + Repetitions(base, j)
    {
      AppendRepetition(qc, thetas, currTheta);
      RepetitionsStep(base, j);
      currTheta := currTheta + 9;
    }
  }

  /** make_full_circuit, with the encoding angle of cell j named `Encoded(j)`. */
  method MakeFullCircuit(l: nat, p: nat) returns (qc: QuantumCircuit)
    ensures fresh(qc) && qc.numQubits == 9 && qc.Valid()
    ensures qc.data == Layers(l, p)
  {
    var thetas := seq(9 * p * l, i requires 0 <= i => Weight(i));
    qc := new QuantumCircuit(9);
    var currTheta := 0;
    for i := 0 to l
      invariant fresh(qc) && qc.numQubits == 9 && qc.Valid()
      invariant currTheta == 9 * p * i
      invariant qc.data == Layers(i, p)
    {
      AppendEncoding(qc);
      LayerArithmetic(p, l, i);
      AppendRepetitions(qc, thetas, currTheta, p);
      currTheta := currTheta + 9 * p;
    }
  }

  // ---------------------------------------------------------------------------
  // Shape of the circuit

  lemma {:induction false} RepetitionsLength(base: nat, r: nat)
    ensures |Repetitions(base, r)| == 6 * r
    decreases r
  {
    if r > 0 {
      RepetitionsLength(base, r - 1);
    }
  }

  /** A layer is 9 encoding rotations and 6 blocks per repetition. */
  lemma {:induction false} LayersLength(l: nat, p: nat)
    ensures |Layers(l, p)| == l * (9 + 6 * p)
    decreases l
  {
    if l > 0 {
      LayersLength(l - 1, p);
      RepetitionsLength(9 * p * (l - 1), p);
      assert l * (9 + 6 * p) == (l - 1) * (9 + 6 * p) + 9 + 6 * p;
    }
  }

  /** A run of repetitions splits around its j-th repetition, which starts at
      weight base + 9 * j and holds blocks c, e, m, d, o, inn in that order. */
  lemma {:induction false} RepetitionsSplit(base: nat, r: nat, j: nat)
    requires j < r
    ensures Repetitions(base, r)
         == Repetitions(base, j) + Repetition(base + 9 * j) + Repetitions(base + 9 * (j + 1), r - j - 1)
    decreases r
  {
    if j < r - 1 {
      RepetitionsSplit(base, r - 1, j);
      assert base + 9 * (j + 1) + 9 * (r - j - 2) == base + 9 * (r - 1);
    }
  }

  /** Layer i of any longer circuit is the nine encoding rotations followed
      by p repetitions whose weights start at 9 * p * i. */
  lemma {:induction false} LayerAt(l: nat, p: nat, i: nat)
    requires i < l
    ensures Layers(i, p) + Encoding() + Repetitions(9 * p * i, p) <= Layers(l, p)
    decreases l
  {
    if i < l - 1 {
      LayerAt(l - 1, p, i);
    }
  }

  // ---------------------------------------------------------------------------
  // Qubits

  lemma CompositeOn(body: seq<Instruction>, n: nat)
    requires WellFormed(body, n)
    ensures WellFormed([Composite(body)], n)
  {
    FlattenSingle(Composite(body));
  }

  lemma BlockOnBoard(k: nat, t: nat)
    requires k < 6
    ensures WellFormed([Block(k, t)], 9)
  {
    GroupsOnBoard();
    if k == 0 {
      var g := Rotations(Corners, Weight(t), Weight(t + 1));
      FlattenOps(g);
      RotationsOn(Corners, Weight(t), Weight(t + 1));
      CompositeOn(Ops(g), 9);
    } else if k == 1 {
      var g := Rotations(Edges, Weight(t + 2), Weight(t + 3));
      FlattenOps(g);
      RotationsOn(Edges, Weight(t + 2), Weight(t + 3));
      CompositeOn(Ops(g), 9);
    } else if k == 2 {
      var g := Rotations([Center], Weight(t + 4), Weight(t + 5));
      FlattenOps(g);
      RotationsOn([Center], Weight(t + 4), Weight(t + 5));
      CompositeOn(Ops(g), 9);
    } else if k == 3 {
      var g := ControlledRotations(DownPairs, Weight(t + 6));
      FlattenOps(g);
      ControlledOn(DownPairs, Weight(t + 6));
      CompositeOn(Ops(g), 9);
    } else if k == 4 {
      var g := ControlledRotations(OuterPairs, Weight(t + 7));
      FlattenOps(g);
      ControlledOn(OuterPairs, Weight(t + 7));
      CompositeOn(Ops(g), 9);
    } else {
      var g := ControlledRotations(InnerPairs, Weight(t + 8));
      FlattenOps(g);
      ControlledOn(InnerPairs, Weight(t + 8));
      CompositeOn(Ops(g), 9);
    }
  }

  /** A circuit is well formed when each of its instructions is. */
  lemma {:induction false} WellFormedEach(ins: seq<Instruction>, n: nat)
    requires forall k :: 0 <= k < |ins| ==> WellFormed([ins[k]], n)
    ensures WellFormed(ins, n)
    decreases |ins|
  {
    if ins != [] {
      assert ins == [ins[0]] + ins[1..];
      assert forall k :: 0 <= k < |ins| - 1 ==> ins[1..][k] == ins[k + 1];
      WellFormedEach(ins[1..], n);
      WellFormedAppend([ins[0]], ins[1..], n);
    }
  }

  lemma BlocksOnBoard(t: nat)
    ensures WellFormed(Repetition(t), 9)
  {
    forall k | 0 <= k < |Repetition(t)| ensures WellFormed([Repetition(t)[k]], 9) {
      BlockOnBoard(k, t);
    }
    WellFormedEach(Repetition(t), 9);
  }

  lemma RotationsOn(qubits: seq<nat>, theta1: Angle, theta2: Angle)
    requires forall k :: 0 <= k < |qubits| ==> qubits[k] < 9
    ensures forall g :: g in Rotations(qubits, theta1, theta2) ==> GateOn(g, 9)
  {
    var r := Rotations(qubits, theta1, theta2);
    RotationsAt(qubits, theta1, theta2);
    forall g | g in r ensures GateOn(g, 9) {
      var i :| 0 <= i < |r| && r[i] == g;
      var k := i / 2;
      assert i == 2 * k || i == 2 * k + 1;
    }
  }

  lemma ControlledOn(pairs: seq<(nat, nat)>, theta: Angle)
    requires forall k :: 0 <= k < |pairs| ==> pairs[k].0 < 9 && pairs[k].1 < 9 && pairs[k].0 != pairs[k].1
    ensures forall g :: g in ControlledRotations(pairs, theta) ==> GateOn(g, 9)
  {
    ControlledAt(pairs, theta);
  }

  lemma EncodingOnBoard()
    ensures WellFormed(Encoding(), 9)
  {
    FlattenOps(EncodingGates(9));
  }

  lemma {:induction false} RepetitionsOnBoard(base: nat, r: nat)
    ensures WellFormed(Repetitions(base, r), 9)
    decreases r
  {
    if r > 0 {
      RepetitionsOnBoard(base, r - 1);
      BlocksOnBoard(base + 9 * (r - 1));
      WellFormedAppend(Repetitions(base, r - 1), Repetition(base + 9 * (r - 1)), 9);
    }
  }

  /** Every gate of the full circuit, blocks expanded, acts on qubits 0 .. 8,
      and no controlled rotation has its control as its target. */
  lemma {:induction false} LayersOnBoard(l: nat, p: nat)
    ensures WellFormed(Layers(l, p), 9)
    decreases l
  {
    if l > 0 {
      var prev, reps := Layers(l - 1, p), Repetitions(9 * p * (l - 1), p);
      assert WellFormed(prev, 9) by { LayersOnBoard(l - 1, p); }
      assert WellFormed(Encoding(), 9) by { EncodingOnBoard(); }
      assert WellFormed(reps, 9) by { RepetitionsOnBoard(9 * p * (l - 1), p); }
      WellFormedAppend(prev, Encoding(), 9);
      WellFormedAppend(prev + Encoding(), reps, 9);
    }
  }

  // ---------------------------------------------------------------------------
  // Weight slots

  function AngleWeights(a: Angle): set<nat> {
    if a.Weight? then {a.index} else {}
  }

  /** The weight parameters a list of gates uses. */
  function WeightsOf(gs: seq<Gate>): set<nat>
    decreases |gs|
  {
    if gs == [] then {} else AngleWeights(gs[0].angle) + WeightsOf(gs[1..])
  }

  /** The weight parameters a circuit uses, blocks expanded. */
  function Used(ins: seq<Instruction>): set<nat> {
    WeightsOf(Flatten(ins))
  }

  /** The weight slot of one instruction: the weights it uses. */
  function Slot(i: Instruction): set<nat> {
    Used([i])
  }

  /** Every weight of an earlier slot is below every weight of a later one;
      in particular no weight belongs to two slots. */
  ghost predicate Increasing(ins: seq<Instruction>) {
    forall a, b, x, y :: 0 <= a < b < |ins| && x in Slot(ins[a]) && y in Slot(ins[b]) ==> x < y
  }

  lemma {:induction false} WeightsOfAppend(a: seq<Gate>, b: seq<Gate>)
    ensures WeightsOf(a + b) == WeightsOf(a) + WeightsOf(b)
    decreases |a|
  {
    if a == [] {
      assert a + b == b;
    } else {
      assert (a + b)[1..] == a[1..] + b;
      WeightsOfAppend(a[1..], b);
    }
  }

  lemma UsedAppend(a: seq<Instruction>, b: seq<Instruction>)
    ensures Used(a + b) == Used(a) + Used(b)
  {
    FlattenAppend(a, b);
    WeightsOfAppend(Flatten(a), Flatten(b));
  }

  /** A weight is used by a circuit exactly when it is in one of its slots. */
  lemma {:induction false} UsedBySlots(ins: seq<Instruction>)
    ensures forall w :: w in Used(ins) <==> exists k :: 0 <= k < |ins| && w in Slot(ins[k])
    decreases |ins|
  {
    if ins != [] {
      assert ins == [ins[0]] + ins[1..];
      UsedAppend([ins[0]], ins[1..]);
      UsedBySlots(ins[1..]);
      forall w ensures w in Used(ins) <==> exists k :: 0 <= k < |ins| && w in Slot(ins[k]) {
        if exists k :: 0 <= k < |ins| && w in Slot(ins[k]) {
          var k :| 0 <= k < |ins| && w in Slot(ins[k]);
          if k > 0 {
            assert ins[1..][k - 1] == ins[k];
          }
        }
        if w in Used(ins[1..]) {
          var k :| 0 <= k < |ins| - 1 && w in Slot(ins[1..][k]);
          assert w in Slot(ins[k + 1]);
        }
      }
    }
  }

  lemma {:induction false} RotationWeights(qubits: seq<nat>, theta1: Angle, theta2: Angle)
    requires qubits != []
    ensures WeightsOf(Rotations(qubits, theta1, theta2)) == AngleWeights(theta1) + AngleWeights(theta2)
    decreases |qubits|
  {
    var n := |qubits| - 1;
    var pair := [RX(qubits[n], theta1), RY(qubits[n], theta2)];
    assert WeightsOf(pair) == AngleWeights(theta1) + AngleWeights(theta2) by {
      assert pair[1..] == [RY(qubits[n], theta2)];
      assert WeightsOf(pair[1..]) == AngleWeights(theta2) + WeightsOf([]);
    }
    WeightsOfAppend(Rotations(qubits[..n], theta1, theta2), pair);
    if n > 0 {
      RotationWeights(qubits[..n], theta1, theta2);
    }
  }

  lemma {:induction false} ControlledWeights(pairs: seq<(nat, nat)>, theta: Angle)
    requires pairs != []
    ensures WeightsOf(ControlledRotations(pairs, theta)) == AngleWeights(theta)
    decreases |pairs|
  {
    var n := |pairs| - 1;
    var last := [CRY(pairs[n].0, pairs[n].1, theta)];
    assert WeightsOf(last) == AngleWeights(theta);
    WeightsOfAppend(ControlledRotations(pairs[..n], theta), last);
    if n > 0 {
      ControlledWeights(pairs[..n], theta);
    }
  }

  lemma RotationBlockSlot(qubits: seq<nat>, theta1: nat, theta2: nat)
    requires qubits != []
    ensures Slot(Composite(Ops(Rotations(qubits, Weight(theta1), Weight(theta2))))) == {theta1, theta2}
  {
    var r := Rotations(qubits, Weight(theta1), Weight(theta2));
    FlattenSingle(Composite(Ops(r)));
    FlattenOps(r);
    RotationWeights(qubits, Weight(theta1), Weight(theta2));
  }

  lemma ControlledBlockSlot(pairs: seq<(nat, nat)>, theta: nat)
    requires pairs != []
    ensures Slot(Composite(Ops(ControlledRotations(pairs, Weight(theta))))) == {theta}
  {
    var r := ControlledRotations(pairs, Weight(theta));
    FlattenSingle(Composite(Ops(r)));
    FlattenOps(r);
    ControlledWeights(pairs, Weight(theta));
  }

  /** Offset, within a repetition, of the first weight of block k. */
  function Start(k: nat): nat {
    if k <= 3 then 2 * k else k + 3
  }

  /** Block k of the repetition starting at weight t uses exactly the weights
      t + Start(k) .. t + Start(k + 1) - 1: two each for c, e and m, one each
      for d, o and inn. */
  lemma BlockSlot(k: nat, t: nat)
    requires k < 6
    ensures forall w :: w in Slot(Block(k, t)) <==> t + Start(k) <= w < t + Start(k + 1)
  {
    if k == 0 {
      RotationBlockSlot(Corners, t, t + 1);
    } else if k == 1 {
      RotationBlockSlot(Edges, t + 2, t + 3);
    } else if k == 2 {
      RotationBlockSlot([Center], t + 4, t + 5);
    } else if k == 3 {
      ControlledBlockSlot(DownPairs, t + 6);
    } else if k == 4 {
      ControlledBlockSlot(OuterPairs, t + 7);
    } else {
      ControlledBlockSlot(InnerPairs, t + 8);
    }
  }

  /** Gates whose angles are all encoding angles use no weight. */
  lemma {:induction false} NoWeights(gs: seq<Gate>)
    requires forall k :: 0 <= k < |gs| ==> gs[k].angle.Encoded?
    ensures WeightsOf(gs) == {}
    decreases |gs|
  {
    if gs != [] {
      NoWeights(gs[1..]);
    }
  }

  lemma EncodingSlots()
    ensures Used(Encoding()) == {}
    ensures forall k :: 0 <= k < |Encoding()| ==> Slot(Encoding()[k]) == {}
  {
    FlattenOps(EncodingGates(9));
    NoWeights(EncodingGates(9));
    UsedBySlots(Encoding());
  }

  lemma SlotWithinUsed(ins: seq<Instruction>, k: nat)
    requires k < |ins|
    ensures Slot(ins[k]) <= Used(ins)
  {
    UsedBySlots(ins);
  }

  /** Two runs whose weights are separated by `m` stay increasing when joined. */
  lemma IncreasingAppend(a: seq<Instruction>, b: seq<Instruction>, m: nat)
    requires Increasing(a) && Increasing(b)
    requires forall x :: x in Used(a) ==> x < m
    requires forall y :: y in Used(b) ==> m <= y
    ensures Increasing(a + b)
  {
    var ab := a + b;
    forall i, j, x, y | 0 <= i < j < |ab| && x in Slot(ab[i]) && y in Slot(ab[j])
      ensures x < y
    {
      if j < |a| {
        assert ab[i] == a[i] && ab[j] == a[j];
      } else if |a| <= i {
        assert ab[i] == b[i - |a|] && ab[j] == b[j - |a|];
      } else {
        SlotWithinUsed(a, i);
        SlotWithinUsed(b, j - |a|);
        assert ab[i] == a[i] && ab[j] == b[j - |a|];
      }
    }
  }

  /** The blocks of one repetition take their weights in increasing order. */
  lemma RepetitionIncreasing(t: nat)
    ensures Increasing(Repetition(t))
  {
    var r := Repetition(t);
    forall a, b, x, y | 0 <= a < b < |r| && x in Slot(r[a]) && y in Slot(r[b])
      ensures x < y
    {
      BlockSlot(a, t);
      BlockSlot(b, t);
    }
  }

  /** One repetition uses exactly weights t .. t + 8. */
  lemma RepetitionUses(t: nat)
    ensures forall w :: w in Used(Repetition(t)) <==> t <= w < t + 9
  {
    var r := Repetition(t);
    UsedBySlots(r);
    forall w ensures w in Used(r) <==> t <= w < t + 9 {
      if w in Used(r) {
        var k :| 0 <= k < |r| && w in Slot(r[k]);
        BlockSlot(k, t);
      }
      if t <= w < t + 9 {
        var k := if w < t + 6 then (w - t) / 2 else w - t - 3;
        BlockSlot(k, t);
        assert w in Slot(r[k]);
      }
    }
  }

  /** `r` repetitions from `base` use exactly weights base .. base + 9r - 1,
      each repetition 9 more than the one before, in increasing slots. */
  lemma {:induction false} RepetitionsWeights(base: nat, r: nat)
    ensures forall w :: w in Used(Repetitions(base, r)) <==> base <= w < base + 9 * r
    ensures Increasing(Repetitions(base, r))
    decreases r
  {
    if r > 0 {
      var prev := Repetitions(base, r - 1);
      var last := Repetition(base + 9 * (r - 1));
      RepetitionsWeights(base, r - 1);
      RepetitionUses(base + 9 * (r - 1));
      RepetitionIncreasing(base + 9 * (r - 1));
      UsedAppend(prev, last);
      IncreasingAppend(prev, last, base + 9 * (r - 1));
    }
  }

  /** A layer whose repetitions start at `base` uses exactly weights
      base .. base + 9p - 1, in increasing slots; its encoding uses none. */
  lemma LayerWeights(base: nat, p: nat)
    ensures forall w :: w in Used(Encoding() + Repetitions(base, p)) <==> base <= w < base + 9 * p
    ensures Increasing(Encoding() + Repetitions(base, p))
  {
    var reps := Repetitions(base, p);
    RepetitionsWeights(base, p);
    EncodingSlots();
    UsedAppend(Encoding(), reps);
    IncreasingAppend(Encoding(), reps, base);
  }

  /** The weight slots of the full circuit: every weight index below 9 * p * l
      is used, no other is, and the blocks take them in increasing order, so
      each index belongs to exactly one block. */
  lemma {:induction false} LayersWeights(l: nat, p: nat)
    ensures forall w: nat :: w in Used(Layers(l, p)) <==> w < 9 * p * l
    ensures Increasing(Layers(l, p))
    decreases l
  {
    if l > 0 {
      var prev := Layers(l - 1, p);
      var base := 9 * p * (l - 1);
      var tail := Encoding() + Repetitions(base, p);
      assert Layers(l, p) == prev + tail;
      assert (forall w: nat :: w in Used(prev) <==> w < base) && Increasing(prev) by {
        LayersWeights(l - 1, p);
      }
      assert (forall w :: w in Used(tail) <==> base <= w < base + 9 * p) && Increasing(tail) by {
        LayerWeights(base, p);
      }
      assert base + 9 * p == 9 * p * l by {
        Distribute(9 * p, l);
      }
      IncreasingAppend(prev, tail, base);
      UsedAppend(prev, tail);
    } else {
      assert 9 * p * l == 0;
    }
  }

  /** Layer i, with the counter at 9 * p * i on entry, uses exactly the weights
      9 * p * i .. 9 * p * (i + 1) - 1, all of them inside the list of 9 * p * l
      parameters: no weight is read out of bounds and the counter ends the
      layer at 9 * p * (i + 1). */
  lemma LayerBound(p: nat, l: nat, i: nat)
    requires i < l
    ensures forall w :: w in Used(Encoding() + Repetitions(9 * p * i, p)) <==> 9 * p * i <= w < 9 * p * (i + 1)
    ensures forall w :: w in Used(Encoding() + Repetitions(9 * p * i, p)) ==> w < 9 * p * l
  {
    LayerWeights(9 * p * i, p);
    LayerArithmetic(p, l, i);
  }
}
