/**
 * The gate-block builders `make_c`, `make_e`, `make_m` (single-qubit
 * rotations) and `make_o`, `make_inn`, `make_d` (controlled rotations).
 *
 * The nine qubits stand for the cells of the row-major 3x3 board: corners
 * 0, 2, 6, 8, edges 1, 3, 5, 7 and the centre 4. Each builder creates a fresh
 * 9-qubit circuit and appends its gates over a fixed qubit group.
 */
module Blocks {
  import opened Circuits

  const Corners: seq<nat> := [0, 2, 6, 8]
  const Edges: seq<nat> := [1, 3, 5, 7]
  const Center: nat := 4

  /** The control -> target pairs of the outer ring, in the order `make_o` uses. */
  const OuterPairs: seq<(nat, nat)> := [(0, 1), (0, 3), (2, 1), (2, 5), (6, 3), (6, 7), (8, 5), (8, 7)]
  /** Each edge controls the centre, in the order `make_inn` uses. */
  const InnerPairs: seq<(nat, nat)> := [(1, 4), (3, 4), (5, 4), (7, 4)]
  /** The centre controls each corner, in the order `make_d` uses. */
  const DownPairs: seq<(nat, nat)> := [(4, 0), (4, 2), (4, 6), (4, 8)]

  // ---------------------------------------------------------------------------
  // Grid geometry

  /** Row and column of a cell of the row-major 3x3 grid. */
  function RowOf(q: nat): nat { q / 3 }
  function ColOf(q: nat): nat { q % 3 }

  /** Coordinates one apart. */
  predicate Apart(x: nat, y: nat) { x + 1 == y || y + 1 == x }

  /** Cells of the board sharing a side. */
  predicate Adjacent(a: nat, b: nat) {
    && a < 9 && b < 9
    && ((RowOf(a) == RowOf(b) && Apart(ColOf(a), ColOf(b))) || (ColOf(a) == ColOf(b) && Apart(RowOf(a), RowOf(b))))
  }

  /** Cells of the board touching at a corner only. */
  predicate DiagonalNeighbours(a: nat, b: nat) {
    a < 9 && b < 9 && Apart(RowOf(a), RowOf(b)) && Apart(ColOf(a), ColOf(b))
  }

  lemma GroupsOnBoard()
    ensures forall k :: 0 <= k < |Corners| ==> Corners[k] < 9 && Corners[k] != Center
    ensures forall k :: 0 <= k < |Edges| ==> Edges[k] < 9 && Edges[k] != Center
    ensures forall k :: 0 <= k < |OuterPairs| ==> OuterPairs[k].0 < 9 && OuterPairs[k].1 < 9 && OuterPairs[k].0 != OuterPairs[k].1
    ensures |InnerPairs| == |Edges| && forall k :: 0 <= k < |Edges| ==> InnerPairs[k] == (Edges[k], Center)
    ensures |DownPairs| == |Corners| && forall k :: 0 <= k < |Corners| ==> DownPairs[k] == (Center, Corners[k])
  {
    forall k | 0 <= k < 8
      ensures k < 4 ==> Corners[k] < 9 && Corners[k] != Center && Edges[k] < 9 && Edges[k] != Center
      ensures k < 4 ==> InnerPairs[k] == (Edges[k], Center) && DownPairs[k] == (Center, Corners[k])
      ensures OuterPairs[k].0 < 9 && OuterPairs[k].1 < 9 && OuterPairs[k].0 != OuterPairs[k].1
    {
      assert k == 0 || k == 1 || k == 2 || k == 3 || k == 4 || k == 5 || k == 6 || k == 7;
    }
  }

  // ---------------------------------------------------------------------------
  // What each builder produces

  /** Single gates as instructions. */
  function Ops(gates: seq<Gate>): (r: seq<Instruction>)
    ensures |r| == |gates| && forall k :: 0 <= k < |gates| ==> r[k] == Op(gates[k])
  {
    seq(|gates|, k requires 0 <= k < |gates| => Op(gates[k]))
  }

  lemma {:induction false} FlattenOps(gates: seq<Gate>)
    ensures Flatten(Ops(gates)) == gates
    decreases |gates|
  {
    if gates != [] {
      assert Ops(gates)[1..] == Ops(gates[1..]);
      FlattenOps(gates[1..]);
    }
  }

  /** An X rotation then a Y rotation on each qubit of `qubits`, in order. */
  function Rotations(qubits: seq<nat>, theta1: Angle, theta2: Angle): seq<Gate>
    decreases |qubits|
  {
    if qubits == [] then []
    else
      var last := qubits[|qubits| - 1];
      Rotations(qubits[..|qubits| - 1], theta1, theta2) + [RX(last, theta1), RY(last, theta2)]
  }

  /** One controlled Y rotation per (control, target) pair, in order. */
  function ControlledRotations(pairs: seq<(nat, nat)>, theta: Angle): seq<Gate>
    decreases |pairs|
  {
    if pairs == [] then []
    else
      var last := pairs[|pairs| - 1];
      ControlledRotations(pairs[..|pairs| - 1], theta) + [CRY(last.0, last.1, theta)]
  }

  /** Gate 2k rotates qubit k about X by theta1, gate 2k + 1 about Y by theta2. */
  lemma {:induction false} RotationsAt(qubits: seq<nat>, theta1: Angle, theta2: Angle)
    ensures |Rotations(qubits, theta1, theta2)| == 2 * |qubits|
    ensures forall k :: 0 <= k < |qubits| ==>
      Rotations(qubits, theta1, theta2)[2 * k] == RX(qubits[k], theta1) &&
      Rotations(qubits, theta1, theta2)[2 * k + 1] == RY(qubits[k], theta2)
    decreases |qubits|
  {
    if qubits != [] {
      RotationsAt(qubits[..|qubits| - 1], theta1, theta2);
    }
  }

  /** Gate k is the controlled rotation of pair k. */
  lemma {:induction false} ControlledAt(pairs: seq<(nat, nat)>, theta: Angle)
    ensures |ControlledRotations(pairs, theta)| == |pairs|
    ensures forall k :: 0 <= k < |pairs| ==>
      ControlledRotations(pairs, theta)[k] == CRY(pairs[k].0, pairs[k].1, theta)
    decreases |pairs|
  {
    if pairs != [] {
      ControlledAt(pairs[..|pairs| - 1], theta);
    }
  }

  function CBlock(theta1: Angle, theta2: Angle): seq<Instruction> { Ops(Rotations(Corners, theta1, theta2)) }
  function EBlock(theta1: Angle, theta2: Angle): seq<Instruction> { Ops(Rotations(Edges, theta1, theta2)) }
  function MBlock(theta1: Angle, theta2: Angle): seq<Instruction> { Ops(Rotations([Center], theta1, theta2)) }
  function OBlock(theta: Angle): seq<Instruction> { Ops(ControlledRotations(OuterPairs, theta)) }
  function InnBlock(theta: Angle): seq<Instruction> { Ops(ControlledRotations(InnerPairs, theta)) }
  function DBlock(theta: Angle): seq<Instruction> { Ops(ControlledRotations(DownPairs, theta)) }

  // ---------------------------------------------------------------------------
  // The builders

  lemma RotationsStep(qubits: seq<nat>, k: nat, theta1: Angle, theta2: Angle)
    requires k < |qubits|
    ensures Ops(Rotations(qubits[..k + 1], theta1, theta2))
         == Ops(Rotations(qubits[..k], theta1, theta2)) + [Op(RX(qubits[k], theta1)), Op(RY(qubits[k], theta2))]
  {
    assert qubits[..k + 1][..k] == qubits[..k];
  }

  lemma ControlledStep(pairs: seq<(nat, nat)>, k: nat, theta: Angle)
    requires k < |pairs|
    ensures Ops(ControlledRotations(pairs[..k + 1], theta))
         == Ops(ControlledRotations(pairs[..k], theta)) + [Op(CRY(pairs[k].0, pairs[k].1, theta))]
  {
    assert pairs[..k + 1][..k] == pairs[..k];
  }

  /** make_c: X then Y rotation on each corner. */
  method MakeC(theta1: Angle, theta2: Angle) returns (c: QuantumCircuit)
    ensures fresh(c) && c.numQubits == 9 && c.Valid()
    ensures c.data == CBlock(theta1, theta2)
  {
    GroupsOnBoard();
    c := new QuantumCircuit(9);
    for k := 0 to |Corners|
      invariant c.numQubits == 9 && c.Valid()
      invariant c.data == Ops(Rotations(Corners[..k], theta1, theta2))
    {
      var qb := Corners[k];
      RotationsStep(Corners, k, theta1, theta2);
      c.Rx(theta1, qb);
      c.Ry(theta2, qb);
    }
    assert Corners[..|Corners|] == Corners;
  }

  /** make_e: X then Y rotation on each edge. */
  method MakeE(theta1: Angle, theta2: Angle) returns (e: QuantumCircuit)
    ensures fresh(e) && e.numQubits == 9 && e.Valid()
    ensures e.data == EBlock(theta1, theta2)
  {
    GroupsOnBoard();
    e := new QuantumCircuit(9);
    for k := 0 to |Edges|
      invariant e.numQubits == 9 && e.Valid()
      invariant e.data == Ops(Rotations(Edges[..k], theta1, theta2))
    {
      var qb := Edges[k];
      RotationsStep(Edges, k, theta1, theta2);
      e.Rx(theta1, qb);
      e.Ry(theta2, qb);
    }
    assert Edges[..|Edges|] == Edges;
  }

  /** make_m: X then Y rotation on the centre. */
  method MakeM(theta1: Angle, theta2: Angle) returns (m: QuantumCircuit)
    ensures fresh(m) && m.numQubits == 9 && m.Valid()
    ensures m.data == MBlock(theta1, theta2)
  {
    m := new QuantumCircuit(9);
    m.Rx(theta1, Center);
    m.Ry(theta2, Center);
    assert [Center][..0] == [];
    assert Rotations([Center], theta1, theta2) == [RX(Center, theta1), RY(Center, theta2)];
  }

  /** make_o: controlled rotations around the outer ring, corner to edge. */
  method MakeO(theta: Angle) returns (o: QuantumCircuit)
    ensures fresh(o) && o.numQubits == 9 && o.Valid()
    ensures o.data == OBlock(theta)
  {
    GroupsOnBoard();
    o := new QuantumCircuit(9);
    for k := 0 to |OuterPairs|
      invariant o.numQubits == 9 && o.Valid()
      invariant o.data == Ops(ControlledRotations(OuterPairs[..k], theta))
    {
      var qbPair := OuterPairs[k];
      ControlledStep(OuterPairs, k, theta);
      o.Cry(theta, qbPair.0, qbPair.1);
    }
    assert OuterPairs[..|OuterPairs|] == OuterPairs;
  }

  /** make_inn: each edge controls a rotation of the centre. */
  method MakeInn(theta: Angle) returns (inn: QuantumCircuit)
    ensures fresh(inn) && inn.numQubits == 9 && inn.Valid()
    ensures inn.data == InnBlock(theta)
  {
    GroupsOnBoard();
    inn := new QuantumCircuit(9);
    for k := 0 to |Edges|
      invariant inn.numQubits == 9 && inn.Valid()
      invariant inn.data == Ops(ControlledRotations(InnerPairs[..k], theta))
    {
      var controlQb := Edges[k];
      ControlledStep(InnerPairs, k, theta);
      inn.Cry(theta, controlQb, Center);
    }
    assert InnerPairs[..|InnerPairs|] == InnerPairs;
  }

  /** make_d: the centre controls a rotation of each corner. */
  method MakeD(theta: Angle) returns (d: QuantumCircuit)
    ensures fresh(d) && d.numQubits == 9 && d.Valid()
    ensures d.data == DBlock(theta)
  {
    GroupsOnBoard();
    d := new QuantumCircuit(9);
    for k := 0 to |Corners|
      invariant d.numQubits == 9 && d.Valid()
      invariant d.data == Ops(ControlledRotations(DownPairs[..k], theta))
    {
      var targetQb := Corners[k];
      ControlledStep(DownPairs, k, theta);
      d.Cry(theta, Center, targetQb);
    }
    assert DownPairs[..|DownPairs|] == DownPairs;
  }

  // ---------------------------------------------------------------------------
  // Which qubits each block touches

  /** A rotation block touches exactly the qubits it is given and contains
      no controlled gate. */
  lemma RotationsTouchExactly(qubits: seq<nat>, theta1: Angle, theta2: Angle)
    ensures Touched(Ops(Rotations(qubits, theta1, theta2))) == set q | q in qubits
    ensures ControlPairs(Ops(Rotations(qubits, theta1, theta2))) == {}
  {
    RotationsTouchGiven(qubits, theta1, theta2);
    RotationsTouchOnlyGiven(qubits, theta1, theta2);
    RotationsUncontrolled(qubits, theta1, theta2);
  }

  lemma RotationsTouchGiven(qubits: seq<nat>, theta1: Angle, theta2: Angle)
    ensures forall k :: 0 <= k < |qubits| ==> qubits[k] in Touched(Ops(Rotations(qubits, theta1, theta2)))
  {
    var r := Rotations(qubits, theta1, theta2);
    RotationsAt(qubits, theta1, theta2);
    FlattenOps(r);
    forall k | 0 <= k < |qubits| ensures qubits[k] in Touched(Ops(r)) {
      assert r[2 * k] in r;
      assert qubits[k] in GateQubits(r[2 * k]);
    }
  }

  lemma RotationsTouchOnlyGiven(qubits: seq<nat>, theta1: Angle, theta2: Angle)
    ensures forall q :: q in Touched(Ops(Rotations(qubits, theta1, theta2))) ==> q in qubits
  {
    var r := Rotations(qubits, theta1, theta2);
    RotationsAt(qubits, theta1, theta2);
    FlattenOps(r);
    forall q | q in Touched(Ops(r)) ensures q in qubits {
      var g :| g in r && q in GateQubits(g);
      var i :| 0 <= i < |r| && r[i] == g;
      var k := i / 2;
      assert i == 2 * k || i == 2 * k + 1;
      assert qubits[k] == q;
    }
  }

  lemma RotationsUncontrolled(qubits: seq<nat>, theta1: Angle, theta2: Angle)
    ensures ControlPairs(Ops(Rotations(qubits, theta1, theta2))) == {}
  {
    var r := Rotations(qubits, theta1, theta2);
    RotationsAt(qubits, theta1, theta2);
    FlattenOps(r);
    forall g | g in r ensures !g.CRY? {
      var i :| 0 <= i < |r| && r[i] == g;
      var k := i / 2;
      if i == 2 * k {
        assert g == RX(qubits[k], theta1);
      } else {
        assert i == 2 * k + 1;
        assert g == RY(qubits[k], theta2);
      }
    }
  }

  /** make_c touches the corners only, make_e the edges only, make_m the
      centre only; none of them has a controlled gate. */
  lemma SingleQubitBlocksTouchTheirGroup(theta1: Angle, theta2: Angle)
    ensures Touched(CBlock(theta1, theta2)) == {0, 2, 6, 8}
    ensures Touched(EBlock(theta1, theta2)) == {1, 3, 5, 7}
    ensures Touched(MBlock(theta1, theta2)) == {4}
    ensures ControlPairs(CBlock(theta1, theta2)) == ControlPairs(EBlock(theta1, theta2))
         == ControlPairs(MBlock(theta1, theta2)) == {}
  {
    assert Touched(CBlock(theta1, theta2)) == {0, 2, 6, 8} by {
      RotationsTouchExactly(Corners, theta1, theta2);
      assert (set q | q in Corners) == {0, 2, 6, 8};
    }
    assert Touched(EBlock(theta1, theta2)) == {1, 3, 5, 7} by {
      RotationsTouchExactly(Edges, theta1, theta2);
      assert (set q | q in Edges) == {1, 3, 5, 7};
    }
    assert Touched(MBlock(theta1, theta2)) == {4} by {
      RotationsTouchExactly([Center], theta1, theta2);
      assert (set q | q in [Center]) == {4};
    }
    RotationsUncontrolled(Corners, theta1, theta2);
    RotationsUncontrolled(Edges, theta1, theta2);
    RotationsUncontrolled([Center], theta1, theta2);
  }

  /** The controls and the targets of a list of pairs. */
  function Controls(pairs: seq<(nat, nat)>): set<nat> {
    if pairs == [] then {} else {pairs[0].0} + Controls(pairs[1..])
  }

  function Targets(pairs: seq<(nat, nat)>): set<nat> {
    if pairs == [] then {} else {pairs[0].1} + Targets(pairs[1..])
  }

  lemma {:induction false} EndpointsMembership(pairs: seq<(nat, nat)>)
    ensures forall q :: q in Controls(pairs) <==> exists k :: 0 <= k < |pairs| && pairs[k].0 == q
    ensures forall q :: q in Targets(pairs) <==> exists k :: 0 <= k < |pairs| && pairs[k].1 == q
    decreases |pairs|
  {
    if pairs != [] {
      EndpointsMembership(pairs[1..]);
      forall q
        ensures q in Controls(pairs) <==> exists k :: 0 <= k < |pairs| && pairs[k].0 == q
        ensures q in Targets(pairs) <==> exists k :: 0 <= k < |pairs| && pairs[k].1 == q
      {
        if exists k :: 0 <= k < |pairs| && (pairs[k].0 == q || pairs[k].1 == q) {
          var k :| 0 <= k < |pairs| && (pairs[k].0 == q || pairs[k].1 == q);
          if k > 0 {
            assert pairs[1..][k - 1] == pairs[k];
          }
        }
        if q in Controls(pairs[1..]) {
          var k :| 0 <= k < |pairs| - 1 && pairs[1..][k].0 == q;
          assert pairs[k + 1].0 == q;
        }
        if q in Targets(pairs[1..]) {
          var k :| 0 <= k < |pairs| - 1 && pairs[1..][k].1 == q;
          assert pairs[k + 1].1 == q;
        }
      }
    }
  }

  /** A controlled block has exactly the given (control, target) pairs. */
  lemma ControlledPairsExactly(pairs: seq<(nat, nat)>, theta: Angle)
    ensures forall p :: p in ControlPairs(Ops(ControlledRotations(pairs, theta))) <==> p in pairs
  {
    var r := ControlledRotations(pairs, theta);
    ControlledAt(pairs, theta);
    FlattenOps(r);
    forall p ensures p in ControlPairs(Ops(r)) <==> p in pairs {
      if p in pairs {
        var k :| 0 <= k < |pairs| && pairs[k] == p;
        assert r[k] in r;
      }
      if p in ControlPairs(Ops(r)) {
        var a :| CRY(p.0, p.1, a) in r;
        var k :| 0 <= k < |r| && r[k] == CRY(p.0, p.1, a);
        assert pairs[k] == p;
      }
    }
  }

  /** A controlled block touches exactly the controls and targets of its pairs. */
  lemma ControlledTouches(pairs: seq<(nat, nat)>, theta: Angle)
    ensures Touched(Ops(ControlledRotations(pairs, theta))) == Controls(pairs) + Targets(pairs)
  {
    EndpointsMembership(pairs);
    TouchedOnlyEndpoints(pairs, theta);
    EndpointsTouched(pairs, theta);
  }

  lemma TouchedOnlyEndpoints(pairs: seq<(nat, nat)>, theta: Angle)
    ensures forall q :: q in Touched(Ops(ControlledRotations(pairs, theta))) ==>
      exists k :: 0 <= k < |pairs| && (pairs[k].0 == q || pairs[k].1 == q)
  {
    var r := ControlledRotations(pairs, theta);
    ControlledAt(pairs, theta);
    FlattenOps(r);
    forall q | q in Touched(Ops(r))
      ensures exists k :: 0 <= k < |pairs| && (pairs[k].0 == q || pairs[k].1 == q)
    {
      var g :| g in r && q in GateQubits(g);
      var k :| 0 <= k < |r| && r[k] == g;
      assert pairs[k].0 == q || pairs[k].1 == q;
    }
  }

  lemma EndpointsTouched(pairs: seq<(nat, nat)>, theta: Angle)
    ensures forall k :: 0 <= k < |pairs| ==>
      pairs[k].0 in Touched(Ops(ControlledRotations(pairs, theta))) &&
      pairs[k].1 in Touched(Ops(ControlledRotations(pairs, theta)))
  {
    var r := ControlledRotations(pairs, theta);
    ControlledAt(pairs, theta);
    FlattenOps(r);
    forall k | 0 <= k < |pairs|
      ensures pairs[k].0 in Touched(Ops(r)) && pairs[k].1 in Touched(Ops(r))
    {
      assert r[k] in r && pairs[k].0 in GateQubits(r[k]) && pairs[k].1 in GateQubits(r[k]);
    }
  }

  /** The outer-ring pairs are the side-sharing corner/edge pairs. */
  lemma OuterPairsAreAdjacency()
    ensures forall c: nat, e: nat :: (c, e) in OuterPairs <==> c in Corners && e in Edges && Adjacent(c, e)
  {
    forall c: nat, e: nat ensures (c, e) in OuterPairs <==> c in Corners && e in Edges && Adjacent(c, e) {
      if c in Corners && e in Edges {
        CornerEdge(c, e);
      } else {
        OuterPairsFromCornersToEdges(c, e);
      }
    }
  }

  lemma CornerEdge(c: nat, e: nat)
    requires c in Corners && e in Edges
    ensures (c, e) in OuterPairs <==> Adjacent(c, e)
  {
    assert c == 0 || c == 2 || c == 6 || c == 8;
    assert e == 1 || e == 3 || e == 5 || e == 7;
  }

  lemma OuterPairsFromCornersToEdges(c: nat, e: nat)
    ensures (c, e) in OuterPairs ==> c in Corners && e in Edges
  {
    if (c, e) in OuterPairs {
      var k :| 0 <= k < |OuterPairs| && OuterPairs[k] == (c, e);
      assert k == 0 || k == 1 || k == 2 || k == 3 || k == 4 || k == 5 || k == 6 || k == 7;
    }
  }

  /** The controls and targets of the three pair lists. */
  lemma OuterEndpoints()
    ensures Controls(OuterPairs) + Targets(OuterPairs) == {0, 1, 2, 3, 5, 6, 7, 8}
  {
    OuterControls();
    OuterTargets();
  }

  lemma OuterControls()
    ensures Controls(OuterPairs) == {0, 2, 6, 8}
  {
  }

  lemma OuterTargets()
    ensures Targets(OuterPairs) == {1, 3, 5, 7}
  {
  }

  lemma InnerEndpoints()
    ensures Controls(InnerPairs) + Targets(InnerPairs) == {1, 3, 4, 5, 7}
  {
    assert Controls(InnerPairs) == {1, 3, 5, 7};
    assert Targets(InnerPairs) == {4};
  }

  lemma DownEndpoints()
    ensures Controls(DownPairs) + Targets(DownPairs) == {0, 2, 4, 6, 8}
  {
    assert Controls(DownPairs) == {4};
    assert Targets(DownPairs) == {0, 2, 6, 8};
  }

  lemma OuterBlockPairs(theta: Angle)
    ensures forall c: nat, e: nat :: (c, e) in ControlPairs(OBlock(theta)) <==> c in Corners && e in Edges && Adjacent(c, e)
  {
    var pairs := ControlPairs(OBlock(theta));
    assert forall p :: p in pairs <==> p in OuterPairs by {
      ControlledPairsExactly(OuterPairs, theta);
    }
    OuterPairsAreAdjacency();
  }

  lemma OuterBlockTouches(theta: Angle)
    ensures Touched(OBlock(theta)) == {0, 1, 2, 3, 5, 6, 7, 8}
  {
    ControlledTouches(OuterPairs, theta);
    OuterEndpoints();
  }

  /** make_o: every controlled rotation goes from a corner to an edge next to
      it, and every side-sharing corner/edge pair has one. */
  lemma OuterRingIsCornerEdgeAdjacency(theta: Angle)
    ensures forall c: nat, e: nat :: (c, e) in ControlPairs(OBlock(theta)) <==> c in Corners && e in Edges && Adjacent(c, e)
    ensures Touched(OBlock(theta)) == {0, 1, 2, 3, 5, 6, 7, 8}
  {
    OuterBlockPairs(theta);
    OuterBlockTouches(theta);
  }

  /** The cells sharing a side with the centre are the edges; the cells
      diagonally next to it are the corners. */
  lemma CenterNeighbours()
    ensures forall q: nat :: q < 9 ==> (Adjacent(q, Center) <==> q in Edges)
    ensures forall q: nat :: q < 9 ==> (DiagonalNeighbours(Center, q) <==> q in Corners)
  {
    forall q: nat | q < 9
      ensures Adjacent(q, Center) <==> q in Edges
      ensures DiagonalNeighbours(Center, q) <==> q in Corners
    {
      CenterNeighbour(q);
    }
  }

  lemma CenterNeighbour(q: nat)
    requires q < 9
    ensures Adjacent(q, Center) <==> q in Edges
    ensures DiagonalNeighbours(Center, q) <==> q in Corners
  {
    assert q == 0 || q == 1 || q == 2 || q == 3 || q == 4 || q == 5 || q == 6 || q == 7 || q == 8;
  }

  lemma InnerAndDownPairs()
    ensures forall c: nat, t: nat :: (c, t) in InnerPairs <==> c in Edges && t == Center
    ensures forall c: nat, t: nat :: (c, t) in DownPairs <==> c == Center && t in Corners
  {
    forall c: nat, t: nat
      ensures (c, t) in InnerPairs <==> c in Edges && t == Center
      ensures (c, t) in DownPairs <==> c == Center && t in Corners
    {
      if c in Edges {
        assert c == 1 || c == 3 || c == 5 || c == 7;
      }
      if t in Corners {
        assert t == 0 || t == 2 || t == 6 || t == 8;
      }
    }
  }

  /** make_inn: each edge, and nothing else, controls a rotation of the
      centre; the edges are exactly the cells sharing a side with it. */
  lemma InnerBlockEdgesToCenter(theta: Angle)
    ensures forall c: nat, t: nat :: (c, t) in ControlPairs(InnBlock(theta)) <==> c in Edges && t == Center
    ensures forall q: nat :: q < 9 ==> (Adjacent(q, Center) <==> q in Edges)
    ensures Touched(InnBlock(theta)) == {1, 3, 4, 5, 7}
  {
    ControlledPairsExactly(InnerPairs, theta);
    ControlledTouches(InnerPairs, theta);
    CenterNeighbours();
    InnerAndDownPairs();
    InnerEndpoints();
  }

  /** make_d: the centre, and nothing else, controls a rotation of each
      corner; the corners are exactly the cells diagonally next to it. */
  lemma DownBlockCenterToCorners(theta: Angle)
    ensures forall c: nat, t: nat :: (c, t) in ControlPairs(DBlock(theta)) <==> c == Center && t in Corners
    ensures forall q: nat :: q < 9 ==> (DiagonalNeighbours(Center, q) <==> q in Corners)
    ensures Touched(DBlock(theta)) == {0, 2, 4, 6, 8}
  {
    ControlledPairsExactly(DownPairs, theta);
    ControlledTouches(DownPairs, theta);
    CenterNeighbours();
    InnerAndDownPairs();
    DownEndpoints();
  }
}
