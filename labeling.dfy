/**
 * The tic-tac-toe labeller `who_won`.
 *
 * A board is a flattened row-major 3x3 grid, one integer per cell (X = 1,
 * O = -1, empty = 0). The labeller scans eight cell triples in a fixed order,
 * sums the cells of each and stops at the first triple whose total is 3
 * (X wins) or -3 (O wins); if none is found the board is labelled a draw.
 * The labels are three-entry vectors with a single 1 at the class position:
 * X wins, draw, O wins.
 */
module Labeling {

  /** The triples of cells scanned, in the order the labeller tries them. */
  const Configurations: seq<seq<nat>> :=
    [[0, 1, 2], [0, 3, 6], [0, 4, 8], [3, 4, 5], [1, 4, 7], [6, 4, 2], [2, 5, 8], [6, 7, 8]]

  const XWins: seq<int> := [1, -1, -1]
  const Draw: seq<int> := [-1, 1, -1]
  const OWins: seq<int> := [-1, -1, 1]

  /** What the labeller produces: a label vector, or the IndexError raised by
      reading a cell past the end of a short board. */
  datatype Outcome = Label(vector: seq<int>) | IndexError(index: nat)

  /** Running total of a triple's cells, or the first cell found off the board. */
  datatype Total = Total(value: int) | OffBoard(index: nat)

  // ---------------------------------------------------------------------------
  // Reference geometry of the 3x3 grid

  function Row(r: nat): set<nat> { {3 * r, 3 * r + 1, 3 * r + 2} }
  function Column(c: nat): set<nat> { {c, c + 3, c + 6} }
  const MainDiagonal: set<nat> := {0, 4, 8}
  const AntiDiagonal: set<nat> := {2, 4, 6}

  /** A winning line: one of the three rows, three columns or two diagonals. */
  ghost predicate IsWinningLine(s: set<nat>) {
    || (exists r: nat :: r < 3 && s == Row(r))
    || (exists c: nat :: c < 3 && s == Column(c))
    || s == MainDiagonal
    || s == AntiDiagonal
  }

  function Cells(conf: seq<nat>): set<nat> { set i | i in conf }

  /** Every configuration is a triple of cells of the board. */
  lemma ConfigurationShape()
    ensures |Configurations| == 8
    ensures forall k :: 0 <= k < 8 ==> |Configurations[k]| == 3
    ensures forall k, i :: 0 <= k < 8 && 0 <= i < 3 ==> Configurations[k][i] < 9
  {
    forall k, i | 0 <= k < 8 && 0 <= i < 3
      ensures |Configurations[k]| == 3 && Configurations[k][i] < 9
    {
      assert k == 0 || k == 1 || k == 2 || k == 3 || k == 4 || k == 5 || k == 6 || k == 7;
    }
  }

  /** The membership bits of the cells 0..8 of a set, as a number. */
  function Mask(s: set<nat>): nat {
    (if 0 in s then 1 else 0) + (if 1 in s then 2 else 0) + (if 2 in s then 4 else 0)
    + (if 3 in s then 8 else 0) + (if 4 in s then 16 else 0) + (if 5 in s then 32 else 0)
    + (if 6 in s then 64 else 0) + (if 7 in s then 128 else 0) + (if 8 in s then 256 else 0)
  }

  /** The line each configuration covers, in list order. */
  lemma CellsOfConfigurations()
    ensures Cells(Configurations[0]) == Row(0)
    ensures Cells(Configurations[1]) == Column(0)
    ensures Cells(Configurations[2]) == MainDiagonal
    ensures Cells(Configurations[3]) == Row(1)
    ensures Cells(Configurations[4]) == Column(1)
    ensures Cells(Configurations[5]) == AntiDiagonal
    ensures Cells(Configurations[6]) == Column(2)
    ensures Cells(Configurations[7]) == Row(2)
  {
  }

  /** Each configuration is a winning line, given as three distinct cells. */
  lemma ConfigurationsAreWinningLines()
    ensures forall k :: 0 <= k < 8 ==> IsWinningLine(Cells(Configurations[k]))
    ensures forall k :: 0 <= k < 8 ==>
      Configurations[k][0] != Configurations[k][1] && Configurations[k][0] != Configurations[k][2]
      && Configurations[k][1] != Configurations[k][2]
  {
    var C := Configurations;
    ConfigurationShape();
    CellsOfConfigurations();
    forall k | 0 <= k < 8
      ensures IsWinningLine(Cells(C[k]))
      ensures C[k][0] != C[k][1] && C[k][0] != C[k][2] && C[k][1] != C[k][2]
    {
      assert k == 0 || k == 1 || k == 2 || k == 3 || k == 4 || k == 5 || k == 6 || k == 7;
    }
  }

  /** Every winning line is one of the configurations. */
  lemma EveryWinningLineIsScanned(s: set<nat>)
    requires IsWinningLine(s)
    ensures exists k :: 0 <= k < 8 && Cells(Configurations[k]) == s
  {
    var C := Configurations;
    CellsOfConfigurations();
    if r: nat :| r < 3 && s == Row(r) {
      assert Cells(C[if r == 0 then 0 else if r == 1 then 3 else 7]) == s;
    } else if c: nat :| c < 3 && s == Column(c) {
      assert Cells(C[if c == 0 then 1 else if c == 1 then 4 else 6]) == s;
    } else if s == MainDiagonal {
      assert Cells(C[2]) == s;
    } else {
      assert Cells(C[5]) == s;
    }
  }

  /** The cell masks of the configurations, in list order. */
  lemma ConfigurationMasks()
    ensures Mask(Cells(Configurations[0])) == 7 && Mask(Cells(Configurations[1])) == 73
    ensures Mask(Cells(Configurations[2])) == 273 && Mask(Cells(Configurations[3])) == 56
    ensures Mask(Cells(Configurations[4])) == 146 && Mask(Cells(Configurations[5])) == 84
    ensures Mask(Cells(Configurations[6])) == 292 && Mask(Cells(Configurations[7])) == 448
  {
    CellsOfConfigurations();
    LineMasks();
  }

  lemma LineMasks()
    ensures Mask(Row(0)) == 7 && Mask(Row(1)) == 56 && Mask(Row(2)) == 448
    ensures Mask(Column(0)) == 73 && Mask(Column(1)) == 146 && Mask(Column(2)) == 292
    ensures Mask(MainDiagonal) == 273 && Mask(AntiDiagonal) == 84
  {
    assert Row(0) == {0, 1, 2} && Row(1) == {3, 4, 5} && Row(2) == {6, 7, 8};
    assert Column(0) == {0, 3, 6} && Column(1) == {1, 4, 7} && Column(2) == {2, 5, 8};
  }

  /** No winning line is listed twice. */
  lemma ConfigurationsAreDistinct()
    ensures forall j, k :: 0 <= j < k < 8 ==> Cells(Configurations[j]) != Cells(Configurations[k])
  {
    var C := Configurations;
    var masks := [7, 73, 273, 56, 146, 84, 292, 448];
    forall k | 0 <= k < 8 ensures Mask(Cells(C[k])) == masks[k] {
      ConfigurationMasks();
      assert k == 0 || k == 1 || k == 2 || k == 3 || k == 4 || k == 5 || k == 6 || k == 7;
    }
    forall j, k | 0 <= j < k < 8 ensures masks[j] != masks[k] {
      assert j == 0 || j == 1 || j == 2 || j == 3 || j == 4 || j == 5 || j == 6;
    }
  }

  // ---------------------------------------------------------------------------
  // Specification of the scan

  /** The sum of the cells of `conf`, read left to right; reading a cell past
      the end of the board fails at the first such cell. */
  function LineTotal(position: seq<int>, conf: seq<nat>): Total
    decreases |conf|
  {
    if conf == [] then Total(0)
    else
      match LineTotal(position, conf[..|conf| - 1])
      case OffBoard(i) => OffBoard(i)
      case Total(t) =>
        var last := conf[|conf| - 1];
        if last < |position| then Total(t + position[last]) else OffBoard(last)
  }

  /** The labeller's result when the scan resumes at configuration `k`. */
  function Scan(position: seq<int>, k: nat): Outcome
    requires k <= |Configurations|
    decreases |Configurations| - k
  {
    if k == |Configurations| then Label(Draw)
    else
      match LineTotal(position, Configurations[k])
      case OffBoard(i) => IndexError(i)
      case Total(t) =>
        if t == 3 then Label(XWins)
        else if t == -3 then Label(OWins)
        else Scan(position, k + 1)
  }

  /** The sum of the cells of the `k`-th configuration of a full board. */
  function LineSum(position: seq<int>, k: nat): int
    requires |position| >= 9 && k < 8
  {
    ConfigurationShape();
    var conf := Configurations[k];
    position[conf[0]] + position[conf[1]] + position[conf[2]]
  }

  /** On a full board, reading a configuration never fails and yields its sum. */
  lemma LineTotalOfFullBoard(position: seq<int>, k: nat)
    requires |position| >= 9 && k < 8
    ensures LineTotal(position, Configurations[k]) == Total(LineSum(position, k))
  {
    ConfigurationShape();
    var conf := Configurations[k];
    assert conf[..1][..0] == [];
    assert LineTotal(position, conf[..1]) == Total(position[conf[0]]);
    assert conf[..2][..1] == conf[..1];
    assert LineTotal(position, conf[..2]) == Total(position[conf[0]] + position[conf[1]]);
    assert conf[..3][..2] == conf[..2];
    assert conf[..3] == conf;
  }

  /** An off-board read anywhere in a prefix fails the whole triple. */
  lemma {:induction false} OffBoardPersists(position: seq<int>, conf: seq<nat>, n: nat, i: nat)
    requires n <= |conf| && LineTotal(position, conf[..n]) == OffBoard(i)
    ensures LineTotal(position, conf) == OffBoard(i)
    decreases |conf| - n
  {
    if n < |conf| {
      assert conf[..n + 1][..n] == conf[..n];
      OffBoardPersists(position, conf, n + 1, i);
    } else {
      assert conf[..n] == conf;
    }
  }

  // ---------------------------------------------------------------------------
  // The labeller

  /** who_won: scans the configurations in order, summing each one cell by cell. */
  method WhoWon(position: seq<int>) returns (r: Outcome)
    ensures r == Scan(position, 0)
  {
    ConfigurationShape();
    for k := 0 to |Configurations|
      invariant Scan(position, 0) == Scan(position, k)
    {
      var conf := Configurations[k];
      var total := 0;
      for i := 0 to 3
        invariant LineTotal(position, conf[..i]) == Total(total)
      {
        assert conf[..i + 1][..i] == conf[..i];
        if conf[i] >= |position| {
          OffBoardPersists(position, conf, i + 1, conf[i]);
          return IndexError(conf[i]);
        }
        total := total + position[conf[i]];
      }
      assert conf[..3] == conf;
      if total == 3 {
        return Label(XWins);
      } else if total == -3 {
        return Label(OWins);
      }
    }
    return Label(Draw);
  }

  // ---------------------------------------------------------------------------
  // Properties of the labelling

  ghost predicate Decisive(position: seq<int>, k: nat)
    requires |position| >= 9 && k < 8
  {
    LineSum(position, k) == 3 || LineSum(position, k) == -3
  }

  /** No triple in `[k, m)` is decisive. */
  ghost predicate NoneDecisive(position: seq<int>, k: nat, m: nat)
    requires |position| >= 9 && m <= 8
  {
    forall j :: k <= j < m ==> !Decisive(position, j)
  }

  /** From configuration `k` on, the scan returns the label of the first
      decisive triple at or after `k`, or a draw if there is none. */
  lemma {:induction false} ScanFindsFirstDecisive(position: seq<int>, k: nat)
    requires |position| >= 9 && k <= 8
    ensures Scan(position, k) == Label(XWins) <==>
      exists m :: k <= m < 8 && LineSum(position, m) == 3 && NoneDecisive(position, k, m)
    ensures Scan(position, k) == Label(OWins) <==>
      exists m :: k <= m < 8 && LineSum(position, m) == -3 && NoneDecisive(position, k, m)
    ensures Scan(position, k) == Label(Draw) <==> NoneDecisive(position, k, 8)
    decreases 8 - k
  {
    if k < 8 {
      LineTotalOfFullBoard(position, k);
      ScanFindsFirstDecisive(position, k + 1);
      assert NoneDecisive(position, k, k);
      if Decisive(position, k) {
        forall m | k < m <= 8 ensures !NoneDecisive(position, k, m) {
          assert k <= k < m;
        }
      } else {
        forall m | k < m <= 8
          ensures NoneDecisive(position, k, m) <==> NoneDecisive(position, k + 1, m)
        {
        }
      }
    }
  }

  /** The result is decided by the first triple, in list order, whose sum is
      3 (X wins) or -3 (O wins); with no such triple the board is a draw. */
  lemma FirstDecisiveTripleDecides(position: seq<int>)
    requires |position| >= 9
    ensures Scan(position, 0) == Label(XWins) <==>
      exists m :: 0 <= m < 8 && LineSum(position, m) == 3 && forall j :: 0 <= j < m ==> !Decisive(position, j)
    ensures Scan(position, 0) == Label(OWins) <==>
      exists m :: 0 <= m < 8 && LineSum(position, m) == -3 && forall j :: 0 <= j < m ==> !Decisive(position, j)
    ensures Scan(position, 0) == Label(Draw) <==> forall j :: 0 <= j < 8 ==> !Decisive(position, j)
  {
    ScanFindsFirstDecisive(position, 0);
  }

  /** A board of nine cells is always labelled, with one of the three vectors. */
  lemma {:induction false} FullBoardIsLabelled(position: seq<int>, k: nat)
    requires |position| >= 9 && k <= 8
    ensures Scan(position, k).Label?
    ensures Scan(position, k).vector in {XWins, Draw, OWins}
    decreases 8 - k
  {
    if k < 8 {
      LineTotalOfFullBoard(position, k);
      FullBoardIsLabelled(position, k + 1);
    }
  }

  /** A triple fails only at one of its own cells that lies off the board. */
  lemma {:induction false} OffBoardIsOwnCell(position: seq<int>, conf: seq<nat>)
    ensures LineTotal(position, conf).OffBoard? ==>
      LineTotal(position, conf).index in conf && LineTotal(position, conf).index >= |position|
    decreases |conf|
  {
    if conf != [] {
      var init := conf[..|conf| - 1];
      OffBoardIsOwnCell(position, init);
      assert forall i :: i in init ==> i in conf;
    }
  }

  /** Reading fails only at a board cell (0..8) past the end of a short board. */
  lemma {:induction false} ErrorOnlyOffBoard(position: seq<int>, k: nat)
    requires k <= 8
    ensures Scan(position, k).IndexError? ==> |position| <= Scan(position, k).index < 9
    decreases 8 - k
  {
    if k < 8 {
      ConfigurationShape();
      var conf := Configurations[k];
      OffBoardIsOwnCell(position, conf);
      assert forall i :: i in conf ==> i < 9;
      ErrorOnlyOffBoard(position, k + 1);
    }
  }

  /** Each label vector has a single entry equal to 1 and the other entries
      are -1, so its maximum (the class) is unique. */
  lemma LabelsAreOneHot(v: seq<int>)
    requires v in {XWins, Draw, OWins}
    ensures |v| == 3
    ensures exists c :: 0 <= c < 3 && v[c] == 1 && forall j :: 0 <= j < 3 && j != c ==> v[j] == -1
  {
    if v == XWins {
      assert v[0] == 1;
    } else if v == Draw {
      assert v[1] == 1;
    } else {
      assert v[2] == 1;
    }
  }

  ghost predicate IsCell(x: int) { x == -1 || x == 0 || x == 1 }

  /** On a board of X, O and empty cells, a triple sums to 3 exactly when X
      holds all three of its cells, and to -3 exactly when O does. */
  lemma CompletedLineSums(position: seq<int>, k: nat)
    requires |position| >= 9 && k < 8
    requires forall i :: 0 <= i < 9 ==> IsCell(position[i])
    ensures LineSum(position, k) == 3 <==> forall i :: i in Configurations[k] ==> position[i] == 1
    ensures LineSum(position, k) == -3 <==> forall i :: i in Configurations[k] ==> position[i] == -1
  {
    ConfigurationShape();
    var conf := Configurations[k];
    assert IsCell(position[conf[0]]) && IsCell(position[conf[1]]) && IsCell(position[conf[2]]);
    assert forall i :: i in conf <==> i == conf[0] || i == conf[1] || i == conf[2];
  }

  /** X's top row: labelled an X win. */
  lemma TopRowIsXWin()
    ensures Scan([1, 1, 1, 0, -1, 0, -1, 0, -1], 0) == Label(XWins)
  {
    var b := [1, 1, 1, 0, -1, 0, -1, 0, -1];
    LineTotalOfFullBoard(b, 0);
  }

  /** The alternating board has X on the main diagonal (cells 0, 4, 8): it is
      an X win, found at the third configuration, not a draw. */
  lemma AlternatingBoardIsXWin()
    ensures Scan([1, -1, 1, -1, 1, -1, 1, -1, 1], 0) == Label(XWins)
  {
    var b := [1, -1, 1, -1, 1, -1, 1, -1, 1];
    LineTotalOfFullBoard(b, 0);
    LineTotalOfFullBoard(b, 1);
    LineTotalOfFullBoard(b, 2);
  }

  /** A full board with no completed line is a draw. */
  lemma FullBoardDraw()
    ensures Scan([1, -1, 1, 1, -1, -1, -1, 1, 1], 0) == Label(Draw)
  {
    var b := [1, -1, 1, 1, -1, -1, -1, 1, 1];
    FirstDecisiveTripleDecides(b);
    forall j | 0 <= j < 8 ensures !Decisive(b, j) {
      assert j == 0 || j == 1 || j == 2 || j == 3 || j == 4 || j == 5 || j == 6 || j == 7;
    }
  }

  /** A board where both players completed a line (not reachable in play) is
      resolved by list order: O's left column comes before X's middle column. */
  lemma DoubleWinResolvedByListOrder()
    ensures Scan([-1, 1, 0, -1, 1, 0, -1, 1, 0], 0) == Label(OWins)
  {
    var b := [-1, 1, 0, -1, 1, 0, -1, 1, 0];
    LineTotalOfFullBoard(b, 0);
    LineTotalOfFullBoard(b, 1);
  }
}
