/**
 * A move of the whole board (performMove): each of the four lines of the
 * chosen direction is read towards the edge the tiles slide to, resolved as
 * one line, and written back to the same cells.
 */
module Moves {
  import opened Engine

  // ---------------------------------------------------------------------------
  // Board geometry
  // ---------------------------------------------------------------------------

  /**
   * The board cell that is the j-th cell of line i when moving in direction
   * d; cell 0 of a line is at the edge the tiles slide to (gameLogic.js line 65-70).
   */
  function Index(d: Direction, i: nat, j: nat): (k: nat)
    requires i < 4 && j < 4
    ensures k < 16
  {
    match d
    case Left => i * 4 + j
    case Right => i * 4 + (3 - j)
    case Up => j * 4 + i
    case Down => (3 - j) * 4 + i
  }

  /** The line of direction d that board cell k belongs to. */
  function LineOf(d: Direction, k: nat): (i: nat)
    requires k < 16
    ensures i < 4
  {
    match d
    case Left => k / 4
    case Right => k / 4
    case Up => k % 4
    case Down => k % 4
  }

  /** The position of board cell k within its line of direction d. */
  function PosOf(d: Direction, k: nat): (j: nat)
    requires k < 16
    ensures j < 4
  {
    match d
    case Left => k % 4
    case Right => 3 - k % 4
    case Up => k / 4
    case Down => 3 - k / 4
  }

  /** Index is a bijection from (line, position) pairs onto the 16 cells. */
  lemma IndexInverse(d: Direction, i: nat, j: nat)
    requires i < 4 && j < 4
    ensures LineOf(d, Index(d, i, j)) == i && PosOf(d, Index(d, i, j)) == j
  {
  }

  lemma CellInverse(d: Direction, k: nat)
    requires k < 16
    ensures Index(d, LineOf(d, k), PosOf(d, k)) == k
  {
  }

  /** The cells of line i in direction d, edge first (gameLogic.js line 63-73). */
  function LineAt(m: Board, d: Direction, i: nat): (line: seq<nat>)
    requires i < 4
    ensures |line| == 4 && forall j :: 0 <= j < 4 ==> line[j] == m[Index(d, i, j)]
  {
    [m[Index(d, i, 0)], m[Index(d, i, 1)], m[Index(d, i, 2)], m[Index(d, i, 3)]]
  }

  // ---------------------------------------------------------------------------
  // The move, as a function of the board
  // ---------------------------------------------------------------------------

  /** Each line holds four cells and each action stays within its line. */
  predicate WellFormed(rs: seq<LineResult>)
  {
    |rs| == 4 &&
    forall i :: 0 <= i < 4 ==>
      |rs[i].merged| == 4 &&
      forall t :: 0 <= t < |rs[i].actions| ==> rs[i].actions[t].from < 4 && rs[i].actions[t].to < 4
  }

  /** The four lines of direction d, each resolved by mergeTiles (gameLogic.js line 59-75). */
  function LineResults(m: Board, d: Direction): (rs: seq<LineResult>)
    ensures WellFormed(rs)
  {
    seq(4, i requires 0 <= i < 4 => MergeLine(LineAt(m, d, i)))
  }

  lemma LineResultAt(m: Board, d: Direction, i: nat)
    requires i < 4
    ensures LineResults(m, d)[i] == MergeLine(LineAt(m, d, i))
  {
  }

  /** The board that holds each resolved line in the cells it was read from (gameLogic.js line 87-89). */
  function Placed(d: Direction, rs: seq<LineResult>): (n: Board)
    requires WellFormed(rs)
    ensures forall k :: 0 <= k < 16 ==> n[k] == rs[LineOf(d, k)].merged[PosOf(d, k)]
  {
    seq(16, k requires 0 <= k < 16 => rs[LineOf(d, k)].merged[PosOf(d, k)])
  }

  /** A line action mapped from positions in line i to board cells (gameLogic.js line 78-85). */
  function Translate(d: Direction, i: nat, a: Action): Action
    requires i < 4 && a.from < 4 && a.to < 4
  {
    Action(Index(d, i, a.from), Index(d, i, a.to), a.value, a.isMerge)
  }

  /** The actions of line i, mapped to board cells. */
  function LineActions(d: Direction, i: nat, acts: seq<Action>): (r: seq<Action>)
    requires i < 4 && forall t :: 0 <= t < |acts| ==> acts[t].from < 4 && acts[t].to < 4
    ensures |r| == |acts| && forall t :: 0 <= t < |acts| ==> r[t] == Translate(d, i, acts[t])
  {
    seq(|acts|, t requires 0 <= t < |acts| => Translate(d, i, acts[t]))
  }

  /** The points of the first n lines. */
  function ScoreUpTo(rs: seq<LineResult>, n: nat): nat
    requires n <= |rs|
  {
    if n == 0 then 0 else ScoreUpTo(rs, n - 1) + rs[n - 1].score
  }

  /** The actions of the first n lines, line by line. */
  function ActionsUpTo(d: Direction, rs: seq<LineResult>, n: nat): seq<Action>
    requires WellFormed(rs) && n <= 4
  {
    if n == 0 then [] else ActionsUpTo(d, rs, n - 1) + LineActions(d, n - 1, rs[n - 1].actions)
  }

  /** The result of performMove on a board and a direction. */
  function Move(m: Board, d: Direction): MoveResult
  {
    var rs := LineResults(m, d);
    var n := Placed(d, rs);
    MoveResult(n, ScoreUpTo(rs, 4), ActionsUpTo(d, rs, 4), n != m)
  }

  // ---------------------------------------------------------------------------
  // performMove
  // ---------------------------------------------------------------------------

  /** Reads line i of the board together with the board cells it came from. */
  method ReadLine(matrix: Board, direction: Direction, i: nat) returns (line: seq<nat>, indices: seq<nat>)
    requires i < 4
    ensures line == LineAt(matrix, direction, i)
    ensures |indices| == 4 && forall j :: 0 <= j < 4 ==> indices[j] == Index(direction, i, j)
  {
    line := [];
    indices := [];
    var j := 0;
    while j < 4
      invariant 0 <= j <= 4 && |line| == j && |indices| == j
      invariant forall t :: 0 <= t < j ==> indices[t] == Index(direction, i, t) && line[t] == matrix[indices[t]]
    {
      var index: nat;
      match direction {
        case Left => index := i * 4 + j;
        case Right => index := i * 4 + (3 - j);
        case Up => index := j * 4 + i;
        case Down => index := (3 - j) * 4 + i;
      }
      line := line + [matrix[index]];
      indices := indices + [index];
      j := j + 1;
    }
  }

  /** The line's actions mapped to board cells through the line's indices (gameLogic.js line 78-85). */
  method TranslateActions(acts: seq<Action>, indices: seq<nat>, direction: Direction, i: nat)
    returns (out: seq<Action>)
    requires i < 4 && |indices| == 4 && forall j :: 0 <= j < 4 ==> indices[j] == Index(direction, i, j)
    requires forall t :: 0 <= t < |acts| ==> acts[t].from < 4 && acts[t].to < 4
    ensures |out| == |acts| && forall t :: 0 <= t < |acts| ==> out[t] == Translate(direction, i, acts[t])
  {
    out := [];
    var t := 0;
    while t < |acts|
      invariant 0 <= t <= |acts| && |out| == t
      invariant forall u :: 0 <= u < t ==> out[u] == Translate(direction, i, acts[u])
    {
      var action := acts[t];
      out := out + [Action(indices[action.from], indices[action.to], action.value, action.isMerge)];
      t := t + 1;
    }
  }

  /** Writes resolved line i back to its cells (gameLogic.js line 87-89). */
  method WriteLine(newMatrix: array<nat>, direction: Direction, i: nat, merged: seq<nat>, indices: seq<nat>)
    requires newMatrix.Length == 16 && i < 4 && |merged| == 4
    requires |indices| == 4 && forall j :: 0 <= j < 4 ==> indices[j] == Index(direction, i, j)
    modifies newMatrix
    ensures forall k :: 0 <= k < 16 ==>
      newMatrix[k] == if LineOf(direction, k) == i then merged[PosOf(direction, k)] else old(newMatrix[k])
  {
    var j := 0;
    while j < 4
      invariant 0 <= j <= 4
      invariant forall k :: 0 <= k < 16 ==>
        newMatrix[k] == if LineOf(direction, k) == i && PosOf(direction, k) < j
                        then merged[PosOf(direction, k)] else old(newMatrix[k])
    {
      IndexInverse(direction, i, j);
      newMatrix[indices[j]] := merged[j];
      j := j + 1;
    }
  }

  /**
   * One round of performMove's outer loop: line i is read, resolved and
   * written back, and its points and actions are added to the totals
   * (gameLogic.js line 59-90).
   */
  method MoveLine(newMatrix: array<nat>, matrix: Board, direction: Direction, i: nat, ghost rs: seq<LineResult>,
                  totalScore: nat, allActions: seq<Action>)
    returns (totalScore': nat, allActions': seq<Action>)
    requires newMatrix.Length == 16 && i < 4 && rs == LineResults(matrix, direction)
    requires totalScore == ScoreUpTo(rs, i) && allActions == ActionsUpTo(direction, rs, i)
    modifies newMatrix
    ensures totalScore' == ScoreUpTo(rs, i + 1)
    ensures allActions' == ActionsUpTo(direction, rs, i + 1)
    ensures forall k :: 0 <= k < 16 ==>
      newMatrix[k] == if LineOf(direction, k) == i then rs[i].merged[PosOf(direction, k)] else old(newMatrix[k])
  {
    var line, indices := ReadLine(matrix, direction, i);
    var res := MergeTiles(line);
    LineResultAt(matrix, direction, i);
    totalScore' := totalScore + res.score;
    var lineActions := TranslateActions(res.actions, indices, direction, i);
    allActions' := allActions + lineActions;
    WriteLine(newMatrix, direction, i, res.merged, indices);
  }

  /** performMove's outer loop over the four lines (gameLogic.js line 59-90). */
  method MoveAllLines(newMatrix: array<nat>, matrix: Board, direction: Direction)
    returns (totalScore: nat, allActions: seq<Action>)
    requires newMatrix.Length == 16
    modifies newMatrix
    ensures totalScore == ScoreUpTo(LineResults(matrix, direction), 4)
    ensures allActions == ActionsUpTo(direction, LineResults(matrix, direction), 4)
    ensures newMatrix[..] == Placed(direction, LineResults(matrix, direction))
  {
    ghost var rs := LineResults(matrix, direction);
    totalScore := 0;
    allActions := [];
    var i := 0;
    while i < 4
      invariant 0 <= i <= 4
      invariant totalScore == ScoreUpTo(rs, i)
      invariant allActions == ActionsUpTo(direction, rs, i)
      invariant forall k :: 0 <= k < 16 && LineOf(direction, k) < i ==>
        newMatrix[k] == rs[LineOf(direction, k)].merged[PosOf(direction, k)]
    {
      totalScore, allActions := MoveLine(newMatrix, matrix, direction, i, rs, totalScore, allActions);
      i := i + 1;
    }
  }

  /** performMove (gameLogic.js line 53-98). */
  method PerformMove(matrix: Board, direction: Direction) returns (r: MoveResult)
    ensures r == Move(matrix, direction)
  {
    var newMatrix := new nat[16](_ => 0);
    var totalScore, allActions := MoveAllLines(newMatrix, matrix, direction);
    var hasChanged := false;
    if matrix != newMatrix[..] {
      hasChanged := true;
    }
    r := MoveResult(newMatrix[..], totalScore, allActions, hasChanged);
  }

  // ---------------------------------------------------------------------------
  // Properties of a move
  // ---------------------------------------------------------------------------

  /** Line i of a placed board is the i-th resolved line. */
  lemma PlacedLine(d: Direction, rs: seq<LineResult>, i: nat)
    requires WellFormed(rs) && i < 4
    ensures LineAt(Placed(d, rs), d, i) == rs[i].merged
  {
    forall j | 0 <= j < 4 ensures LineAt(Placed(d, rs), d, i)[j] == rs[i].merged[j] {
      IndexInverse(d, i, j);
    }
  }

  /** Line i of the moved board is line i of the board, resolved by mergeTiles. */
  lemma MovedLine(m: Board, d: Direction, i: nat)
    requires i < 4
    ensures LineAt(Move(m, d).newMatrix, d, i) == MergeLine(LineAt(m, d, i)).merged
  {
    PlacedLine(d, LineResults(m, d), i);
    LineResultAt(m, d, i);
  }

  /** Two boards that agree on every line of a direction are equal. */
  lemma BoardByLines(a: Board, b: Board, d: Direction)
    requires forall i :: 0 <= i < 4 ==> LineAt(a, d, i) == LineAt(b, d, i)
    ensures a == b
  {
    forall k | 0 <= k < 16 ensures a[k] == b[k] {
      CellInverse(d, k);
      assert LineAt(a, d, LineOf(d, k))[PosOf(d, k)] == LineAt(b, d, LineOf(d, k))[PosOf(d, k)];
    }
  }

  /** Two boards are equal exactly when they agree on every line of a direction. */
  lemma BoardsEqualIff(a: Board, b: Board, d: Direction)
    ensures a == b <==> forall i :: 0 <= i < 4 ==> LineAt(a, d, i) == LineAt(b, d, i)
  {
    if forall i :: 0 <= i < 4 ==> LineAt(a, d, i) == LineAt(b, d, i) {
      BoardByLines(a, b, d);
    }
  }

  lemma {:induction false} Sum4(s: seq<nat>)
    requires |s| == 4
    ensures Sum(s) == s[0] + s[1] + s[2] + s[3]
  {
    var s1 := s[1..];
    var s2 := s1[1..];
    var s3 := s2[1..];
    assert Sum(s3) == s3[0] + Sum(s3[1..]) && s3[1..] == [];
    assert Sum(s2) == s2[0] + Sum(s3);
    assert Sum(s1) == s1[0] + Sum(s2);
  }

  /** 1 for a tile, 0 for an empty cell. */
  function Occupied(x: nat): nat
  {
    if x != 0 then 1 else 0
  }

  lemma {:induction false} Count4(s: seq<nat>)
    requires |s| == 4
    ensures Count(s) == Occupied(s[0]) + Occupied(s[1]) + Occupied(s[2]) + Occupied(s[3])
  {
    var s3 := s[..3];
    var s2 := s3[..2];
    var s1 := s2[..1];
    assert Count(s1) == Count(s1[..0]) + Occupied(s1[0]) && s1[..0] == [];
    assert Count(s2) == Count(s1) + Occupied(s2[1]);
    assert Count(s3) == Count(s2) + Occupied(s3[2]);
  }

  /** The total value of a board cell by cell. */
  lemma Sum16(b: Board)
    ensures Sum(b) == b[0] + b[1] + b[2] + b[3] + b[4] + b[5] + b[6] + b[7]
                    + b[8] + b[9] + b[10] + b[11] + b[12] + b[13] + b[14] + b[15]
  {
    assert b == b[..4] + b[4..8] + b[8..12] + b[12..];
    SumConcat(b[..4] + b[4..8] + b[8..12], b[12..]);
    SumConcat(b[..4] + b[4..8], b[8..12]);
    SumConcat(b[..4], b[4..8]);
    Sum4(b[..4]); Sum4(b[4..8]); Sum4(b[8..12]); Sum4(b[12..]);
  }

  /** The tile count of a board cell by cell. */
  lemma Count16(b: Board)
    ensures Count(b) == Occupied(b[0]) + Occupied(b[1]) + Occupied(b[2]) + Occupied(b[3])
                      + Occupied(b[4]) + Occupied(b[5]) + Occupied(b[6]) + Occupied(b[7])
                      + Occupied(b[8]) + Occupied(b[9]) + Occupied(b[10]) + Occupied(b[11])
                      + Occupied(b[12]) + Occupied(b[13]) + Occupied(b[14]) + Occupied(b[15])
  {
    assert b == b[..4] + b[4..8] + b[8..12] + b[12..];
    CountConcat(b[..4] + b[4..8] + b[8..12], b[12..]);
    CountConcat(b[..4] + b[4..8], b[8..12]);
    CountConcat(b[..4], b[4..8]);
    Count4(b[..4]); Count4(b[4..8]); Count4(b[8..12]); Count4(b[12..]);
  }

  /** The total value of a board is the total of its four lines, in any direction. */
  lemma SumByLines(b: Board, d: Direction)
    ensures Sum(b) == Sum(LineAt(b, d, 0)) + Sum(LineAt(b, d, 1)) + Sum(LineAt(b, d, 2)) + Sum(LineAt(b, d, 3))
  {
    Sum16(b);
    Sum4(LineAt(b, d, 0)); Sum4(LineAt(b, d, 1)); Sum4(LineAt(b, d, 2)); Sum4(LineAt(b, d, 3));
  }

  /** The tile count of a board is the count of its four lines, in any direction. */
  lemma CountByLines(b: Board, d: Direction)
    ensures Count(b) == Count(LineAt(b, d, 0)) + Count(LineAt(b, d, 1)) + Count(LineAt(b, d, 2)) + Count(LineAt(b, d, 3))
  {
    Count16(b);
    Count4(LineAt(b, d, 0)); Count4(LineAt(b, d, 1)); Count4(LineAt(b, d, 2)); Count4(LineAt(b, d, 3));
  }

  /** Each line of a move keeps its total value. */
  lemma MovedLineSum(m: Board, d: Direction, i: nat)
    requires i < 4
    ensures Sum(LineAt(Move(m, d).newMatrix, d, i)) == Sum(LineAt(m, d, i))
  {
    MovedLine(m, d, i);
    MergeLineConserves(LineAt(m, d, i));
  }

  /** Boards whose lines have pairwise equal totals have equal totals. */
  lemma SumsByLines(a: Board, b: Board, d: Direction)
    requires forall i :: 0 <= i < 4 ==> Sum(LineAt(a, d, i)) == Sum(LineAt(b, d, i))
    ensures Sum(a) == Sum(b)
  {
    SumByLines(a, d);
    SumByLines(b, d);
  }

  /** A move keeps the total tile value of the board: merging only combines values. */
  lemma MoveConservesValue(m: Board, d: Direction)
    ensures Sum(Move(m, d).newMatrix) == Sum(m)
  {
    forall i | 0 <= i < 4 ensures Sum(LineAt(Move(m, d).newMatrix, d, i)) == Sum(LineAt(m, d, i)) {
      MovedLineSum(m, d, i);
    }
    SumsByLines(Move(m, d).newMatrix, m, d);
  }

  /** Translating actions to board cells keeps their values and merge flags. */
  lemma {:induction false} MergeSumTranslated(a: seq<Action>, b: seq<Action>)
    requires |a| == |b|
    requires forall t :: 0 <= t < |a| ==> a[t].isMerge == b[t].isMerge && a[t].value == b[t].value
    ensures MergeSum(a) == MergeSum(b)
  {
    if |a| > 0 {
      MergeSumTranslated(a[1..], b[1..]);
    }
  }

  /** Over the first n lines, the points are the pre-merge values of the merging tiles. */
  lemma {:induction false} ScoreUpToMerges(d: Direction, rs: seq<LineResult>, n: nat)
    requires WellFormed(rs) && n <= 4
    requires forall i :: 0 <= i < 4 ==> rs[i].score == MergeSum(rs[i].actions)
    ensures ScoreUpTo(rs, n) == MergeSum(ActionsUpTo(d, rs, n))
  {
    if n > 0 {
      ScoreUpToMerges(d, rs, n - 1);
      MergeSumConcat(ActionsUpTo(d, rs, n - 1), LineActions(d, n - 1, rs[n - 1].actions));
      MergeSumTranslated(LineActions(d, n - 1, rs[n - 1].actions), rs[n - 1].actions);
    }
  }

  /**
   * The points of a move are the pre-merge values of the merging tiles,
   * that is the sum of the values of the tiles the merges create.
   */
  lemma MoveScore(m: Board, d: Direction)
    ensures Move(m, d).scoreChange == MergeSum(Move(m, d).actions)
  {
    var rs := LineResults(m, d);
    forall i | 0 <= i < 4 ensures rs[i].score == MergeSum(rs[i].actions) {
      MergeLineConserves(LineAt(m, d, i));
    }
    ScoreUpToMerges(d, rs, 4);
  }

  /** Every action of the first n lines lands on a cell of one of those lines. */
  lemma ActionLineBelow(d: Direction, rs: seq<LineResult>, n: nat, t: nat)
    requires WellFormed(rs) && n <= 4 && t < |ActionsUpTo(d, rs, n)|
    ensures ActionsUpTo(d, rs, n)[t].to < 16 && LineOf(d, ActionsUpTo(d, rs, n)[t].to) < n
  {
    ActionOrigin(d, rs, n, t);
    var i, u :| 0 <= i < n && 0 <= u < |rs[i].actions| && ActionsUpTo(d, rs, n)[t] == Translate(d, i, rs[i].actions[u]);
    IndexInverse(d, i, rs[i].actions[u].to);
  }

  /** Mapping a line's actions to board cells keeps its merge pairs: Index is injective on a line. */
  lemma TranslatedPairs(d: Direction, i: nat, acts: seq<Action>)
    requires i < 4 && forall t :: 0 <= t < |acts| ==> acts[t].from < 4 && acts[t].to < 4
    requires MergePairs(acts)
    ensures MergePairs(LineActions(d, i, acts))
  {
    var r := LineActions(d, i, acts);
    forall t, u | 0 <= t < u < |r| && r[t].to == r[u].to
      ensures u == t + 1 && r[t].isMerge && r[u].isMerge && r[t].value == r[u].value
    {
      IndexInverse(d, i, acts[t].to);
      IndexInverse(d, i, acts[u].to);
    }
    forall t | 0 <= t < |r| && r[t].isMerge
      ensures HasPartner(r, t)
    {
      assert HasPartner(acts, t);
    }
  }

  /** Two lists that pair their merges and share no destination pair their merges when joined. */
  lemma ConcatPairs(a: seq<Action>, l: seq<Action>)
    requires MergePairs(a) && MergePairs(l)
    requires forall t, u :: 0 <= t < |a| && 0 <= u < |l| ==> a[t].to != l[u].to
    ensures MergePairs(a + l)
  {
    var all := a + l;
    forall t, u | 0 <= t < u < |all|
      ensures all[t].to == all[u].to ==> u == t + 1 && all[t].isMerge && all[u].isMerge && all[t].value == all[u].value
    {
      if u < |a| {
        assert all[t] == a[t] && all[u] == a[u];
      } else if |a| <= t {
        assert all[t] == l[t - |a|] && all[u] == l[u - |a|];
      } else {
        assert all[t] == a[t] && all[u] == l[u - |a|];
      }
    }
    forall t | 0 <= t < |all| && all[t].isMerge
      ensures HasPartner(all, t)
    {
      if t < |a| {
        assert all[t] == a[t] && HasPartner(a, t);
        if t + 1 < |a| {
          assert all[t + 1] == a[t + 1];
        }
        if 0 < t {
          assert all[t - 1] == a[t - 1];
        }
      } else {
        var k := t - |a|;
        assert all[t] == l[k] && HasPartner(l, k);
        if k + 1 < |l| {
          assert all[t + 1] == l[k + 1];
        }
        if 0 < k {
          assert all[t - 1] == l[k - 1];
        }
      }
    }
  }

  /**
   * Lines whose actions pair their merges give a move whose actions pair
   * their merges: actions of different lines never share a destination.
   */
  lemma {:induction false} PairsUpTo(d: Direction, rs: seq<LineResult>, n: nat)
    requires WellFormed(rs) && n <= 4
    requires forall i :: 0 <= i < 4 ==> MergePairs(rs[i].actions)
    ensures MergePairs(ActionsUpTo(d, rs, n))
  {
    if n > 0 {
      var a := ActionsUpTo(d, rs, n - 1);
      var l := LineActions(d, n - 1, rs[n - 1].actions);
      PairsUpTo(d, rs, n - 1);
      TranslatedPairs(d, n - 1, rs[n - 1].actions);
      forall t, u | 0 <= t < |a| && 0 <= u < |l|
        ensures a[t].to != l[u].to
      {
        ActionLineBelow(d, rs, n - 1, t);
        IndexInverse(d, n - 1, rs[n - 1].actions[u].to);
      }
      ConcatPairs(a, l);
    }
  }

  /**
   * Across the whole move, two actions share a destination only when they
   * are adjacent merges of the same value, and every merge has such a partner.
   */
  lemma MoveMergePairs(m: Board, d: Direction)
    ensures MergePairs(Move(m, d).actions)
  {
    var rs := LineResults(m, d);
    forall i | 0 <= i < 4
      ensures MergePairs(rs[i].actions)
    {
      LineResultAt(m, d, i);
      MergeLineActions(LineAt(m, d, i));
    }
    PairsUpTo(d, rs, 4);
    MoveActionParts(m, d, rs);
  }

  /** A move has exactly one action per tile of the board. */
  lemma MoveActionCount(m: Board, d: Direction)
    ensures |Move(m, d).actions| == Count(m)
  {
    var rs := LineResults(m, d);
    CountByLines(m, d);
    assert |ActionsUpTo(d, rs, 1)| == Count(LineAt(m, d, 0));
    assert |ActionsUpTo(d, rs, 2)| == |ActionsUpTo(d, rs, 1)| + Count(LineAt(m, d, 1));
    assert |ActionsUpTo(d, rs, 3)| == |ActionsUpTo(d, rs, 2)| + Count(LineAt(m, d, 2));
    assert |ActionsUpTo(d, rs, 4)| == |ActionsUpTo(d, rs, 3)| + Count(LineAt(m, d, 3));
  }

  /** The actions of the first i lines begin the actions of the first n lines. */
  lemma {:induction false} ActionsPrefix(d: Direction, rs: seq<LineResult>, i: nat, n: nat)
    requires WellFormed(rs) && i <= n <= 4
    ensures ActionsUpTo(d, rs, i) <= ActionsUpTo(d, rs, n)
    decreases n
  {
    if i < n {
      ActionsPrefix(d, rs, i, n - 1);
    }
  }

  /** Every action of the first n lines is the translation of an action of one of them. */
  lemma {:induction false} ActionOrigin(d: Direction, rs: seq<LineResult>, n: nat, t: nat)
    requires WellFormed(rs) && n <= 4 && t < |ActionsUpTo(d, rs, n)|
    ensures exists i, u ::
      && 0 <= i < n && 0 <= u < |rs[i].actions|
      && ActionsUpTo(d, rs, n)[t] == Translate(d, i, rs[i].actions[u])
  {
    var before := ActionsUpTo(d, rs, n - 1);
    if t < |before| {
      ActionOrigin(d, rs, n - 1, t);
      var i, u :| 0 <= i < n - 1 && 0 <= u < |rs[i].actions| && before[t] == Translate(d, i, rs[i].actions[u]);
      assert ActionsUpTo(d, rs, n)[t] == before[t];
    } else {
      var u := t - |before|;
      assert ActionsUpTo(d, rs, n)[t] == Translate(d, n - 1, rs[n - 1].actions[u]);
    }
  }

  /** Every tile of every line has an action starting from its position. */
  predicate LinesCovered(m: Board, d: Direction, rs: seq<LineResult>)
    requires WellFormed(rs)
  {
    forall i, p :: 0 <= i < 4 && 0 <= p < 4 && LineAt(m, d, i)[p] != 0 ==>
      exists u :: 0 <= u < |rs[i].actions| && rs[i].actions[u].from == p
  }

  lemma LineResultsCovered(m: Board, d: Direction)
    ensures LinesCovered(m, d, LineResults(m, d))
  {
    var rs := LineResults(m, d);
    forall i, p | 0 <= i < 4 && 0 <= p < 4 && LineAt(m, d, i)[p] != 0
      ensures exists u :: 0 <= u < |rs[i].actions| && rs[i].actions[u].from == p
    {
      var line := LineAt(m, d, i);
      var la := MergeLine(line).actions;
      MergeLineActions(line);
      var u :| 0 <= u < |la| && la[u].from == p;
      assert rs[i].actions[u].from == p;
    }
  }

  /** The board-level form of LinesCovered, for any resolved lines. */
  lemma PlacedCovers(m: Board, d: Direction, rs: seq<LineResult>, k: nat)
    requires WellFormed(rs) && LinesCovered(m, d, rs) && k < 16 && m[k] != 0
    ensures exists t :: 0 <= t < |ActionsUpTo(d, rs, 4)| && ActionsUpTo(d, rs, 4)[t].from == k
  {
    CellInverse(d, k);
    var i, p := LineOf(d, k), PosOf(d, k);
    assert LineAt(m, d, i)[p] != 0;
    var u :| 0 <= u < |rs[i].actions| && rs[i].actions[u].from == p;
    ActionAt(d, rs, i, u);
    var t := |ActionsUpTo(d, rs, i)| + u;
    assert ActionsUpTo(d, rs, 4)[t].from == k;
  }

  /** Action u of line i sits after the actions of the lines before it. */
  lemma ActionAt(d: Direction, rs: seq<LineResult>, i: nat, u: nat)
    requires WellFormed(rs) && i < 4 && u < |rs[i].actions|
    ensures |ActionsUpTo(d, rs, i)| + u < |ActionsUpTo(d, rs, 4)|
    ensures ActionsUpTo(d, rs, 4)[|ActionsUpTo(d, rs, i)| + u] == Translate(d, i, rs[i].actions[u])
  {
    ActionsPrefix(d, rs, i + 1, 4);
    var t := |ActionsUpTo(d, rs, i)| + u;
    assert ActionsUpTo(d, rs, i + 1)[t] == Translate(d, i, rs[i].actions[u]);
  }

  /** Every tile of the board has an action that starts from its cell. */
  lemma MoveCoversTiles(m: Board, d: Direction, k: nat)
    requires k < 16 && m[k] != 0
    ensures exists t :: 0 <= t < |Move(m, d).actions| && Move(m, d).actions[t].from == k
  {
    var rs := LineResults(m, d);
    LineResultsCovered(m, d);
    PlacedCovers(m, d, rs, k);
    var t :| 0 <= t < |ActionsUpTo(d, rs, 4)| && ActionsUpTo(d, rs, 4)[t].from == k;
    assert Move(m, d).actions[t].from == k;
  }

  /**
   * Each line's actions move towards cell 0, carry the value of the cell
   * they start from, and their destination holds that value, doubled when
   * they merge.
   */
  predicate ActionsFaithful(m: Board, d: Direction, rs: seq<LineResult>)
    requires WellFormed(rs)
  {
    forall i, u :: 0 <= i < 4 && 0 <= u < |rs[i].actions| ==>
      && rs[i].actions[u].to <= rs[i].actions[u].from
      && LineAt(m, d, i)[rs[i].actions[u].from] == rs[i].actions[u].value
      && rs[i].merged[rs[i].actions[u].to] ==
           if rs[i].actions[u].isMerge then 2 * rs[i].actions[u].value else rs[i].actions[u].value
  }

  lemma LineResultsFaithful(m: Board, d: Direction)
    ensures ActionsFaithful(m, d, LineResults(m, d))
  {
    forall i | 0 <= i < 4 {
      MergeLineActions(LineAt(m, d, i));
    }
  }

  /**
   * Action a of a move from board m to board n stays within one line of
   * direction d and moves its tile towards the edge; it carries the value of
   * the cell it starts from, and its destination cell holds that value in
   * n, doubled when it merges.
   */
  predicate ActionFits(m: Board, d: Direction, n: Board, a: Action)
  {
    && a.from < 16 && a.to < 16
    && LineOf(d, a.from) == LineOf(d, a.to) && PosOf(d, a.to) <= PosOf(d, a.from)
    && m[a.from] == a.value
    && n[a.to] == if a.isMerge then 2 * a.value else a.value
  }

  /** The board-level form of ActionsFaithful, for any resolved lines. */
  lemma PlacedActionGeometry(m: Board, d: Direction, rs: seq<LineResult>, t: nat)
    requires WellFormed(rs) && ActionsFaithful(m, d, rs) && t < |ActionsUpTo(d, rs, 4)|
    ensures ActionFits(m, d, Placed(d, rs), ActionsUpTo(d, rs, 4)[t])
  {
    ActionOrigin(d, rs, 4, t);
    var i, u :| 0 <= i < 4 && 0 <= u < |rs[i].actions| && ActionsUpTo(d, rs, 4)[t] == Translate(d, i, rs[i].actions[u]);
    var la := rs[i].actions[u];
    IndexInverse(d, i, la.from);
    IndexInverse(d, i, la.to);
  }

  /**
   * Each action of a move stays within one line and moves its tile towards
   * the edge; it carries the value of the cell it starts from, and its
   * destination cell ends up holding that value, doubled when it merges.
   */
  lemma MoveActionGeometry(m: Board, d: Direction, t: nat)
    requires t < |Move(m, d).actions|
    ensures ActionFits(m, d, Move(m, d).newMatrix, Move(m, d).actions[t])
  {
    var r := Move(m, d);
    var rs := LineResults(m, d);
    MoveBoardParts(m, d, rs);
    MoveActionParts(m, d, rs);
    LineResultsFaithful(m, d);
    PlacedActionGeometry(m, d, rs, t);
    assert ActionFits(m, d, r.newMatrix, r.actions[t]);
  }

  /** The board a move leaves, as placed from its resolved lines. */
  lemma MoveBoardParts(m: Board, d: Direction, rs: seq<LineResult>)
    requires rs == LineResults(m, d) && WellFormed(rs)
    ensures Move(m, d).newMatrix == Placed(d, rs)
  {
  }

  /** The points of a move, as added up from its resolved lines. */
  lemma MoveScoreParts(m: Board, d: Direction, rs: seq<LineResult>)
    requires rs == LineResults(m, d) && WellFormed(rs)
    ensures Move(m, d).scoreChange == ScoreUpTo(rs, 4)
  {
  }

  /** The actions of a move, as translated from its resolved lines. */
  lemma MoveActionParts(m: Board, d: Direction, rs: seq<LineResult>)
    requires rs == LineResults(m, d) && WellFormed(rs)
    ensures Move(m, d).actions == ActionsUpTo(d, rs, 4)
  {
  }

  /** A line is left as it was exactly when it is packed and has no two equal neighbours. */
  lemma MovedLineFixed(m: Board, d: Direction, i: nat)
    requires i < 4
    ensures LineAt(Move(m, d).newMatrix, d, i) == LineAt(m, d, i) <==>
      Packed(LineAt(m, d, i)) && NoEqualNeighbours(LineAt(m, d, i))
  {
    MovedLine(m, d, i);
    MergeLineFixedIff(LineAt(m, d, i));
  }

  /**
   * A move leaves the board unchanged exactly when every line of its
   * direction is packed towards the edge and holds no two equal neighbours.
   */
  lemma MoveUnchangedIff(m: Board, d: Direction)
    ensures !Move(m, d).hasChanged <==>
      forall i :: 0 <= i < 4 ==> Packed(LineAt(m, d, i)) && NoEqualNeighbours(LineAt(m, d, i))
  {
    var n := Move(m, d).newMatrix;
    forall i | 0 <= i < 4
      ensures LineAt(n, d, i) == LineAt(m, d, i) <==> Packed(LineAt(m, d, i)) && NoEqualNeighbours(LineAt(m, d, i))
    {
      MovedLineFixed(m, d, i);
    }
    BoardsEqualIff(n, m, d);
  }

  /** Lines that win no points and keep every tile in place. */
  predicate Quiet(rs: seq<LineResult>)
  {
    |rs| == 4 &&
    forall i :: 0 <= i < 4 ==>
      rs[i].score == 0 &&
      forall u :: 0 <= u < |rs[i].actions| ==> !rs[i].actions[u].isMerge && rs[i].actions[u].from == rs[i].actions[u].to
  }

  /** Quiet lines make a quiet move. */
  lemma {:induction false} QuietUpTo(d: Direction, rs: seq<LineResult>, n: nat)
    requires WellFormed(rs) && Quiet(rs) && n <= 4
    ensures ScoreUpTo(rs, n) == 0
    ensures forall t :: 0 <= t < |ActionsUpTo(d, rs, n)| ==>
      !ActionsUpTo(d, rs, n)[t].isMerge && ActionsUpTo(d, rs, n)[t].from == ActionsUpTo(d, rs, n)[t].to
  {
    if n > 0 {
      QuietUpTo(d, rs, n - 1);
    }
    forall t | 0 <= t < |ActionsUpTo(d, rs, n)|
      ensures !ActionsUpTo(d, rs, n)[t].isMerge && ActionsUpTo(d, rs, n)[t].from == ActionsUpTo(d, rs, n)[t].to
    {
      ActionOrigin(d, rs, n, t);
    }
  }

  /** A settled line wins nothing and keeps its tiles in place. */
  lemma LineQuiet(m: Board, d: Direction, i: nat)
    requires i < 4 && Packed(LineAt(m, d, i)) && NoEqualNeighbours(LineAt(m, d, i))
    ensures LineResults(m, d)[i].score == 0
    ensures forall u :: 0 <= u < |LineResults(m, d)[i].actions| ==>
      !LineResults(m, d)[i].actions[u].isMerge && LineResults(m, d)[i].actions[u].from == LineResults(m, d)[i].actions[u].to
  {
    MergeLineFixedIff(LineAt(m, d, i));
    LineResultAt(m, d, i);
  }

  /** A board whose lines are all settled resolves to quiet lines. */
  lemma SettledLinesQuiet(m: Board, d: Direction)
    requires forall i :: 0 <= i < 4 ==> Packed(LineAt(m, d, i)) && NoEqualNeighbours(LineAt(m, d, i))
    ensures Quiet(LineResults(m, d))
  {
    forall i | 0 <= i < 4 {
      LineQuiet(m, d, i);
    }
  }

  /** A move over settled lines wins no points and keeps every tile in place. */
  lemma SettledMoveQuiet(m: Board, d: Direction)
    requires forall i :: 0 <= i < 4 ==> Packed(LineAt(m, d, i)) && NoEqualNeighbours(LineAt(m, d, i))
    ensures Move(m, d).scoreChange == 0
    ensures forall t :: 0 <= t < |Move(m, d).actions| ==>
      !Move(m, d).actions[t].isMerge && Move(m, d).actions[t].from == Move(m, d).actions[t].to
  {
    var rs := LineResults(m, d);
    SettledLinesQuiet(m, d);
    QuietUpTo(d, rs, 4);
  }

  /**
   * A move that leaves the board unchanged wins no points, and each of its
   * actions keeps its tile in place without merging.
   */
  lemma MoveUnchangedQuiet(m: Board, d: Direction)
    ensures !Move(m, d).hasChanged ==> Move(m, d).scoreChange == 0
    ensures !Move(m, d).hasChanged ==> forall t :: 0 <= t < |Move(m, d).actions| ==>
      !Move(m, d).actions[t].isMerge && Move(m, d).actions[t].from == Move(m, d).actions[t].to
  {
    MoveUnchangedIff(m, d);
    if !Move(m, d).hasChanged {
      SettledMoveQuiet(m, d);
    }
  }

  // ---------------------------------------------------------------------------
  // The performMove examples of the test suite, at board level
  // ---------------------------------------------------------------------------

  /** A line holding one tile sends it to the edge, wins nothing and yields one action. */
  lemma SingleTileLine(line: seq<nat>, p: nat)
    requires |line| == 4 && p < 4 && line[p] != 0
    requires forall q :: 0 <= q < 4 && q != p ==> line[q] == 0
    ensures MergeLine(line) == LineResult([line[p], 0, 0, 0], 0, [Action(p, 0, line[p], false)])
  {
    SingleTileCompacted(line, p);
    ResolveSingle([Tile(line[p], p)]);
    PadSingle(line[p]);
  }

  /** The compacted form of a line holding one tile is that tile. */
  lemma SingleTileCompacted(line: seq<nat>, p: nat)
    requires |line| == 4 && p < 4 && line[p] != 0
    requires forall q :: 0 <= q < 4 && q != p ==> line[q] == 0
    ensures NonEmptyTiles(line) == [Tile(line[p], p)]
  {
    var ts := NonEmptyTiles(line);
    NonEmptyTilesCover(line, p);
    Count4(line);
  }

  /** The scan of a single tile copies it to the first slot. */
  lemma ResolveSingle(ts: seq<Tile>)
    requires |ts| == 1
    ensures ResolveFrom(ts, 0, 0) == LineResult([ts[0].value], 0, [Action(ts[0].originalIndex, 0, ts[0].value, false)])
  {
    assert ResolveFrom(ts, 1, 1) == LineResult([], 0, []);
  }

  /** Padding one cell adds three empty cells. */
  lemma PadSingle(v: nat)
    ensures Pad([v]) == [v, 0, 0, 0]
  {
    assert Zeros(3) == [0, 0, 0];
  }

  /** Two adjacent 4s merge into an 8 at the edge. */
  lemma FoursPairLine()
    ensures MergeLine([4, 4, 0, 0]) == LineResult([8, 0, 0, 0], 8, [Action(0, 0, 4, true), Action(1, 0, 4, true)])
  {
    assert NonEmptyTiles([4, 4, 0, 0]) == [Tile(4, 0), Tile(4, 1)] by {
      assert [4, 4, 0, 0][..3] == [4, 4, 0];
      assert [4, 4, 0][..2] == [4, 4];
      assert [4, 4][..1] == [4];
      assert [4][..0] == [];
    }
  }

  /** Two 8s with a gap between them merge into a 16 at the edge. */
  lemma EightsGapLine()
    ensures MergeLine([8, 0, 8, 0]) == LineResult([16, 0, 0, 0], 16, [Action(0, 0, 8, true), Action(2, 0, 8, true)])
  {
    assert NonEmptyTiles([8, 0, 8, 0]) == [Tile(8, 0), Tile(8, 2)] by {
      assert [8, 0, 8, 0][..3] == [8, 0, 8];
      assert [8, 0, 8][..2] == [8, 0];
      assert [8, 0][..1] == [8];
      assert [8][..0] == [];
    }
  }

  /** An empty line stays empty and yields no action. */
  lemma EmptyLine()
    ensures MergeLine([0, 0, 0, 0]) == LineResult([0, 0, 0, 0], 0, [])
  {
    assert NonEmptyTiles([0, 0, 0, 0]) == [] by {
      assert [0, 0, 0, 0][..3] == [0, 0, 0];
      assert [0, 0, 0][..2] == [0, 0];
      assert [0, 0][..1] == [0];
      assert [0][..0] == [];
    }
  }

  /** A move gives board e when every resolved line of m is the matching line of e. */
  lemma BoardFromLines(m: Board, d: Direction, e: Board)
    requires forall i :: 0 <= i < 4 ==> MergeLine(LineAt(m, d, i)).merged == LineAt(e, d, i)
    ensures Move(m, d).newMatrix == e
  {
    var n := Move(m, d).newMatrix;
    forall i | 0 <= i < 4
      ensures LineAt(n, d, i) == LineAt(e, d, i)
    {
      MovedLine(m, d, i);
    }
    BoardsEqualIff(n, e, d);
  }

  /** The points of four lines, added up. */
  lemma ScoreOfFour(rs: seq<LineResult>)
    requires |rs| == 4
    ensures ScoreUpTo(rs, 4) == rs[0].score + rs[1].score + rs[2].score + rs[3].score
  {
    assert ScoreUpTo(rs, 1) == rs[0].score;
    assert ScoreUpTo(rs, 2) == rs[0].score + rs[1].score;
    assert ScoreUpTo(rs, 3) == rs[0].score + rs[1].score + rs[2].score;
  }

  /** The actions of four lines, line after line. */
  lemma ActionsOfFour(d: Direction, rs: seq<LineResult>)
    requires WellFormed(rs)
    ensures ActionsUpTo(d, rs, 4) ==
      LineActions(d, 0, rs[0].actions) + LineActions(d, 1, rs[1].actions) +
      LineActions(d, 2, rs[2].actions) + LineActions(d, 3, rs[3].actions)
  {
    assert ActionsUpTo(d, rs, 1) == LineActions(d, 0, rs[0].actions);
    assert ActionsUpTo(d, rs, 2) == LineActions(d, 0, rs[0].actions) + LineActions(d, 1, rs[1].actions);
    assert ActionsUpTo(d, rs, 3) ==
      LineActions(d, 0, rs[0].actions) + LineActions(d, 1, rs[1].actions) + LineActions(d, 2, rs[2].actions);
  }

  /** A move that gives board e changes the board exactly when e differs from it. */
  lemma ChangedIff(m: Board, d: Direction)
    ensures Move(m, d).hasChanged <==> Move(m, d).newMatrix != m
  {
  }

  /** A move that gives board e, with e differing from m in cell k, reports a change. */
  lemma ChangedAt(m: Board, d: Direction, e: Board, k: nat)
    requires Move(m, d).newMatrix == e && k < 16 && e[k] != m[k]
    ensures Move(m, d).hasChanged
  {
    ChangedIff(m, d);
  }

  /** The rows of the diagonal board, moved left, are the rows of the board with a 2 in each first cell. */
  lemma DiagonalLeftLines(m: Board, e: Board)
    requires m == [2, 0, 0, 0, 0, 2, 0, 0, 0, 0, 2, 0, 0, 0, 0, 2]
    requires e == [2, 0, 0, 0, 2, 0, 0, 0, 2, 0, 0, 0, 2, 0, 0, 0]
    ensures forall i :: 0 <= i < 4 ==> MergeLine(LineAt(m, Left, i)).merged == LineAt(e, Left, i)
  {
    forall i | 0 <= i < 4
      ensures MergeLine(LineAt(m, Left, i)).merged == LineAt(e, Left, i)
    {
      if i == 0 {
        SingleTileLine(LineAt(m, Left, 0), 0);
      } else if i == 1 {
        SingleTileLine(LineAt(m, Left, 1), 1);
      } else if i == 2 {
        SingleTileLine(LineAt(m, Left, 2), 2);
      } else {
        SingleTileLine(LineAt(m, Left, 3), 3);
      }
    }
  }

  /** Moving the diagonal board left lines up its four 2s in the first column. */
  lemma DiagonalLeftBoard(m: Board)
    requires m == [2, 0, 0, 0, 0, 2, 0, 0, 0, 0, 2, 0, 0, 0, 0, 2]
    ensures Move(m, Left).newMatrix == [2, 0, 0, 0, 2, 0, 0, 0, 2, 0, 0, 0, 2, 0, 0, 0]
    ensures Move(m, Left).hasChanged
  {
    var e: Board := [2, 0, 0, 0, 2, 0, 0, 0, 2, 0, 0, 0, 2, 0, 0, 0];
    assert e[4] != m[4];
    DiagonalLeftLines(m, e);
    BoardFromLines(m, Left, e);
    ChangedAt(m, Left, e, 4);
  }

  /** Row i of the diagonal board, moved right, sends its 2 from cell 3 - i of the row to the far edge. */
  lemma DiagonalRightRow(m: Board, i: nat)
    requires m == [2, 0, 0, 0, 0, 2, 0, 0, 0, 0, 2, 0, 0, 0, 0, 2] && i < 4
    ensures MergeLine(LineAt(m, Right, i)) == LineResult([2, 0, 0, 0], 0, [Action(3 - i, 0, 2, false)])
  {
    if i == 0 {
      SingleTileLine(LineAt(m, Right, 0), 3);
    } else if i == 1 {
      SingleTileLine(LineAt(m, Right, 1), 2);
    } else if i == 2 {
      SingleTileLine(LineAt(m, Right, 2), 1);
    } else {
      SingleTileLine(LineAt(m, Right, 3), 0);
    }
  }

  /** The rows of the diagonal board, moved right, are the rows of the board with a 2 in each last cell. */
  lemma DiagonalRightLines(m: Board, e: Board)
    requires m == [2, 0, 0, 0, 0, 2, 0, 0, 0, 0, 2, 0, 0, 0, 0, 2]
    requires e == [0, 0, 0, 2, 0, 0, 0, 2, 0, 0, 0, 2, 0, 0, 0, 2]
    ensures forall i :: 0 <= i < 4 ==> MergeLine(LineAt(m, Right, i)).merged == LineAt(e, Right, i)
  {
    forall i | 0 <= i < 4
      ensures MergeLine(LineAt(m, Right, i)).merged == LineAt(e, Right, i)
    {
      DiagonalRightRow(m, i);
      if i == 0 {
        assert LineAt(e, Right, 0) == [2, 0, 0, 0];
      } else if i == 1 {
        assert LineAt(e, Right, 1) == [2, 0, 0, 0];
      } else if i == 2 {
        assert LineAt(e, Right, 2) == [2, 0, 0, 0];
      } else {
        assert LineAt(e, Right, 3) == [2, 0, 0, 0];
      }
    }
  }

  /** Moving the diagonal board right lines up its four 2s in the last column. */
  lemma DiagonalRightBoard(m: Board)
    requires m == [2, 0, 0, 0, 0, 2, 0, 0, 0, 0, 2, 0, 0, 0, 0, 2]
    ensures Move(m, Right).newMatrix == [0, 0, 0, 2, 0, 0, 0, 2, 0, 0, 0, 2, 0, 0, 0, 2]
    ensures Move(m, Right).hasChanged
  {
    var e: Board := [0, 0, 0, 2, 0, 0, 0, 2, 0, 0, 0, 2, 0, 0, 0, 2];
    assert e[0] != m[0];
    DiagonalRightLines(m, e);
    BoardFromLines(m, Right, e);
    ChangedAt(m, Right, e, 0);
  }

  /** Four resolved rows that each slid one 2 to the right edge, as board actions. */
  lemma DiagonalRightActionList(rs: seq<LineResult>)
    requires WellFormed(rs)
    requires rs[0] == LineResult([2, 0, 0, 0], 0, [Action(3, 0, 2, false)])
    requires rs[1] == LineResult([2, 0, 0, 0], 0, [Action(2, 0, 2, false)])
    requires rs[2] == LineResult([2, 0, 0, 0], 0, [Action(1, 0, 2, false)])
    requires rs[3] == LineResult([2, 0, 0, 0], 0, [Action(0, 0, 2, false)])
    ensures ActionsUpTo(Right, rs, 4) ==
      [Action(0, 3, 2, false), Action(5, 7, 2, false), Action(10, 11, 2, false), Action(15, 15, 2, false)]
  {
    ActionsOfFour(Right, rs);
    assert LineActions(Right, 0, rs[0].actions) == [Action(0, 3, 2, false)];
    assert LineActions(Right, 1, rs[1].actions) == [Action(5, 7, 2, false)];
    assert LineActions(Right, 2, rs[2].actions) == [Action(10, 11, 2, false)];
    assert LineActions(Right, 3, rs[3].actions) == [Action(15, 15, 2, false)];
  }

  /** The actions of the diagonal board moved right: each 2 slides to the last cell of its row. */
  lemma DiagonalRightActions(m: Board)
    requires m == [2, 0, 0, 0, 0, 2, 0, 0, 0, 0, 2, 0, 0, 0, 0, 2]
    ensures Move(m, Right).actions ==
      [Action(0, 3, 2, false), Action(5, 7, 2, false), Action(10, 11, 2, false), Action(15, 15, 2, false)]
  {
    var rs := LineResults(m, Right);
    MoveActionParts(m, Right, rs);
    LineResultAt(m, Right, 0);
    LineResultAt(m, Right, 1);
    LineResultAt(m, Right, 2);
    LineResultAt(m, Right, 3);
    DiagonalRightRow(m, 0);
    DiagonalRightRow(m, 1);
    DiagonalRightRow(m, 2);
    DiagonalRightRow(m, 3);
    DiagonalRightActionList(rs);
  }

  /** The rows of the merge test board: a pair of 2s, a pair of 4s, two 8s with a gap, an empty row. */
  lemma MergeLeftRows(m: Board)
    requires m == [2, 2, 0, 0, 4, 4, 0, 0, 8, 0, 8, 0, 0, 0, 0, 0]
    ensures LineAt(m, Left, 0) == [2, 2, 0, 0] && LineAt(m, Left, 1) == [4, 4, 0, 0]
    ensures LineAt(m, Left, 2) == [8, 0, 8, 0] && LineAt(m, Left, 3) == [0, 0, 0, 0]
  {
  }

  /** The rows of the merge test board, moved left, each resolved on its own. */
  lemma MergeLeftResults(m: Board)
    requires m == [2, 2, 0, 0, 4, 4, 0, 0, 8, 0, 8, 0, 0, 0, 0, 0]
    ensures MergeLine(LineAt(m, Left, 0)) == LineResult([4, 0, 0, 0], 4, [Action(0, 0, 2, true), Action(1, 0, 2, true)])
    ensures MergeLine(LineAt(m, Left, 1)) == LineResult([8, 0, 0, 0], 8, [Action(0, 0, 4, true), Action(1, 0, 4, true)])
    ensures MergeLine(LineAt(m, Left, 2)) == LineResult([16, 0, 0, 0], 16, [Action(0, 0, 8, true), Action(2, 0, 8, true)])
    ensures MergeLine(LineAt(m, Left, 3)) == LineResult([0, 0, 0, 0], 0, [])
  {
    MergeLeftRows(m);
    MergeLinePairExample();
    FoursPairLine();
    EightsGapLine();
    EmptyLine();
  }

  /** The rows of the merge test board, moved left, are the rows of the board the test expects. */
  lemma MergeLeftLines(m: Board, e: Board)
    requires m == [2, 2, 0, 0, 4, 4, 0, 0, 8, 0, 8, 0, 0, 0, 0, 0]
    requires e == [4, 0, 0, 0, 8, 0, 0, 0, 16, 0, 0, 0, 0, 0, 0, 0]
    ensures forall i :: 0 <= i < 4 ==> MergeLine(LineAt(m, Left, i)).merged == LineAt(e, Left, i)
  {
    forall i | 0 <= i < 4
      ensures MergeLine(LineAt(m, Left, i)).merged == LineAt(e, Left, i)
    {
      if i == 0 {
        assert LineAt(m, Left, 0) == [2, 2, 0, 0] && LineAt(e, Left, 0) == [4, 0, 0, 0];
        MergeLinePairExample();
      } else if i == 1 {
        assert LineAt(m, Left, 1) == [4, 4, 0, 0] && LineAt(e, Left, 1) == [8, 0, 0, 0];
        FoursPairLine();
      } else if i == 2 {
        assert LineAt(m, Left, 2) == [8, 0, 8, 0] && LineAt(e, Left, 2) == [16, 0, 0, 0];
        EightsGapLine();
      } else {
        assert LineAt(m, Left, 3) == [0, 0, 0, 0] && LineAt(e, Left, 3) == [0, 0, 0, 0];
        EmptyLine();
      }
    }
  }

  /** Moving the merge test board left merges each row's pair into a tile at the row's first cell. */
  lemma MergeLeftBoard(m: Board)
    requires m == [2, 2, 0, 0, 4, 4, 0, 0, 8, 0, 8, 0, 0, 0, 0, 0]
    ensures Move(m, Left).newMatrix == [4, 0, 0, 0, 8, 0, 0, 0, 16, 0, 0, 0, 0, 0, 0, 0]
    ensures Move(m, Left).hasChanged
  {
    var e: Board := [4, 0, 0, 0, 8, 0, 0, 0, 16, 0, 0, 0, 0, 0, 0, 0];
    assert e[1] != m[1];
    MergeLeftLines(m, e);
    BoardFromLines(m, Left, e);
    ChangedAt(m, Left, e, 1);
  }

  /** Four resolved rows of the merge test, as points and board actions. */
  lemma MergeLeftActionList(rs: seq<LineResult>)
    requires WellFormed(rs)
    requires rs[0] == LineResult([4, 0, 0, 0], 4, [Action(0, 0, 2, true), Action(1, 0, 2, true)])
    requires rs[1] == LineResult([8, 0, 0, 0], 8, [Action(0, 0, 4, true), Action(1, 0, 4, true)])
    requires rs[2] == LineResult([16, 0, 0, 0], 16, [Action(0, 0, 8, true), Action(2, 0, 8, true)])
    requires rs[3] == LineResult([0, 0, 0, 0], 0, [])
    ensures ScoreUpTo(rs, 4) == 28
    ensures ActionsUpTo(Left, rs, 4) ==
      [Action(0, 0, 2, true), Action(1, 0, 2, true), Action(4, 4, 4, true), Action(5, 4, 4, true),
       Action(8, 8, 8, true), Action(10, 8, 8, true)]
  {
    ScoreOfFour(rs);
    ActionsOfFour(Left, rs);
    assert LineActions(Left, 0, rs[0].actions) == [Action(0, 0, 2, true), Action(1, 0, 2, true)];
    assert LineActions(Left, 1, rs[1].actions) == [Action(4, 4, 4, true), Action(5, 4, 4, true)];
    assert LineActions(Left, 2, rs[2].actions) == [Action(8, 8, 8, true), Action(10, 8, 8, true)];
    assert LineActions(Left, 3, rs[3].actions) == [];
  }

  /** The points and actions of that move: 4 + 8 + 16 points and six merge actions, row by row. */
  lemma MergeLeftActions(m: Board)
    requires m == [2, 2, 0, 0, 4, 4, 0, 0, 8, 0, 8, 0, 0, 0, 0, 0]
    ensures Move(m, Left).scoreChange == 28
    ensures Move(m, Left).actions ==
      [Action(0, 0, 2, true), Action(1, 0, 2, true), Action(4, 4, 4, true), Action(5, 4, 4, true),
       Action(8, 8, 8, true), Action(10, 8, 8, true)]
  {
    var rs := LineResults(m, Left);
    MoveScoreParts(m, Left, rs);
    MoveActionParts(m, Left, rs);
    LineResultAt(m, Left, 0);
    LineResultAt(m, Left, 1);
    LineResultAt(m, Left, 2);
    LineResultAt(m, Left, 3);
    MergeLeftResults(m);
    MergeLeftActionList(rs);
  }
}
