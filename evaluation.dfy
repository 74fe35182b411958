/**
 * The move advisor's view of a board: the heuristic score evaluateBoard and
 * the test canMerge for two equal tiles side by side.
 *
 * The board is read in row-major order, so the cell at row r and column c is
 * b[r * 4 + c]; its right neighbour is b[r * 4 + c + 1] and the cell below it
 * is b[r * 4 + c + 4].
 */
module Evaluation {
  import opened Engine

  // ---------------------------------------------------------------------------
  // Whole-board terms
  // ---------------------------------------------------------------------------

  /** Number of empty cells. */
  function Empties(s: seq<nat>): nat
  {
    if |s| == 0 then 0 else Empties(s[..|s| - 1]) + (if s[|s| - 1] == 0 then 1 else 0)
  }

  /** Every cell is either empty or holds a tile. */
  lemma {:induction false} EmptiesCount(s: seq<nat>)
    ensures Empties(s) + Count(s) == |s|
  {
    if |s| > 0 {
      EmptiesCount(s[..|s| - 1]);
    }
  }

  /** The largest value of a non-empty sequence. */
  function MaxOf(s: seq<nat>): (m: nat)
    requires |s| > 0
    ensures m in s && forall p :: 0 <= p < |s| ==> s[p] <= m
  {
    if |s| == 1 then s[0]
    else
      var m := MaxOf(s[..|s| - 1]);
      if s[|s| - 1] > m then s[|s| - 1] else m
  }

  /** The first position holding v, or -1 when there is none (Array.prototype.indexOf). */
  function IndexOf(s: seq<nat>, v: nat): (k: int)
    ensures -1 <= k < |s|
    ensures k == -1 <==> v !in s
    ensures 0 <= k ==> s[k] == v && forall p :: 0 <= p < k ==> s[p] != v
  {
    if |s| == 0 then -1
    else if s[0] == v then 0
    else
      var k := IndexOf(s[1..], v);
      if k == -1 then -1 else k + 1
  }

  /**
   * The corner term: a bonus when the top-left cell holds the largest value;
   * otherwise a penalty unless the largest value first occurs in one of the
   * other three corners (ai.js line 24-35).
   */
  function Corner(b: Board): int
  {
    var maxTileValue := MaxOf(b);
    if b[0] == maxTileValue then 2000
    else
      var maxTileIndex := IndexOf(b, maxTileValue);
      if maxTileIndex != 0 && maxTileIndex != 3 && maxTileIndex != 12 && maxTileIndex != 15 then -500
      else 0
  }

  /** v occurs first at position k of the board. */
  predicate FirstAt(b: Board, v: nat, k: nat)
    requires k < 16
  {
    b[k] == v && forall p :: 0 <= p < k ==> b[p] != v
  }

  /**
   * The corner term is the bonus exactly when the top-left cell holds the
   * maximum, zero exactly when the maximum first occurs in another corner,
   * and the penalty otherwise.
   */
  lemma CornerCases(b: Board)
    ensures Corner(b) == 2000 <==> b[0] == MaxOf(b)
    ensures Corner(b) == 0 <==> FirstAt(b, MaxOf(b), 3) || FirstAt(b, MaxOf(b), 12) || FirstAt(b, MaxOf(b), 15)
    ensures Corner(b) == -500 <==>
      b[0] != MaxOf(b) && !FirstAt(b, MaxOf(b), 3) && !FirstAt(b, MaxOf(b), 12) && !FirstAt(b, MaxOf(b), 15)
  {
    var m := MaxOf(b);
    var k := IndexOf(b, m);
    assert 0 <= k;
    forall j | j == 3 || j == 12 || j == 15 ensures FirstAt(b, m, j) <==> k == j {
    }
  }

  // ---------------------------------------------------------------------------
  // Neighbour terms: sums over the board's grid in the order the nested loops
  // of evaluateBoard visit it
  // ---------------------------------------------------------------------------

  /**
   * The four neighbour terms.  RowOrder and ColumnOrder are the two passes of
   * the monotonicity term, Merges the merge opportunities and Roughness the
   * smoothness term.
   */
  datatype Feature = RowOrder | ColumnOrder | Merges | Roughness

  /** The number of inner loop steps of a feature's nested loops. */
  function Width(f: Feature): nat
  {
    if f.RowOrder? || f.ColumnOrder? then 3 else 4
  }

  /**
   * Monotonicity of two neighbours, the left or upper one first: nothing
   * unless both hold tiles, then a reward when the first is at least the
   * second and a penalty otherwise (ai.js line 43-48).
   */
  function OrderScore(current: nat, next: nat): int
  {
    if current > 0 && next > 0 then (if current >= next then 10 else -20) else 0
  }

  /** Absolute difference (Math.abs of the difference). */
  function Diff(x: nat, y: nat): nat
  {
    if x >= y then x - y else y - x
  }

  /** The merge opportunities a tile offers to its right and downward neighbours (ai.js line 68-78). */
  function CellMerges(b: Board, r: nat, c: nat): nat
    requires r < 4 && c < 4
  {
    var current := b[r * 4 + c];
    if current == 0 then 0
    else
      (if c < 3 && b[r * 4 + c + 1] == current then current else 0) +
      (if r < 3 && b[r * 4 + c + 4] == current then current else 0)
  }

  /** The differences between a tile and its non-empty right and downward neighbours (ai.js line 87-97). */
  function CellRoughness(b: Board, r: nat, c: nat): nat
    requires r < 4 && c < 4
  {
    var current := b[r * 4 + c];
    if current == 0 then 0
    else
      (if c < 3 && b[r * 4 + c + 1] != 0 then Diff(current, b[r * 4 + c + 1]) else 0) +
      (if r < 3 && b[r * 4 + c + 4] != 0 then Diff(current, b[r * 4 + c + 4]) else 0)
  }

  /**
   * What one step of a feature's nested loops adds, at outer index `outer`
   * and inner index `inner`: row and column for RowOrder, Merges and
   * Roughness, column and row for ColumnOrder.
   */
  function Term(b: Board, f: Feature, outer: nat, inner: nat): (t: int)
    requires outer < 4 && inner < Width(f)
    ensures f.RowOrder? || f.ColumnOrder? ==> -20 <= t <= 10
    ensures f.Merges? || f.Roughness? ==> 0 <= t
  {
    match f
    case RowOrder => OrderScore(b[outer * 4 + inner], b[outer * 4 + inner + 1])
    case ColumnOrder => OrderScore(b[inner * 4 + outer], b[(inner + 1) * 4 + outer])
    case Merges => CellMerges(b, outer, inner)
    case Roughness => CellRoughness(b, outer, inner)
  }

  /** The first n inner steps at outer index `outer`. */
  function Run(b: Board, f: Feature, outer: nat, n: nat): int
    requires outer < 4 && n <= Width(f)
  {
    if n == 0 then 0 else Run(b, f, outer, n - 1) + Term(b, f, outer, n - 1)
  }

  /** The first n outer steps, each with all its inner steps. */
  function Pass(b: Board, f: Feature, n: nat): int
    requires n <= 4
  {
    if n == 0 then 0 else Pass(b, f, n - 1) + Run(b, f, n - 1, Width(f))
  }

  /** The monotonicity term: the row pass followed by the column pass (ai.js line 40-61). */
  function Monotonicity(b: Board): int
  {
    Pass(b, RowOrder, 4) + Pass(b, ColumnOrder, 4)
  }

  /** The heuristic score of a board (ai.js line 9-103). */
  function Evaluate(b: Board): int
  {
    100 * Empties(b) + Corner(b) + Monotonicity(b)
    + 5 * Pass(b, Merges, 4) - 2 * Pass(b, Roughness, 4)
  }

  // ---------------------------------------------------------------------------
  // evaluateBoard
  // ---------------------------------------------------------------------------

  /** The two monotonicity passes (ai.js line 40-61). */
  method MonotonicityScore(matrix: Board) returns (monotonicityScore: int)
    ensures monotonicityScore == Monotonicity(matrix)
  {
    monotonicityScore := 0;
    for r := 0 to 4
      invariant monotonicityScore == Pass(matrix, RowOrder, r)
    {
      for c := 0 to 3
        invariant monotonicityScore == Pass(matrix, RowOrder, r) + Run(matrix, RowOrder, r, c)
      {
        var current := matrix[r * 4 + c];
        var next := matrix[r * 4 + c + 1];
        if current > 0 && next > 0 {
          if current >= next {
            monotonicityScore := monotonicityScore + 10;
          } else {
            monotonicityScore := monotonicityScore - 20;
          }
        }
      }
    }
    for c := 0 to 4
      invariant monotonicityScore == Pass(matrix, RowOrder, 4) + Pass(matrix, ColumnOrder, c)
    {
      for r := 0 to 3
        invariant monotonicityScore ==
          Pass(matrix, RowOrder, 4) + Pass(matrix, ColumnOrder, c) + Run(matrix, ColumnOrder, c, r)
      {
        var current := matrix[r * 4 + c];
        var next := matrix[(r + 1) * 4 + c];
        if current > 0 && next > 0 {
          if current >= next {
            monotonicityScore := monotonicityScore + 10;
          } else {
            monotonicityScore := monotonicityScore - 20;
          }
        }
      }
    }
  }

  /** The merge opportunities: the values of tiles equal to their right or lower neighbour (ai.js line 65-80). */
  method MergeOpportunities(matrix: Board) returns (mergeOpportunities: int)
    ensures mergeOpportunities == Pass(matrix, Merges, 4)
  {
    mergeOpportunities := 0;
    for r := 0 to 4
      invariant mergeOpportunities == Pass(matrix, Merges, r)
    {
      for c := 0 to 4
        invariant mergeOpportunities == Pass(matrix, Merges, r) + Run(matrix, Merges, r, c)
      {
        var current := matrix[r * 4 + c];
        if current == 0 {
          continue;
        }
        if c < 3 && matrix[r * 4 + c + 1] == current {
          mergeOpportunities := mergeOpportunities + current;
        }
        if r < 3 && matrix[r * 4 + c + 4] == current {
          mergeOpportunities := mergeOpportunities + current;
        }
      }
    }
  }

  /** The smoothness term: differences between neighbouring tiles (ai.js line 84-99). */
  method Smoothness(matrix: Board) returns (smoothness: int)
    ensures smoothness == Pass(matrix, Roughness, 4)
  {
    smoothness := 0;
    for r := 0 to 4
      invariant smoothness == Pass(matrix, Roughness, r)
    {
      for c := 0 to 4
        invariant smoothness == Pass(matrix, Roughness, r) + Run(matrix, Roughness, r, c)
      {
        var current := matrix[r * 4 + c];
        if current == 0 {
          continue;
        }
        if c < 3 && matrix[r * 4 + c + 1] != 0 {
          smoothness := smoothness + Diff(current, matrix[r * 4 + c + 1]);
        }
        if r < 3 && matrix[r * 4 + c + 4] != 0 {
          smoothness := smoothness + Diff(current, matrix[r * 4 + c + 4]);
        }
      }
    }
  }

  /** evaluateBoard (ai.js line 9-103). */
  method EvaluateBoard(matrix: Board) returns (score: int)
    ensures score == Evaluate(matrix)
  {
    score := 0;
    var emptyCells := Empties(matrix);
    score := score + emptyCells * 100;
    var maxTileValue := MaxOf(matrix);
    var topLeftTile := matrix[0];
    if topLeftTile == maxTileValue {
      score := score + 2000;
    } else {
      var maxTileIndex := IndexOf(matrix, maxTileValue);
      if maxTileIndex != 0 && maxTileIndex != 3 && maxTileIndex != 12 && maxTileIndex != 15 {
        score := score - 500;
      }
    }
    var monotonicityScore := MonotonicityScore(matrix);
    score := score + monotonicityScore;
    var mergeOpportunities := MergeOpportunities(matrix);
    score := score + mergeOpportunities * 5;
    var smoothness := Smoothness(matrix);
    score := score - smoothness * 2;
  }

  // ---------------------------------------------------------------------------
  // canMerge
  // ---------------------------------------------------------------------------

  /** The tile in cell i equals its right neighbour in the same row or the cell below it (ai.js line 173-179). */
  predicate MergeableAt(b: Board, i: nat)
    requires i < 16
  {
    b[i] != 0 && ((i % 4 != 3 && b[i] == b[i + 1]) || (i < 12 && b[i] == b[i + 4]))
  }

  /** Some tile equals a neighbour. */
  predicate Mergeable(b: Board)
  {
    exists i :: 0 <= i < 16 && MergeableAt(b, i)
  }

  /** canMerge (ai.js line 171-182). */
  method CanMerge(matrix: Board) returns (r: bool)
    ensures r <==> Mergeable(matrix)
  {
    for i := 0 to 16
      invariant forall p :: 0 <= p < i ==> !MergeableAt(matrix, p)
    {
      var value := matrix[i];
      if value == 0 {
        continue;
      }
      if i % 4 != 3 && value == matrix[i + 1] {
        assert MergeableAt(matrix, i);
        return true;
      }
      if i < 12 && value == matrix[i + 4] {
        assert MergeableAt(matrix, i);
        return true;
      }
    }
    return false;
  }

  // ---------------------------------------------------------------------------
  // Properties of the heuristic
  // ---------------------------------------------------------------------------

  /** Row r, column c of the grid is board cell r * 4 + c. */
  lemma GridCell(r: nat, c: nat)
    requires r < 4 && c < 4
    ensures (r * 4 + c) % 4 == c && (r * 4 + c) / 4 == r
    ensures (r * 4 + c) % 4 != 3 <==> c < 3
    ensures r * 4 + c < 12 <==> r < 3
  {
  }

  /** The merge opportunities of a cell are positive exactly when canMerge's test holds there. */
  lemma CellMergesAt(b: Board, r: nat, c: nat)
    requires r < 4 && c < 4
    ensures CellMerges(b, r, c) > 0 <==> MergeableAt(b, r * 4 + c)
  {
    GridCell(r, c);
  }

  /** Cell c of row r passes canMerge's test. */
  predicate MergeableInRow(b: Board, r: nat, c: nat)
    requires r < 4 && c < 4
  {
    MergeableAt(b, r * 4 + c)
  }

  /** Within one row, the merge opportunities are positive exactly when a cell among the first n passes canMerge's test. */
  lemma {:induction false} RunMergesPositive(b: Board, r: nat, n: nat)
    requires r < 4 && n <= 4
    ensures Run(b, Merges, r, n) >= 0
    ensures Run(b, Merges, r, n) > 0 <==> exists c :: 0 <= c < n && MergeableInRow(b, r, c)
  {
    if n > 0 {
      RunMergesPositive(b, r, n - 1);
      CellMergesAt(b, r, n - 1);
      if MergeableInRow(b, r, n - 1) {
        assert exists c :: 0 <= c < n && MergeableInRow(b, r, c);
      }
    }
  }

  /** Over the first n rows, the merge opportunities are positive exactly when a cell of theirs passes canMerge's test. */
  lemma {:induction false} PassMergesPositive(b: Board, n: nat)
    requires n <= 4
    ensures Pass(b, Merges, n) >= 0
    ensures Pass(b, Merges, n) > 0 <==> exists i :: 0 <= i < n * 4 && MergeableAt(b, i)
  {
    if n > 0 {
      PassMergesPositive(b, n - 1);
      RunMergesPositive(b, n - 1, 4);
      if exists i :: 0 <= i < n * 4 && MergeableAt(b, i) {
        var i :| 0 <= i < n * 4 && MergeableAt(b, i);
        if i >= (n - 1) * 4 {
          assert MergeableInRow(b, n - 1, i - (n - 1) * 4);
        }
      }
      var r := n - 1;
      if exists c :: 0 <= c < 4 && MergeableInRow(b, r, c) {
        var c :| 0 <= c < 4 && MergeableInRow(b, r, c);
        assert MergeableAt(b, r * 4 + c);
      }
    }
  }

  /**
   * The merge-opportunity term is never negative, and it is positive exactly
   * when canMerge holds: the heuristic rewards precisely the boards on which
   * two equal tiles touch.
   */
  lemma MergeTermIffMergeable(b: Board)
    ensures Pass(b, Merges, 4) >= 0
    ensures Pass(b, Merges, 4) > 0 <==> Mergeable(b)
  {
    PassMergesPositive(b, 4);
  }

  /** Each pair of neighbours adds between the penalty and the reward, so the row pass is bounded by its 12 pairs. */
  lemma {:induction false} PassBounds(b: Board, f: Feature, n: nat)
    requires n <= 4
    ensures f.RowOrder? || f.ColumnOrder? ==> -60 * n <= Pass(b, f, n) <= 30 * n
    ensures f.Merges? || f.Roughness? ==> 0 <= Pass(b, f, n)
  {
    if n > 0 {
      PassBounds(b, f, n - 1);
      RunBounds(b, f, n - 1, Width(f));
    }
  }

  lemma {:induction false} RunBounds(b: Board, f: Feature, outer: nat, n: nat)
    requires outer < 4 && n <= Width(f)
    ensures f.RowOrder? || f.ColumnOrder? ==> -20 * n <= Run(b, f, outer, n) <= 10 * n
    ensures f.Merges? || f.Roughness? ==> 0 <= Run(b, f, outer, n)
  {
    if n > 0 {
      RunBounds(b, f, outer, n - 1);
    }
  }

  /**
   * Monotonicity lies between -480 and 240 over the 24 neighbour pairs, and
   * the merge-opportunity and smoothness terms are never negative.
   */
  lemma TermBounds(b: Board)
    ensures -480 <= Monotonicity(b) <= 240
    ensures 0 <= Pass(b, Merges, 4) && 0 <= Pass(b, Roughness, 4)
  {
    PassBounds(b, RowOrder, 4);
    PassBounds(b, ColumnOrder, 4);
    PassBounds(b, Merges, 4);
    PassBounds(b, Roughness, 4);
  }

  /** No tile has a tile as its right neighbour or below it. */
  predicate Isolated(b: Board)
  {
    forall i :: 0 <= i < 16 && b[i] != 0 ==> (i % 4 != 3 ==> b[i + 1] == 0) && (i < 12 ==> b[i + 4] == 0)
  }

  /** On a board without touching tiles, every neighbour term adds nothing. */
  lemma IsolatedTerm(b: Board, f: Feature, outer: nat, inner: nat)
    requires Isolated(b) && outer < 4 && inner < Width(f)
    ensures Term(b, f, outer, inner) == 0
  {
    match f
    case RowOrder =>
      GridCell(outer, inner);
      assert b[outer * 4 + inner] != 0 ==> b[outer * 4 + inner + 1] == 0;
    case ColumnOrder =>
      GridCell(inner, outer);
      assert b[inner * 4 + outer] != 0 ==> b[inner * 4 + outer + 4] == 0;
    case Merges =>
      GridCell(outer, inner);
      assert b[outer * 4 + inner] != 0 ==>
        (inner < 3 ==> b[outer * 4 + inner + 1] == 0) && (outer < 3 ==> b[outer * 4 + inner + 4] == 0);
    case Roughness =>
      GridCell(outer, inner);
      assert b[outer * 4 + inner] != 0 ==>
        (inner < 3 ==> b[outer * 4 + inner + 1] == 0) && (outer < 3 ==> b[outer * 4 + inner + 4] == 0);
  }

  lemma {:induction false} IsolatedRun(b: Board, f: Feature, outer: nat, n: nat)
    requires Isolated(b) && outer < 4 && n <= Width(f)
    ensures Run(b, f, outer, n) == 0
  {
    if n > 0 {
      IsolatedRun(b, f, outer, n - 1);
      IsolatedTerm(b, f, outer, n - 1);
    }
  }

  lemma {:induction false} IsolatedPass(b: Board, f: Feature, n: nat)
    requires Isolated(b) && n <= 4
    ensures Pass(b, f, n) == 0
  {
    if n > 0 {
      IsolatedPass(b, f, n - 1);
      IsolatedRun(b, f, n - 1, Width(f));
    }
  }

  /**
   * The monotonicity, merge and smoothness terms only look at pairs of
   * touching tiles: without such pairs the score is the empty-cell term plus
   * the corner term.
   */
  lemma IsolatedScore(b: Board)
    requires Isolated(b)
    ensures Evaluate(b) == 100 * Empties(b) + Corner(b)
  {
    IsolatedPass(b, RowOrder, 4);
    IsolatedPass(b, ColumnOrder, 4);
    IsolatedPass(b, Merges, 4);
    IsolatedPass(b, Roughness, 4);
  }

  /** The board holding only the tile v in cell k. */
  function SingleTile(k: nat, v: nat): (b: Board)
    requires k < 16
  {
    seq(16, i requires 0 <= i < 16 => if i == k then v else 0)
  }

  lemma {:induction false} SingleTileEmpties(k: nat, v: nat, n: nat)
    requires k < 16 && v > 0 && n <= 16
    ensures Empties(SingleTile(k, v)[..n]) == if k < n then n - 1 else n
  {
    if n > 0 {
      var s := SingleTile(k, v)[..n];
      assert s[..n - 1] == SingleTile(k, v)[..n - 1];
      SingleTileEmpties(k, v, n - 1);
    }
  }

  /**
   * A board with a single tile scores 1500 for its fifteen empty cells, plus
   * the corner bonus in the top-left cell, nothing in the other corners and
   * the corner penalty anywhere else.
   */
  lemma SingleTileScore(k: nat, v: nat)
    requires k < 16 && v > 0
    ensures Evaluate(SingleTile(k, v)) ==
      1500 + (if k == 0 then 2000 else if k == 3 || k == 12 || k == 15 then 0 else -500)
  {
    var b := SingleTile(k, v);
    SingleTileEmpties(k, v, 16);
    assert b[..16] == b;
    assert b[k] == v;
    assert MaxOf(b) == v;
    assert IndexOf(b, v) == k;
    IsolatedScore(b);
  }

  /** The all-empty board scores 3600: 1600 for its empty cells and the corner bonus, its top-left 0 being the maximum. */
  lemma EmptyBoardScore()
    ensures Evaluate(seq(16, _ => 0)) == 3600
  {
    var b: Board := seq(16, _ => 0);
    EmptiesCount(b);
    assert Count(b) == 0 by {
      forall n | 0 <= n <= 16 ensures Count(b[..n]) == 0 {
        ZeroCount(b, n);
      }
      assert b[..16] == b;
    }
    assert MaxOf(b) == 0;
    IsolatedScore(b);
  }

  lemma {:induction false} ZeroCount(b: Board, n: nat)
    requires n <= 16 && forall i :: 0 <= i < 16 ==> b[i] == 0
    ensures Count(b[..n]) == 0
  {
    if n > 0 {
      assert b[..n][..n - 1] == b[..n - 1];
      ZeroCount(b, n - 1);
    }
  }
}
