/**
 * The move advisor: a depth-bounded expectimax search over the moves of the
 * engine (expectimax), and the choice of the direction whose resulting board
 * has the best expected heuristic score (findBestMove).
 *
 * Scores are exact real numbers: the 90% / 10% weights of the two tiles the
 * game may add and the average over the empty cells are computed without
 * rounding.  The "no score yet" value -Infinity is None.
 */
module Advisor {
  import opened Engine
  import opened Moves
  import opened Evaluation

  datatype Option<T> = None | Some(value: T)

  /** The directions in the order the advisor tries them (ai.js line 106, 135). */
  const Directions: seq<Direction> := [Up, Down, Left, Right]

  /** How many moves findBestMove looks ahead (ai.js line 109). */
  const SearchDepth: nat := 3

  /** The place of a direction in the advisor's order. */
  function Rank(d: Direction): (k: nat)
    ensures k < 4 && Directions[k] == d
  {
    match d
    case Up => 0
    case Down => 1
    case Left => 2
    case Right => 3
  }

  lemma RankOf(k: nat)
    requires k < 4
    ensures Rank(Directions[k]) == k
  {
    if k == 0 {
    } else if k == 1 {
    } else if k == 2 {
    } else {
    }
  }

  /** simulateMove (ai.js line 5-7). */
  method SimulateMove(matrix: Board, direction: Direction) returns (r: MoveResult)
    ensures r == Move(matrix, direction)
  {
    r := PerformMove(matrix, direction);
  }

  /** The move in direction d changes the board (ai.js line 113, 138). */
  predicate Changes(b: Board, d: Direction)
  {
    Move(b, d).newMatrix != b
  }

  // ---------------------------------------------------------------------------
  // Boards on which no move is possible
  // ---------------------------------------------------------------------------

  /** Two cells next to each other along a line of a full board without equal neighbours differ. */
  lemma LineNeighboursDiffer(b: Board, d: Direction, i: nat, p: nat)
    requires 0 !in b && !Mergeable(b) && i < 4 && p < 3
    ensures b[Index(d, i, p)] != b[Index(d, i, p + 1)]
  {
    match d
    case Left =>
      GridCell(i, p);
      assert !MergeableAt(b, i * 4 + p);
    case Right =>
      GridCell(i, 2 - p);
      assert !MergeableAt(b, i * 4 + (2 - p));
    case Up =>
      GridCell(p, i);
      assert !MergeableAt(b, p * 4 + i);
    case Down =>
      GridCell(2 - p, i);
      assert !MergeableAt(b, (2 - p) * 4 + i);
  }

  /** Every line of a full board without equal neighbours is settled. */
  lemma FullLinesSettled(b: Board, d: Direction, i: nat)
    requires 0 !in b && !Mergeable(b) && i < 4
    ensures Packed(LineAt(b, d, i)) && NoEqualNeighbours(LineAt(b, d, i))
  {
    var line := LineAt(b, d, i);
    forall p | 0 <= p < 3 ensures line[p] != line[p + 1] {
      LineNeighboursDiffer(b, d, i, p);
    }
  }

  /**
   * The terminal test of expectimax agrees with the engine: a board with no
   * empty cell on which canMerge fails is left unchanged by every move.
   */
  lemma StuckBoardIsFixed(b: Board, d: Direction)
    requires 0 !in b && !Mergeable(b)
    ensures !Changes(b, d)
  {
    forall i | 0 <= i < 4 ensures Packed(LineAt(b, d, i)) && NoEqualNeighbours(LineAt(b, d, i)) {
      FullLinesSettled(b, d, i);
    }
    MoveUnchangedIff(b, d);
  }

  /** Two equal touching tiles make the move left or the move up change the board. */
  lemma MergeableBoardMoves(b: Board)
    requires Mergeable(b)
    ensures Changes(b, Left) || Changes(b, Up)
  {
    var x :| 0 <= x < 16 && MergeableAt(b, x);
    var r, c := x / 4, x % 4;
    GridCell(r, c);
    if c != 3 && b[x] == b[x + 1] {
      assert LineAt(b, Left, r)[c] == b[x] && LineAt(b, Left, r)[c + 1] == b[x + 1];
      assert !NoEqualNeighbours(LineAt(b, Left, r));
      MoveUnchangedIff(b, Left);
    } else {
      assert LineAt(b, Up, c)[r] == b[x] && LineAt(b, Up, c)[r + 1] == b[x + 4];
      assert !NoEqualNeighbours(LineAt(b, Up, c));
      MoveUnchangedIff(b, Up);
    }
  }

  /** On a board without empty cells, no move is possible exactly when canMerge fails. */
  lemma FullBoardStuckIff(b: Board)
    requires 0 !in b
    ensures (forall d :: !Changes(b, d)) <==> !Mergeable(b)
  {
    if Mergeable(b) {
      MergeableBoardMoves(b);
    } else {
      forall d ensures !Changes(b, d) {
        StuckBoardIsFixed(b, d);
      }
    }
  }

  /** The checkerboard has no empty cell and no two equal touching tiles. */
  lemma CheckerboardFull(b: Board)
    requires b == [2, 4, 8, 16, 4, 2, 16, 8, 8, 16, 2, 4, 16, 8, 4, 2]
    ensures 0 !in b && !Mergeable(b)
  {
  }

  /**
   * A board on which no move is possible: moving left leaves it unchanged,
   * wins no points and yields one action per tile.
   */
  lemma CheckerboardExample(b: Board)
    requires b == [2, 4, 8, 16, 4, 2, 16, 8, 8, 16, 2, 4, 16, 8, 4, 2]
    ensures Move(b, Left).newMatrix == b && !Move(b, Left).hasChanged
    ensures Move(b, Left).scoreChange == 0 && |Move(b, Left).actions| == 16
  {
    CheckerboardFull(b);
    StuckBoardIsFixed(b, Left);
    MoveUnchangedQuiet(b, Left);
    MoveActionCount(b, Left);
    CountFull(b);
  }

  // ---------------------------------------------------------------------------
  // The empty cells
  // ---------------------------------------------------------------------------

  /** A board cell. */
  type Cell = c: nat | c < 16

  /** The empty cells among the first n, in increasing order. */
  function EmptyCellsUpTo(b: Board, n: nat): seq<Cell>
    requires n <= 16
  {
    if n == 0 then [] else EmptyCellsUpTo(b, n - 1) + (if b[n - 1] == 0 then [n - 1] else [])
  }

  /** The empty cells of a board (ai.js line 144-149). */
  function EmptyCells(b: Board): seq<Cell>
  {
    EmptyCellsUpTo(b, 16)
  }

  lemma {:induction false} EmptyCellsUpToExact(b: Board, n: nat)
    requires n <= 16
    ensures forall t :: 0 <= t < |EmptyCellsUpTo(b, n)| ==> EmptyCellsUpTo(b, n)[t] < n && b[EmptyCellsUpTo(b, n)[t]] == 0
    ensures forall k :: 0 <= k < n && b[k] == 0 ==> k in EmptyCellsUpTo(b, n)
    ensures forall t, u :: 0 <= t < u < |EmptyCellsUpTo(b, n)| ==> EmptyCellsUpTo(b, n)[t] < EmptyCellsUpTo(b, n)[u]
  {
    if n > 0 {
      EmptyCellsUpToExact(b, n - 1);
    }
  }

  /** The empty cells are exactly the cells holding 0, each once, in increasing order. */
  lemma EmptyCellsExact(b: Board)
    ensures forall t :: 0 <= t < |EmptyCells(b)| ==> b[EmptyCells(b)[t]] == 0
    ensures forall k :: 0 <= k < 16 && b[k] == 0 ==> k in EmptyCells(b)
    ensures forall t, u :: 0 <= t < u < |EmptyCells(b)| ==> EmptyCells(b)[t] < EmptyCells(b)[u]
  {
    EmptyCellsUpToExact(b, 16);
  }

  /** There are no empty cells exactly when no cell holds 0 (ai.js line 129 and 151). */
  lemma EmptyCellsNone(b: Board)
    ensures |EmptyCells(b)| == 0 <==> 0 !in b
  {
    EmptyCellsExact(b);
    if |EmptyCells(b)| > 0 {
      assert b[EmptyCells(b)[0]] in b;
    }
    if 0 in b {
      var k :| 0 <= k < 16 && b[k] == 0;
      assert k in EmptyCells(b);
    }
  }

  /** Collects the empty cells (ai.js line 144-149). */
  method FindEmptyCells(matrix: Board) returns (emptyCells: seq<Cell>)
    ensures emptyCells == EmptyCells(matrix)
  {
    emptyCells := [];
    for i := 0 to 16
      invariant emptyCells == EmptyCellsUpTo(matrix, i)
    {
      if matrix[i] == 0 {
        emptyCells := emptyCells + [i];
      }
    }
  }

  // ---------------------------------------------------------------------------
  // expectimax
  // ---------------------------------------------------------------------------

  /** The search stops at depth 0 and on full boards where canMerge fails (ai.js line 129). */
  predicate Terminal(b: Board, depth: nat)
  {
    depth == 0 || (0 !in b && !Mergeable(b))
  }

  /** Math.max with -Infinity as None. */
  function MaxWith(best: Option<real>, x: real): (m: real)
    ensures best.None? ==> m == x
    ensures best.Some? ==> m >= best.value && m >= x && (m == best.value || m == x)
  {
    if best.None? || x > best.value then x else best.value
  }

  /** Math.max over the best score so far and the outcome of one more move; a move that changes nothing is skipped. */
  function Better(best: Option<real>, outcome: Option<real>): (r: Option<real>)
    ensures r.None? <==> best.None? && outcome.None?
  {
    if outcome.None? then best else Some(MaxWith(best, outcome.value))
  }

  /** The best of the first n outcomes of a list, skipping the moves that change nothing (ai.js line 134-141). */
  function BestOf(outcomes: seq<Option<real>>, n: nat): Option<real>
    requires n <= |outcomes|
  {
    if n == 0 then None else Better(BestOf(outcomes, n - 1), outcomes[n - 1])
  }

  /** The expected score of a board, with the player or the game to move (ai.js line 128-169). */
  function Expectimax(b: Board, depth: nat, isPlayerTurn: bool): real
    decreases depth, 4, 0
  {
    if Terminal(b, depth) then Evaluate(b) as real
    else if isPlayerTurn then MaxValue(b, depth)
    else ChanceValue(b, depth)
  }

  /**
   * The player's turn: the best outcome over the four directions, or the
   * board's own evaluation when no direction changes it (ai.js line 133-142).
   */
  function MaxValue(b: Board, depth: nat): real
    requires 0 < depth
    decreases depth, 3, 0
  {
    match BestOf(Outcomes(b, depth), 4)
    case None => Evaluate(b) as real
    case Some(maxScore) => maxScore
  }

  /** The outcomes of the four directions, in the order the player's loop tries them. */
  function Outcomes(b: Board, depth: nat): (outcomes: seq<Option<real>>)
    requires 0 < depth
    ensures |outcomes| == 4
    decreases depth, 2, 0
  {
    seq(4, t requires 0 <= t < 4 => MoveOutcome(b, depth, Directions[t]))
  }

  /** The outcome of simulating the move in direction d (ai.js line 136-140). */
  function MoveOutcome(b: Board, depth: nat, d: Direction): Option<real>
    requires 0 < depth
    decreases depth, 1, 0
  {
    Outcome(b, depth, Move(b, d).newMatrix)
  }

  /**
   * The score of the board a move leaves, with the game to move next, or
   * None when the move left the board as it was (ai.js line 137-140).
   */
  function Outcome(b: Board, depth: nat, nextMatrix: Board): Option<real>
    requires 0 < depth
    decreases depth, 0, 0
  {
    if nextMatrix != b then Some(Expectimax(nextMatrix, depth - 1, false)) else None
  }

  /**
   * The game's turn: the average over the empty cells of the weighted
   * scores of a 2 and a 4 placed there, or the board's own evaluation when
   * no cell is empty (ai.js line 143-168).
   */
  function ChanceValue(b: Board, depth: nat): real
    requires 0 < depth
    decreases depth, 3, 0
  {
    var cells := EmptyCells(b);
    if |cells| == 0 then Evaluate(b) as real
    else ChanceTotal(b, depth, cells, |cells|) / (|cells| as real)
  }

  /** The weighted scores of the first n empty cells added up (ai.js line 155-166). */
  function ChanceTotal(b: Board, depth: nat, cells: seq<Cell>, n: nat): real
    requires 0 < depth && n <= |cells|
    decreases depth, 2, n
  {
    if n == 0 then 0.0 else ChanceTotal(b, depth, cells, n - 1) + Spawned(b, depth, cells[n - 1])
  }

  /** The game adds a 2 in cell c with weight 0.9 or a 4 with weight 0.1 (ai.js line 157-165). */
  function Spawned(b: Board, depth: nat, c: Cell): real
    requires 0 < depth
    decreases depth, 1, 0
  {
    0.9 * Expectimax(b[c := 2], depth - 1, true) + 0.1 * Expectimax(b[c := 4], depth - 1, true)
  }

  /** expectimax (ai.js line 128-169). */
  method ExpectimaxSearch(matrix: Board, depth: nat, isPlayerTurn: bool) returns (score: real)
    ensures score == Expectimax(matrix, depth, isPlayerTurn)
    decreases depth, 4
  {
    var terminal := depth == 0;
    if !terminal && 0 !in matrix {
      var mergeable := CanMerge(matrix);
      terminal := !mergeable;
    }
    if terminal {
      var evaluation := EvaluateBoard(matrix);
      score := evaluation as real;
    } else if isPlayerTurn {
      score := PlayerNode(matrix, depth);
    } else {
      score := ChanceNode(matrix, depth);
    }
  }

  /** The player's turn: the best score over the directions that change the board (ai.js line 133-142). */
  method PlayerNode(matrix: Board, depth: nat) returns (score: real)
    requires 0 < depth
    ensures score == MaxValue(matrix, depth)
    decreases depth, 3
  {
    var maxScore: Option<real> := None;
    for k := 0 to 4
      invariant maxScore == BestOf(Outcomes(matrix, depth), k)
    {
      maxScore := PlayerStep(matrix, depth, k, maxScore);
    }
    if maxScore.None? {
      var evaluation := EvaluateBoard(matrix);
      return evaluation as real;
    }
    return maxScore.value;
  }

  /** The body of the player's loop for the direction of rank k (ai.js line 135-141). */
  method PlayerStep(matrix: Board, depth: nat, k: nat, maxScore: Option<real>) returns (next: Option<real>)
    requires 0 < depth && k < 4 && maxScore == BestOf(Outcomes(matrix, depth), k)
    ensures next == BestOf(Outcomes(matrix, depth), k + 1)
    decreases depth, 2
  {
    var outcome := ScoreMove(matrix, depth, Directions[k]);
    OutcomeAt(matrix, depth, k);
    next := Better(maxScore, outcome);
  }

  /** Simulates the move in one direction and searches the board it leaves (ai.js line 136-140). */
  method ScoreMove(matrix: Board, depth: nat, direction: Direction) returns (outcome: Option<real>)
    requires 0 < depth
    ensures outcome == MoveOutcome(matrix, depth, direction)
    decreases depth, 1
  {
    var result := SimulateMove(matrix, direction);
    outcome := ScoreBoard(matrix, depth, result.newMatrix);
  }

  /** Searches the board a move left, unless the move changed nothing (ai.js line 137-140). */
  method ScoreBoard(matrix: Board, depth: nat, newMatrix: Board) returns (outcome: Option<real>)
    requires 0 < depth
    ensures outcome == Outcome(matrix, depth, newMatrix)
    decreases depth, 0
  {
    if newMatrix == matrix {
      return None;
    }
    var score := ExpectimaxSearch(newMatrix, depth - 1, false);
    return Some(score);
  }

  /** The game's turn: the weighted average over the tiles it may add (ai.js line 143-168). */
  method ChanceNode(matrix: Board, depth: nat) returns (score: real)
    requires 0 < depth
    ensures score == ChanceValue(matrix, depth)
    decreases depth, 3
  {
    var emptyCells := FindEmptyCells(matrix);
    if |emptyCells| == 0 {
      var evaluation := EvaluateBoard(matrix);
      return evaluation as real;
    }
    var totalScore := 0.0;
    for k := 0 to |emptyCells|
      invariant totalScore == ChanceTotal(matrix, depth, emptyCells, k)
    {
      var cellIndex := emptyCells[k];
      var matrixWith2 := matrix[cellIndex := 2];
      var score2 := ExpectimaxSearch(matrixWith2, depth - 1, true);
      var matrixWith4 := matrix[cellIndex := 4];
      var score4 := ExpectimaxSearch(matrixWith4, depth - 1, true);
      totalScore := totalScore + (0.9 * score2 + 0.1 * score4);
    }
    return totalScore / (|emptyCells| as real);
  }

  // ---------------------------------------------------------------------------
  // Properties of expectimax
  // ---------------------------------------------------------------------------

  /**
   * Over the first n outcomes, the best is None exactly when all of them
   * are None; otherwise it is the largest of them.
   */
  lemma {:induction false} BestOfIsMax(outcomes: seq<Option<real>>, n: nat)
    requires n <= |outcomes|
    ensures BestOf(outcomes, n).None? <==> forall t :: 0 <= t < n ==> outcomes[t].None?
    ensures BestOf(outcomes, n).Some? ==>
      forall t :: 0 <= t < n && outcomes[t].Some? ==> outcomes[t].value <= BestOf(outcomes, n).value
    ensures BestOf(outcomes, n).Some? ==> exists t :: 0 <= t < n && outcomes[t] == BestOf(outcomes, n)
  {
    if n > 0 {
      BestOfIsMax(outcomes, n - 1);
      var prev := BestOf(outcomes, n - 1);
      var best := BestOf(outcomes, n);
      if best.Some? {
        if outcomes[n - 1].None? || (prev.Some? && prev.value >= outcomes[n - 1].value) {
          var t :| 0 <= t < n - 1 && outcomes[t] == prev;
          assert outcomes[t] == best;
        } else {
          assert outcomes[n - 1] == best;
        }
      }
    }
  }

  /** The outcome in place t of the list is that of the t-th direction the advisor tries. */
  lemma OutcomeAt(b: Board, depth: nat, t: nat)
    requires 0 < depth && t < 4
    ensures Outcomes(b, depth)[t] == MoveOutcome(b, depth, Directions[t])
  {
  }

  /** The score of the board that the move in direction d leaves, with the game to move. */
  function Child(b: Board, depth: nat, d: Direction): real
    requires 0 < depth
  {
    Expectimax(Move(b, d).newMatrix, depth - 1, false)
  }

  /** A move has an outcome exactly when it changes the board, and the outcome is the score of the board it leaves. */
  lemma MoveOutcomeIs(b: Board, depth: nat, d: Direction)
    requires 0 < depth
    ensures MoveOutcome(b, depth, d).None? <==> !Changes(b, d)
    ensures MoveOutcome(b, depth, d).Some? ==> MoveOutcome(b, depth, d).value == Child(b, depth, d)
  {
  }

  /** The outcome a direction has in the list of outcomes: None exactly when it changes nothing, otherwise its score. */
  lemma DirectionOutcome(b: Board, depth: nat, d: Direction)
    requires 0 < depth
    ensures Outcomes(b, depth)[Rank(d)].None? <==> !Changes(b, d)
    ensures Outcomes(b, depth)[Rank(d)].Some? ==> Outcomes(b, depth)[Rank(d)].value == Child(b, depth, d)
  {
    OutcomeAt(b, depth, Rank(d));
    MoveOutcomeIs(b, depth, d);
  }

  /** With the player to move, no direction that changes the board scores more than the search's value. */
  lemma MaxNodeBound(b: Board, depth: nat, d: Direction)
    requires !Terminal(b, depth) && Changes(b, d)
    ensures Child(b, depth, d) <= Expectimax(b, depth, true)
  {
    BestOfIsMax(Outcomes(b, depth), 4);
    OutcomeAt(b, depth, Rank(d));
    MoveOutcomeIs(b, depth, d);
  }

  /** With the player to move and no direction that changes the board, the search's value is the board's evaluation. */
  lemma MaxNodeStuck(b: Board, depth: nat)
    requires !Terminal(b, depth) && forall d :: !Changes(b, d)
    ensures Expectimax(b, depth, true) == Evaluate(b) as real
  {
    BestOfIsMax(Outcomes(b, depth), 4);
    forall t | 0 <= t < 4 ensures Outcomes(b, depth)[t].None? {
      RankOf(t);
      DirectionOutcome(b, depth, Directions[t]);
    }
  }

  /** With the player to move, the search's value is the score of some direction that changes the board, if there is one. */
  lemma MaxNodeAttained(b: Board, depth: nat, d: Direction)
    requires !Terminal(b, depth) && Changes(b, d)
    ensures exists e :: Changes(b, e) && Child(b, depth, e) == Expectimax(b, depth, true)
  {
    BestOfIsMax(Outcomes(b, depth), 4);
    DirectionOutcome(b, depth, d);
    var t :| 0 <= t < 4 && Outcomes(b, depth)[t] == BestOf(Outcomes(b, depth), 4);
    var e := Directions[t];
    RankOf(t);
    DirectionOutcome(b, depth, e);
    assert Child(b, depth, e) == MaxValue(b, depth);
    assert Changes(b, e);
  }

  /** A full board on which no move changes anything is a leaf of the search, whoever is to move. */
  lemma FullStuckBoardValue(b: Board, depth: nat, isPlayerTurn: bool)
    requires 0 !in b && forall d :: !Changes(b, d)
    ensures Expectimax(b, depth, isPlayerTurn) == Evaluate(b) as real
  {
    FullBoardStuckIff(b);
  }

  /** With the game to move on a board without an empty cell, the search's value is the board's evaluation. */
  lemma ChanceNodeFull(b: Board, depth: nat)
    requires 0 !in b
    ensures Expectimax(b, depth, false) == Evaluate(b) as real
  {
    EmptyCellsNone(b);
  }

  /** Bounds on each weighted score bound their sum. */
  lemma {:induction false} ChanceTotalBounds(b: Board, depth: nat, cells: seq<Cell>, n: nat, lo: real, hi: real)
    requires 0 < depth && n <= |cells|
    requires forall t :: 0 <= t < n ==> lo <= Spawned(b, depth, cells[t]) <= hi
    ensures (n as real) * lo <= ChanceTotal(b, depth, cells, n) <= (n as real) * hi
  {
    if n > 0 {
      ChanceTotalBounds(b, depth, cells, n - 1, lo, hi);
      assert (n as real) * lo == ((n - 1) as real) * lo + lo;
      assert (n as real) * hi == ((n - 1) as real) * hi + hi;
    }
  }

  /** An average of values between lo and hi lies between lo and hi. */
  lemma AverageBounds(total: real, n: real, lo: real, hi: real)
    requires n > 0.0 && n * lo <= total <= n * hi
    ensures lo <= total / n <= hi
  {
    assert total / n * n == total;
  }

  /** Bounds on the scores of every placement bound the weighted score of every empty cell. */
  lemma SpawnedBounds(b: Board, depth: nat, lo: real, hi: real)
    requires 0 < depth
    requires forall c :: 0 <= c < 16 && b[c] == 0 ==>
      lo <= Expectimax(b[c := 2], depth - 1, true) <= hi && lo <= Expectimax(b[c := 4], depth - 1, true) <= hi
    ensures forall t :: 0 <= t < |EmptyCells(b)| ==> lo <= Spawned(b, depth, EmptyCells(b)[t]) <= hi
  {
    EmptyCellsExact(b);
  }

  /** On a board with an empty cell, bounds on the weighted score of every empty cell bound their average. */
  lemma ChanceValueBounds(b: Board, depth: nat, lo: real, hi: real)
    requires 0 < depth && 0 in b
    requires forall t :: 0 <= t < |EmptyCells(b)| ==> lo <= Spawned(b, depth, EmptyCells(b)[t]) <= hi
    ensures lo <= ChanceValue(b, depth) <= hi
  {
    var cells := EmptyCells(b);
    EmptyCellsNone(b);
    ChanceTotalBounds(b, depth, cells, |cells|, lo, hi);
    AverageBounds(ChanceTotal(b, depth, cells, |cells|), |cells| as real, lo, hi);
  }

  /**
   * With the game to move on a board with an empty cell, the search's value
   * is an average: when every placement of a 2 or a 4 scores between lo and
   * hi, so does the board.
   */
  lemma ChanceNodeBounds(b: Board, depth: nat, lo: real, hi: real)
    requires !Terminal(b, depth) && 0 in b
    requires forall c :: 0 <= c < 16 && b[c] == 0 ==>
      lo <= Expectimax(b[c := 2], depth - 1, true) <= hi && lo <= Expectimax(b[c := 4], depth - 1, true) <= hi
    ensures lo <= Expectimax(b, depth, false) <= hi
  {
    SpawnedBounds(b, depth, lo, hi);
    ChanceValueBounds(b, depth, lo, hi);
    assert Expectimax(b, depth, false) == ChanceValue(b, depth);
  }

  // ---------------------------------------------------------------------------
  // findBestMove
  // ---------------------------------------------------------------------------

  /** The expected score findBestMove gives to the move in direction d (ai.js line 112, 119). */
  function MoveValue(b: Board, d: Direction): real
  {
    Child(b, SearchDepth + 1, d)
  }

  /**
   * The state of findBestMove's loop after the first k outcomes: no move
   * yet exactly when none of them is a move that changes the board;
   * otherwise the move holds the largest of them, and is the first to
   * reach it.
   */
  predicate BestSoFar(outcomes: seq<Option<real>>, k: nat, bestMove: Option<Direction>, bestScore: Option<real>)
    requires k <= |outcomes|
  {
    (bestMove.None? <==> bestScore.None?) &&
    (bestMove.None? <==> forall t :: 0 <= t < k ==> outcomes[t].None?) &&
    (bestMove.Some? ==> Rank(bestMove.value) < k && outcomes[Rank(bestMove.value)] == bestScore) &&
    (bestMove.Some? ==> forall t :: 0 <= t < k && outcomes[t].Some? ==> outcomes[t].value <= bestScore.value) &&
    (bestMove.Some? ==> forall t :: 0 <= t < Rank(bestMove.value) && outcomes[t].Some? ==> outcomes[t].value < bestScore.value)
  }

  /**
   * The body of findBestMove's loop (ai.js line 111-122): a direction that
   * changes the board and beats the best score so far becomes the best move.
   */
  method BestStep(ghost outcomes: seq<Option<real>>, k: nat, bestMove: Option<Direction>, bestScore: Option<real>,
                  outcome: Option<real>)
    returns (nextMove: Option<Direction>, nextScore: Option<real>)
    requires k < |outcomes| == 4 && BestSoFar(outcomes, k, bestMove, bestScore) && outcome == outcomes[k]
    ensures BestSoFar(outcomes, k + 1, nextMove, nextScore)
    ensures if outcome.Some? && (bestScore.None? || outcome.value > bestScore.value)
      then nextMove == Some(Directions[k]) && nextScore == outcome
      else nextMove == bestMove && nextScore == bestScore
  {
    RankOf(k);
    nextMove, nextScore := bestMove, bestScore;
    if outcome.Some? && (bestScore.None? || outcome.value > bestScore.value) {
      nextMove, nextScore := Some(Directions[k]), outcome;
    }
  }

  /** After all four directions, there is no best move exactly when no direction changes the board. */
  lemma BestMoveNone(b: Board, bestMove: Option<Direction>, bestScore: Option<real>)
    requires BestSoFar(Outcomes(b, SearchDepth + 1), 4, bestMove, bestScore)
    ensures bestMove.None? <==> forall d :: !Changes(b, d)
  {
    if bestMove.None? {
      forall d ensures !Changes(b, d) {
        DirectionOutcome(b, SearchDepth + 1, d);
      }
    } else {
      DirectionOutcome(b, SearchDepth + 1, bestMove.value);
    }
  }

  /** After all four directions, the best move changes the board. */
  lemma BestMoveChanges(b: Board, bestMove: Option<Direction>, bestScore: Option<real>)
    requires BestSoFar(Outcomes(b, SearchDepth + 1), 4, bestMove, bestScore)
    ensures bestMove.Some? ==> Changes(b, bestMove.value)
  {
    if bestMove.Some? {
      DirectionOutcome(b, SearchDepth + 1, bestMove.value);
    }
  }

  /** After all four directions, no direction that changes the board scores more than the best move. */
  lemma BestMoveBound(b: Board, bestMove: Option<Direction>, bestScore: Option<real>, d: Direction)
    requires BestSoFar(Outcomes(b, SearchDepth + 1), 4, bestMove, bestScore)
    requires bestMove.Some? && Changes(b, d)
    ensures MoveValue(b, d) <= MoveValue(b, bestMove.value)
  {
    var os := Outcomes(b, SearchDepth + 1);
    DirectionOutcome(b, SearchDepth + 1, bestMove.value);
    DirectionOutcome(b, SearchDepth + 1, d);
    assert os[Rank(d)] == Some(MoveValue(b, d));
    assert os[Rank(bestMove.value)] == Some(MoveValue(b, bestMove.value));
  }

  /** After all four directions, every direction tried before the best move that changes the board scores less. */
  lemma BestMoveFirst(b: Board, bestMove: Option<Direction>, bestScore: Option<real>, d: Direction)
    requires BestSoFar(Outcomes(b, SearchDepth + 1), 4, bestMove, bestScore)
    requires bestMove.Some? && Rank(d) < Rank(bestMove.value) && Changes(b, d)
    ensures MoveValue(b, d) < MoveValue(b, bestMove.value)
  {
    var os := Outcomes(b, SearchDepth + 1);
    DirectionOutcome(b, SearchDepth + 1, bestMove.value);
    DirectionOutcome(b, SearchDepth + 1, d);
    assert os[Rank(d)] == Some(MoveValue(b, d));
    assert os[Rank(bestMove.value)] == Some(MoveValue(b, bestMove.value));
  }

  /**
   * findBestMove (ai.js line 105-126): None (the empty string) when no
   * direction changes the board; otherwise a direction that changes it and
   * scores at least as much as every other such direction, and strictly
   * more than every such direction tried before it.
   */
  method FindBestMove(matrix: Board) returns (bestMove: Option<Direction>)
    ensures bestMove.None? <==> forall d :: !Changes(matrix, d)
    ensures bestMove.Some? ==> Changes(matrix, bestMove.value)
    ensures bestMove.Some? ==> forall d :: Changes(matrix, d) ==> MoveValue(matrix, d) <= MoveValue(matrix, bestMove.value)
    ensures bestMove.Some? ==>
      forall d :: Rank(d) < Rank(bestMove.value) && Changes(matrix, d) ==> MoveValue(matrix, d) < MoveValue(matrix, bestMove.value)
  {
    ghost var outcomes := Outcomes(matrix, SearchDepth + 1);
    bestMove := None;
    var bestScore: Option<real> := None;
    for k := 0 to 4
      invariant BestSoFar(outcomes, k, bestMove, bestScore)
    {
      var outcome := ScoreMove(matrix, SearchDepth + 1, Directions[k]);
      OutcomeAt(matrix, SearchDepth + 1, k);
      bestMove, bestScore := BestStep(outcomes, k, bestMove, bestScore, outcome);
    }
    BestMoveNone(matrix, bestMove, bestScore);
    BestMoveChanges(matrix, bestMove, bestScore);
    forall d | bestMove.Some? && Changes(matrix, d)
      ensures MoveValue(matrix, d) <= MoveValue(matrix, bestMove.value)
    {
      BestMoveBound(matrix, bestMove, bestScore, d);
    }
    forall d | bestMove.Some? && Rank(d) < Rank(bestMove.value) && Changes(matrix, d)
      ensures MoveValue(matrix, d) < MoveValue(matrix, bestMove.value)
    {
      BestMoveFirst(matrix, bestMove, bestScore, d);
    }
  }
}
