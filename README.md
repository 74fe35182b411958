# 2048: move engine and move advisor

A Dafny model of the two logic files of a browser 2048 game.

- `gameLogic.js` is the move engine. `mergeTiles` resolves one line of four
  cells: it slides the tiles towards the edge and merges equal neighbours
  once each. It reports the points won and one action per tile.
  `performMove` applies a move in one of four directions to the 4x4 board.
  It reads the four lines of that direction, resolves each, writes them back
  and translates the actions to board cells. It reports whether the board
  changed.
- `ai.js` is the move advisor. `evaluateBoard` is an integer heuristic of
  five terms and `canMerge` tests for two equal touching tiles.
  `expectimax` is a depth-bounded search that alternates player moves and
  random tile placements. `findBestMove` picks the direction with the best
  expected score among those that change the board.

The model has four modules, one per file:

- `engine.dfy` (`Engine`): the board and action types, and `mergeTiles`.
- `moves.dfy` (`Moves`): the direction geometry and `performMove`.
- `evaluation.dfy` (`Evaluation`): `evaluateBoard` and `canMerge`.
- `advisor.dfy` (`Advisor`): `simulateMove`, `expectimax` and `findBestMove`.

A cell is a `nat`, with 0 for the empty cell. The program stores tiles as
canonical decimal strings, so its string equality on cells is value equality
here. A board is a sequence of 16 cells in row-major order. A direction is a
datatype with four constructors.

Each source function with a loop is a method with the same loops. It is
proved equal to a specification function, and the properties are proved as
lemmas about that function. Three loop bodies are their own methods, whose
requires and ensures are the loop invariant before and after one step:
`MoveLine`, `PlayerStep` and `BestStep`. `ScanTiles` is the whole scan loop
of `mergeTiles`, proved equal to the scan function `ResolveFrom`.
`ScoreMove` is the shared body of the player loop and of `findBestMove`'s
loop: it simulates one direction and searches the board that move leaves.
`performMove` fills a 16-cell `array` in place, as the source fills
`newMatrix`.

Expected scores are exact reals. The "no score yet" value `-Infinity` is
`None`, and so is `findBestMove`'s empty-string answer. Dafny proves that
the search terminates from its `decreases` clauses: every recursive call
lowers the depth by one.

## Model

| member | source | states |
|---|---|---|
| Engine.NonEmptyTiles | gameLogic.js:11-12 | The compacted line has one tile per non-empty cell, in increasing position order. Each tile carries its cell's value and its position. |
| Engine.NonEmptyTilesCover | gameLogic.js:11-12 | Every non-empty cell of the line appears among the compacted tiles. |
| Engine.NonEmptyTilesSum | gameLogic.js:11-12 | Compacting a line keeps its total tile value. |
| Engine.ResolveFrom | gameLogic.js:14-35 | The scan yields one action per scanned tile, carrying that tile's position and value. No action lands beyond the output slots, and no result is longer than the scanned tiles. |
| Engine.ScanTiles | gameLogic.js:14-35 | The loop, with its manual skip past a merged pair, computes exactly the scan of the compacted tiles. |
| Engine.Pad | gameLogic.js:37-40 | Padding gives length 4 (or keeps a longer line), keeps the line as a prefix and adds only empty cells. |
| Engine.MergeLine | gameLogic.js:8-43 | A line of at most four cells yields four cells and one action per tile. Every action moves towards the edge and carries its source cell's value. Actions keep the order of their source cells. |
| Engine.MergeTiles | gameLogic.js:8-43 | Compacting, scanning and padding with the `while` loop compute MergeLine. |
| Engine.ResolveNonEmpty | gameLogic.js:15-34 | The scan only produces non-empty cells. |
| Engine.ResolveSum | gameLogic.js:16-33 | The scan keeps the total value of the tiles it scans: a merge turns v, v into 2v. |
| Engine.ResolveScore | gameLogic.js:16-25 | The points of the scan equal the sum of the pre-merge values of its merge actions. |
| Engine.ResolveDestinationValue | gameLogic.js:20-33 | Each action's destination cell holds the action's value, doubled when the action is a merge. |
| Engine.ResolveOrdered | gameLogic.js:20-33 | Destinations never decrease along the actions. Two actions share a destination only when they are adjacent merges of the same value. |
| Engine.ResolvePaired | gameLogic.js:20-28 | Every merge action has a neighbour in the list with the same destination. |
| Engine.ResolveShrinks | gameLogic.js:16-28 | Two equal neighbours among the scanned tiles make the result strictly shorter. |
| Engine.ResolveKeepsLength | gameLogic.js:29-33 | A scan without merge actions keeps one output cell per tile. |
| Engine.ResolveCopies | gameLogic.js:29-33 | When no two neighbouring tiles are equal, every tile is copied to the next slot as a non-merge action and no points are won. |
| Engine.MergeLinePacked | gameLogic.js:14-40 | The resolved line has all its tiles before all its empty cells, and never more tiles than the input. |
| Engine.MergeLineConserves | gameLogic.js:16-27 | mergeTiles keeps the total tile value, and its score is the sum of the pre-merge values of the merging tiles. |
| Engine.MergeLineActions | gameLogic.js:11-33 | Every tile has an action starting from its cell. Each destination holds the action's value, doubled on a merge. Destinations are ordered, and merges come in adjacent pairs of equal value. |
| Engine.MergeLineEmpty | gameLogic.js:11-40 | A line without tiles yields no actions, score 0 and only empty cells. |
| Engine.MergeLineNoMerge | gameLogic.js:16-33 | A line merges nothing exactly when no two consecutive tiles are equal, exactly when it keeps all its tiles. Then it wins nothing, and the k-th tile goes to cell k. |
| Engine.MergeLineSettledFixed | gameLogic.js:8-43 | A packed four-cell line without equal neighbours comes back unchanged. |
| Engine.MergeLineFixedSettled | gameLogic.js:8-43 | A four-cell line that comes back unchanged is packed and has no equal neighbours. It wins nothing, and every action is a non-merge that keeps its tile in place. |
| Engine.MergeLineFixedIff | gameLogic.js:8-43 | A four-cell line comes back unchanged exactly when it is packed and has no equal neighbours. |
| Engine.MergeLinePairExample | __tests__/gameLogic.test.js:10-19 | `[2,2,0,0]` gives `[4,0,0,0]`, score 4 and two merge actions into cell 0. |
| Engine.MergeLineOncePerMoveExample | __tests__/gameLogic.test.js:21-32 | `[2,2,2,2]` gives `[4,4,0,0]`, score 8 and four merge actions: no tile merges twice. |
| Engine.MergeLineDistinctExample | __tests__/gameLogic.test.js:34-45 | `[2,4,2,4]` stays as it is, with score 0 and four non-merge actions in place. |
| Engine.MergeLineSlideExample | __tests__/gameLogic.test.js:47-56 | `[0,0,2,2]` gives `[4,0,0,0]`, with actions from cells 2 and 3 into cell 0. |
| Engine.MergeLineTrailingPairExample | __tests__/gameLogic.test.js:58-69 | `[2,4,2,2]` gives `[2,4,4,0]`, with the last pair merging into cell 2. |
| Moves.Index | gameLogic.js:65-70 | The index table maps line i, position j to a board cell, for each of the four directions. |
| Moves.IndexInverse | gameLogic.js:63-73 | The index table is injective: the line and the position can be recovered from the cell. |
| Moves.CellInverse | gameLogic.js:63-73 | The index table is onto: every cell is some line's cell at some position. With IndexInverse, every cell of newMatrix is written exactly once. |
| Moves.LineResults | gameLogic.js:59-75 | The four resolved lines of a direction have four cells each, and their actions stay inside the line. |
| Moves.ReadLine | gameLogic.js:60-73 | The inner read loop produces the line and its cell indices. |
| Moves.TranslateActions | gameLogic.js:78-85 | The `forEach` maps each line action to board cells through the line's indices. |
| Moves.WriteLine | gameLogic.js:87-89 | The write loop stores line i's resolved cells at its indices and leaves every other cell of newMatrix as it was. |
| Moves.MoveLine | gameLogic.js:59-90 | One round of the outer loop adds line i's score and translated actions to the totals and writes line i. |
| Moves.MoveAllLines | gameLogic.js:54-90 | The outer loop produces the total score, the actions of the four lines in order, and the placed board. |
| Moves.PerformMove | gameLogic.js:53-98 | performMove computes Move. It sets hasChanged exactly when the new board differs from the old one. |
| Moves.PlacedLine | gameLogic.js:87-89 | Reading line i back from the written board gives line i's resolved cells. |
| Moves.MovedLine | gameLogic.js:59-89 | Line i of the moved board is line i of the old board, resolved by mergeTiles. |
| Moves.BoardsEqualIff | gameLogic.js:92-95 | Two boards are equal exactly when they agree on all four lines of any direction. |
| Moves.SumByLines | gameLogic.js:59-89 | A board's total value is the sum of its four lines in any direction. |
| Moves.MovedLineSum | gameLogic.js:75-89 | Each line of a move keeps its total value. |
| Moves.MoveConservesValue | gameLogic.js:53-98 | A move keeps the total tile value of the board. |
| Moves.MoveScore | gameLogic.js:55-85 | scoreChange is the sum of the pre-merge values of all merge actions, that is, the sum of the merged tiles' values. |
| Moves.MoveActionCount | gameLogic.js:75-85 | A move has exactly one action per tile of the board. |
| Moves.MoveCoversTiles | gameLogic.js:75-85 | Every tile of the board has an action starting from its cell. |
| Moves.MoveActionGeometry | gameLogic.js:78-89 | Every action stays within one row (left/right) or column (up/down) and moves towards the edge. It carries its source cell's value, and its destination on the new board holds that value, doubled on a merge. |
| Moves.MoveMergePairs | gameLogic.js:75-85 | Across the whole move, two actions share a destination only when they are adjacent merges of the same value, and every merge action has such a partner. |
| Moves.SingleTileLine | gameLogic.js:8-43 | A line holding one tile sends it to the edge cell, wins nothing, and yields one non-merge action from the tile's cell to cell 0. |
| Moves.BoardFromLines | gameLogic.js:59-89 | A move yields board e when every line of the board, resolved by mergeTiles, is the matching line of e. |
| Moves.ChangedAt | gameLogic.js:92-95 | A move whose board differs from the old board in some cell sets hasChanged. |
| Moves.DiagonalLeftBoard | __tests__/gameLogic.test.js:75-94 | The diagonal board of 2s moved left puts a 2 in the first cell of every row and sets hasChanged. |
| Moves.DiagonalRightBoard | __tests__/gameLogic.test.js:96-115 | The diagonal board of 2s moved right puts a 2 in the last cell of every row and sets hasChanged. |
| Moves.DiagonalRightActions | __tests__/gameLogic.test.js:96-121 | That move's actions are exactly 0→3, 5→7, 10→11 and 15→15, each a non-merge of value 2, in row order. |
| Moves.MergeLeftBoard | __tests__/gameLogic.test.js:123-140 | The board with a pair of 2s, a pair of 4s and two 8s with a gap, moved left, gives 4, 8 and 16 in the first column and sets hasChanged. |
| Moves.MergeLeftActions | __tests__/gameLogic.test.js:123-147 | That move scores 4 + 8 + 16 = 28. Its actions are exactly the six merges 0→0 and 1→0 of 2, 4→4 and 5→4 of 4, and 8→8 and 10→8 of 8, in row order. |
| Moves.MovedLineFixed | gameLogic.js:87-95 | A line is left as it was exactly when it is packed and has no equal neighbours. |
| Moves.MoveUnchangedIff | gameLogic.js:92-95 | hasChanged is false exactly when every line of the direction is packed towards the edge and has no equal neighbours. |
| Moves.SettledMoveQuiet | gameLogic.js:75-89 | A move over such settled lines wins nothing, and every action keeps its tile in place without merging. |
| Moves.MoveUnchangedQuiet | gameLogic.js:92-97 | A move that leaves the board unchanged wins nothing, and every action is a non-merge from a cell to itself. |
| Evaluation.MaxOf | ai.js:24 | The maximum is a value of the board, and no cell exceeds it. |
| Evaluation.IndexOf | ai.js:31 | indexOf gives the first position holding the value, or -1 exactly when the value is absent. |
| Evaluation.CornerCases | ai.js:24-35 | The corner term is +2000 exactly when cell 0 holds the maximum. It is 0 exactly when the maximum first occurs in cell 3, 12 or 15 (and not cell 0). It is -500 otherwise. |
| Evaluation.Term | ai.js:40-100 | A monotonicity step adds between -20 and +10; a merge or smoothness step adds a non-negative amount. |
| Evaluation.MonotonicityScore | ai.js:40-61 | The row loops and the column loops compute the monotonicity term. |
| Evaluation.MergeOpportunities | ai.js:65-80 | The nested loops add the value of each tile equal to its right or lower neighbour. |
| Evaluation.Smoothness | ai.js:84-99 | The nested loops add the absolute differences between non-empty touching tiles. |
| Evaluation.EvaluateBoard | ai.js:9-103 | The score is 100 per empty cell, plus the corner term, plus monotonicity, plus 5 times the merge opportunities, minus 2 times smoothness. |
| Evaluation.CanMerge | ai.js:171-182 | canMerge returns true exactly when some non-empty cell equals its right neighbour in the same row or the cell below it. |
| Evaluation.CellMergesAt | ai.js:65-80 | A cell adds merge opportunities exactly when canMerge's test holds at that cell. |
| Evaluation.MergeTermIffMergeable | ai.js:65-80 | The merge-opportunity term is never negative. It is positive exactly when canMerge holds. |
| Evaluation.TermBounds | ai.js:40-100 | Monotonicity lies between -480 and 240. The merge and smoothness terms are never negative. |
| Evaluation.IsolatedScore | ai.js:40-100 | The neighbour terms look only at pairs of touching tiles. Without such pairs, the score is the empty-cell term plus the corner term. |
| Evaluation.SingleTileScore | ai.js:9-103 | A board with one tile scores 1500 for its empty cells, plus 2000 when the tile is in cell 0, nothing when it is in another corner, and -500 elsewhere. |
| Evaluation.EmptyBoardScore | ai.js:14-27 | The all-empty board scores 3600: 1600 for its empty cells and 2000 because cell 0 holds the maximum, 0. |
| Advisor.SimulateMove | ai.js:5-7 | simulateMove is performMove. |
| Advisor.StuckBoardIsFixed | ai.js:129-131 | A full board on which canMerge fails is left unchanged by every move. |
| Advisor.MergeableBoardMoves | ai.js:171-182 | Two equal touching tiles make the move left or the move up change the board. |
| Advisor.FullBoardStuckIff | ai.js:129-131 | On a full board, no move changes anything exactly when canMerge fails, so the terminal test agrees with the engine. |
| Advisor.CheckerboardExample | __tests__/gameLogic.test.js:151-165 | The checkerboard moved left stays unchanged, with hasChanged false, score 0 and 16 actions. |
| Advisor.EmptyCellsExact | ai.js:144-149 | The collected cells are exactly the cells holding 0, each once, in increasing order. |
| Advisor.EmptyCellsNone | ai.js:151-153 | No cell is collected exactly when the board has no empty cell. |
| Advisor.FindEmptyCells | ai.js:144-149 | The loop collects the empty cells. |
| Advisor.MaxWith | ai.js:139 | Math.max against -Infinity gives the new score. Otherwise it gives the larger of the two, and it is one of them. |
| Advisor.Better | ai.js:138-140 | The best score stays "none yet" exactly when it was none and the move changed nothing. |
| Advisor.ExpectimaxSearch | ai.js:128-169 | The recursive search computes Expectimax: evaluateBoard at depth 0 and on stuck full boards, otherwise the player or chance value. |
| Advisor.PlayerNode | ai.js:133-142 | The player's loop gives the best outcome over the four directions, or evaluateBoard when no direction changes the board. |
| Advisor.PlayerStep | ai.js:136-141 | One pass of the player's loop extends the best over the directions tried so far by one more direction. |
| Advisor.ScoreMove | ai.js:137-140 | Simulating a move and searching its board gives that direction's outcome. |
| Advisor.ScoreBoard | ai.js:138-140 | A board equal to the current one has no outcome. Any other board is searched with the game to move and depth reduced by one. |
| Advisor.ChanceNode | ai.js:143-168 | The chance loop gives the average, over the empty cells, of 0.9 times the score with a 2 placed there plus 0.1 times the score with a 4. With no empty cell it gives evaluateBoard. |
| Advisor.BestOfIsMax | ai.js:134-142 | The running Math.max over the outcomes is "none" exactly when every move changed nothing. Otherwise it is at least every outcome and equal to one of them. |
| Advisor.MoveOutcomeIs | ai.js:137-140 | A direction has an outcome exactly when its move changes the board. The outcome is the search value of the board it leaves, with the game to move. |
| Advisor.MaxNodeBound | ai.js:134-142 | With the player to move, no direction that changes the board scores more than the node's value. |
| Advisor.MaxNodeStuck | ai.js:142 | With the player to move and no direction that changes the board, the value is evaluateBoard. |
| Advisor.MaxNodeAttained | ai.js:134-142 | With the player to move and some direction that changes the board, the value is the score of such a direction. |
| Advisor.FullStuckBoardValue | ai.js:129-131 | A full board on which no move changes anything is valued by evaluateBoard, whoever is to move. |
| Advisor.ChanceNodeFull | ai.js:151-153 | With the game to move on a board without an empty cell, the value is evaluateBoard. |
| Advisor.ChanceTotalBounds | ai.js:155-166 | If each weighted cell score lies between lo and hi, the total over n cells lies between n·lo and n·hi. |
| Advisor.SpawnedBounds | ai.js:157-165 | If the scores with a 2 and with a 4 placed in any empty cell lie between lo and hi, so does every weighted cell score. |
| Advisor.ChanceValueBounds | ai.js:155-167 | On a board with an empty cell, bounds on every weighted cell score bound the average. |
| Advisor.ChanceNodeBounds | ai.js:143-168 | With the game to move on a board with an empty cell, if every placement of a 2 or a 4 scores between lo and hi, so does the board. |
| Advisor.BestStep | ai.js:111-123 | One pass of findBestMove's loop: a direction whose outcome beats the best so far strictly becomes the best move; otherwise nothing changes. The loop invariant is kept: the best move has the largest outcome so far and is the first to reach it. |
| Advisor.BestMoveNone | ai.js:107-125 | After the loop, there is no best move exactly when no direction changes the board. |
| Advisor.BestMoveChanges | ai.js:111-115 | After the loop, the best move changes the board. |
| Advisor.BestMoveBound | ai.js:119-123 | After the loop, no direction that changes the board scores more than the best move. |
| Advisor.BestMoveFirst | ai.js:120-123 | After the loop, every direction before the best move in the order up, down, left, right that changes the board scores strictly less. So ties go to the earliest direction. |
| Advisor.FindBestMove | ai.js:105-126 | findBestMove returns none exactly when no direction changes the board. Otherwise it returns a direction that changes the board, scores at least as much as every such direction, and scores strictly more than every such direction before it. |

## Left out

- `game.js` is not part of this model. It holds the DOM, event handlers, the stored best score and random tile spawning, which are I/O and randomness.
- The conversions between strings and numbers (`parseInt`, `toString`, `Number`, `String`) are not modelled. Cells are natural numbers. This assumes every cell is a canonical decimal string, where string equality is value equality.
- Very large tile values are not modelled. Above 2^53 the program's arithmetic is no longer exact, and from 10^21 on `String()` writes numbers in exponent form, which breaks `indexOf(String(max))` and `parseInt`. Such values cannot arise in play: tiles start at 2 or 4, and no tile on a 4x4 board can exceed 2^17.
- Unrecognised direction strings are not modelled. The `switch` in `performMove` has no default case, and the closed `Direction` datatype leaves no such input.
- The model computes expected scores in exact real arithmetic. The program uses IEEE doubles, so rounding in the 0.9 and 0.1 weights, the sums and the division by the empty-cell count is not captured.
- `-Infinity` is not a value of the model. `Math.max` against it becomes `None`, so a search value of `-Infinity` cannot arise.
- The reshaping of the board into `board2D` in `evaluateBoard` is not modelled. The model reads cell `r * 4 + c` directly, which is the same cell.
- `findBestMove`'s empty-string answer is `None`, and a direction is returned as a `Direction` rather than its name.
- The copies `[...matrix]` in the chance node are not modelled separately: boards are values, so `b[c := 2]` is already a fresh board.
