/**
 * The 2048 move engine: resolving one line of cells (mergeTiles) and applying
 * a move in one of four directions to the whole 4x4 board (performMove).
 *
 * A cell holds a tile value as a natural number; 0 is the empty cell.  The
 * original program keeps canonical decimal strings, so its string equality
 * on cells is value equality here.
 */
module Engine {

  /** The four moves.  The type is closed, so no unknown direction exists. */
  datatype Direction = Up | Down | Left | Right

  /** A 4x4 board in row-major order: cell k is at row k / 4, column k % 4. */
  type Board = b: seq<nat> | |b| == 16 witness seq(16, _ => 0)

  /** A non-empty tile of a line together with its position in that line. */
  datatype Tile = Tile(value: nat, originalIndex: nat)

  /**
   * One tile's movement: where it started, where it ends up, its value before
   * any merge, and whether it merges with a partner at its destination.
   */
  datatype Action = Action(from: nat, to: nat, value: nat, isMerge: bool)

  /** What resolving one line yields: the new line, the points won, the actions. */
  datatype LineResult = LineResult(merged: seq<nat>, score: nat, actions: seq<Action>)

  /** What a whole move yields. */
  datatype MoveResult = MoveResult(newMatrix: Board, scoreChange: nat, actions: seq<Action>, hasChanged: bool)

  // ---------------------------------------------------------------------------
  // Sums and counts over lines
  // ---------------------------------------------------------------------------

  /** Total tile value of a line or board. */
  function Sum(s: seq<nat>): nat
  {
    if |s| == 0 then 0 else s[0] + Sum(s[1..])
  }

  /** Number of non-empty cells. */
  function Count(s: seq<nat>): nat
  {
    if |s| == 0 then 0 else Count(s[..|s| - 1]) + (if s[|s| - 1] != 0 then 1 else 0)
  }

  /** Total pre-merge value of the merging tiles among some actions. */
  function MergeSum(acts: seq<Action>): nat
  {
    if |acts| == 0 then 0
    else (if acts[0].isMerge then acts[0].value else 0) + MergeSum(acts[1..])
  }

  /** The values of a sequence of tiles, in order. */
  function Values(ts: seq<Tile>): (vs: seq<nat>)
  {
    seq(|ts|, t requires 0 <= t < |ts| => ts[t].value)
  }

  /** All non-empty cells come before all empty ones. */
  predicate Packed(s: seq<nat>)
  {
    forall p, q :: 0 <= p < q < |s| && s[p] == 0 ==> s[q] == 0
  }

  /** No non-empty cell equals the cell right after it. */
  predicate NoEqualNeighbours(s: seq<nat>)
  {
    forall p :: 0 <= p < |s| - 1 && s[p] != 0 ==> s[p] != s[p + 1]
  }

  /** From tile i on, no two consecutive tiles of a compacted line have equal values. */
  predicate DistinctNeighbours(ts: seq<Tile>, i: nat)
  {
    forall t :: i <= t < |ts| - 1 ==> ts[t].value != ts[t + 1].value
  }

  /** Destinations never decrease along the action list. */
  predicate Ordered(acts: seq<Action>)
  {
    forall t, u :: 0 <= t < u < |acts| ==> acts[t].to <= acts[u].to
  }

  /**
   * Merges come in pairs: two actions share a destination only when they are
   * adjacent in the list, both merges, and carry the same value; and every
   * merge action has such a partner.
   */
  predicate MergePairs(acts: seq<Action>)
  {
    && (forall t, u :: 0 <= t < u < |acts| && acts[t].to == acts[u].to ==>
          u == t + 1 && acts[t].isMerge && acts[u].isMerge && acts[t].value == acts[u].value)
    && MergesPaired(acts)
  }

  /** Every merge action has a neighbour in the list with the same destination. */
  predicate MergesPaired(acts: seq<Action>)
  {
    forall t :: 0 <= t < |acts| && acts[t].isMerge ==> HasPartner(acts, t)
  }

  /** Action t has a neighbour in the list with the same destination. */
  predicate HasPartner(acts: seq<Action>, t: nat)
    requires t < |acts|
  {
    (t + 1 < |acts| && acts[t + 1].to == acts[t].to) || (0 < t && acts[t - 1].to == acts[t].to)
  }

  lemma {:induction false} SumConcat(a: seq<nat>, b: seq<nat>)
    ensures Sum(a + b) == Sum(a) + Sum(b)
  {
    if |a| > 0 {
      assert (a + b)[1..] == a[1..] + b;
      SumConcat(a[1..], b);
    } else {
      assert a + b == b;
    }
  }

  lemma {:induction false} CountConcat(a: seq<nat>, b: seq<nat>)
    ensures Count(a + b) == Count(a) + Count(b)
    decreases |b|
  {
    if |b| == 0 {
      assert a + b == a;
    } else {
      assert (a + b)[..|a + b| - 1] == a + b[..|b| - 1];
      CountConcat(a, b[..|b| - 1]);
    }
  }

  lemma {:induction false} SumZeros(n: nat)
    ensures Sum(Zeros(n)) == 0 && Count(Zeros(n)) == 0
  {
    if n > 0 {
      assert Zeros(n)[1..] == Zeros(n - 1);
      assert Zeros(n)[..n - 1] == Zeros(n - 1);
      SumZeros(n - 1);
    }
  }

  lemma {:induction false} MergeSumConcat(a: seq<Action>, b: seq<Action>)
    ensures MergeSum(a + b) == MergeSum(a) + MergeSum(b)
  {
    if |a| > 0 {
      assert (a + b)[1..] == a[1..] + b;
      MergeSumConcat(a[1..], b);
    } else {
      assert a + b == b;
    }
  }

  // ---------------------------------------------------------------------------
  // Resolving one line (mergeTiles)
  // ---------------------------------------------------------------------------

  /**
   * The non-empty cells of a line in order, each with its position
   * (gameLogic.js line 11-12).
   */
  function NonEmptyTiles(line: seq<nat>): (ts: seq<Tile>)
    ensures |ts| == Count(line) <= |line|
    ensures forall t :: 0 <= t < |ts| ==>
      t <= ts[t].originalIndex < |line| && ts[t].value == line[ts[t].originalIndex] && ts[t].value != 0
    ensures forall t, u :: 0 <= t < u < |ts| ==> ts[t].originalIndex < ts[u].originalIndex
  {
    if |line| == 0 then []
    else
      var last := |line| - 1;
      var prev := NonEmptyTiles(line[..last]);
      if line[last] != 0 then prev + [Tile(line[last], last)] else prev
  }

  /** Every non-empty cell of a line is among its non-empty tiles. */
  lemma {:induction false} NonEmptyTilesCover(line: seq<nat>, p: nat)
    requires p < |line| && line[p] != 0
    ensures exists t :: 0 <= t < |NonEmptyTiles(line)| && NonEmptyTiles(line)[t].originalIndex == p
  {
    var last := |line| - 1;
    var prev := NonEmptyTiles(line[..last]);
    var ts := NonEmptyTiles(line);
    if p == last {
      assert ts[|prev|].originalIndex == p;
    } else {
      assert line[..last][p] != 0;
      NonEmptyTilesCover(line[..last], p);
      var t :| 0 <= t < |prev| && prev[t].originalIndex == p;
      assert ts[t].originalIndex == p;
    }
  }

  /** Concatenation of two partial line results, in order. */
  function Join(a: LineResult, b: LineResult): LineResult
  {
    LineResult(a.merged + b.merged, a.score + b.score, a.actions + b.actions)
  }

  /**
   * The left-to-right scan over the compacted tiles of a line, from tile i
   * on: two equal neighbours become one tile of twice the value and the scan
   * skips past both, so no tile merges twice; any other tile is copied.
   * `slot` is the output position the first resulting tile goes to.
   */
  function ResolveFrom(ts: seq<Tile>, i: nat, slot: nat): (r: LineResult)
    requires i <= |ts|
    ensures |r.actions| == |ts| - i && |r.merged| <= |ts| - i
    ensures forall t :: 0 <= t < |r.actions| ==>
      r.actions[t].from == ts[i + t].originalIndex && r.actions[t].value == ts[i + t].value
    ensures forall t :: 0 <= t < |r.actions| ==>
      slot <= r.actions[t].to <= slot + t && r.actions[t].to < slot + |r.merged|
    decreases |ts| - i
  {
    if i == |ts| then LineResult([], 0, [])
    else if i + 1 < |ts| && ts[i].value == ts[i + 1].value then
      var mergedValue := ts[i].value * 2;
      Join(LineResult([mergedValue], mergedValue,
                      [Action(ts[i].originalIndex, slot, ts[i].value, true),
                       Action(ts[i + 1].originalIndex, slot, ts[i + 1].value, true)]),
           ResolveFrom(ts, i + 2, slot + 1))
    else
      Join(LineResult([ts[i].value], 0, [Action(ts[i].originalIndex, slot, ts[i].value, false)]),
           ResolveFrom(ts, i + 1, slot + 1))
  }

  /** n empty cells. */
  function Zeros(n: nat): (z: seq<nat>)
  {
    seq(n, _ => 0)
  }

  /** A line extended with empty cells up to length 4 (gameLogic.js line 37-40). */
  function Pad(s: seq<nat>): (r: seq<nat>)
    ensures |r| == if |s| < 4 then 4 else |s|
    ensures r[..|s|] == s && forall p :: |s| <= p < |r| ==> r[p] == 0
  {
    if |s| < 4 then s + Zeros(4 - |s|) else s
  }

  /**
   * The result of mergeTiles on a line: the resolved line padded with empty
   * cells, the points won, and one action per non-empty cell, in line order.
   */
  function MergeLine(tiles: seq<nat>): (r: LineResult)
    ensures |tiles| <= 4 ==> |r.merged| == 4
    ensures |r.actions| == Count(tiles)
    ensures forall t :: 0 <= t < |r.actions| ==>
      r.actions[t].to <= r.actions[t].from < |tiles| && tiles[r.actions[t].from] == r.actions[t].value
    ensures forall t, u :: 0 <= t < u < |r.actions| ==> r.actions[t].from < r.actions[u].from
  {
    var res := ResolveFrom(NonEmptyTiles(tiles), 0, 0);
    LineResult(Pad(res.merged), res.score, res.actions)
  }

  /**
   * The loop state of mergeTiles after its first i tiles: what it has built,
   * followed by what the rest of the scan builds, is the whole result.
   */
  predicate ScanInvariant(ts: seq<Tile>, i: nat, acc: LineResult)
  {
    i <= |ts| && Join(acc, ResolveFrom(ts, i, |acc.merged|)) == ResolveFrom(ts, 0, 0)
  }

  lemma JoinAssociative(a: LineResult, b: LineResult, c: LineResult)
    ensures Join(Join(a, b), c) == Join(a, Join(b, c))
  {
  }

  /**
   * The scan loop of mergeTiles (gameLogic.js line 14-35) over the compacted
   * tiles, with its manual skip past a merged pair.
   */
  method ScanTiles(nonEmptyTiles: seq<Tile>) returns (r: LineResult)
    ensures r == ResolveFrom(nonEmptyTiles, 0, 0)
  {
    var actions: seq<Action> := [];
    var score: nat := 0;
    var mergedLine: seq<nat> := [];
    var i := 0;
    while i < |nonEmptyTiles|
      invariant 0 <= i <= |nonEmptyTiles|
      invariant ScanInvariant(nonEmptyTiles, i, LineResult(mergedLine, score, actions))
    {
      ghost var before := LineResult(mergedLine, score, actions);
      if i + 1 < |nonEmptyTiles| && nonEmptyTiles[i].value == nonEmptyTiles[i + 1].value {
        var mergedValue := nonEmptyTiles[i].value * 2;
        score := score + mergedValue;
        var toIndex := |mergedLine|;
        var first := Action(nonEmptyTiles[i].originalIndex, toIndex, nonEmptyTiles[i].value, true);
        var second := Action(nonEmptyTiles[i + 1].originalIndex, toIndex, nonEmptyTiles[i + 1].value, true);
        actions := actions + [first];
        actions := actions + [second];
        mergedLine := mergedLine + [mergedValue];
        ghost var step := LineResult([mergedValue], mergedValue, [first, second]);
        assert actions == before.actions + [first, second];
        assert LineResult(mergedLine, score, actions) == Join(before, step);
        JoinAssociative(before, step, ResolveFrom(nonEmptyTiles, i + 2, |mergedLine|));
        i := i + 1;
      } else {
        var toIndex := |mergedLine|;
        var single := Action(nonEmptyTiles[i].originalIndex, toIndex, nonEmptyTiles[i].value, false);
        actions := actions + [single];
        mergedLine := mergedLine + [nonEmptyTiles[i].value];
        ghost var step := LineResult([nonEmptyTiles[i].value], 0, [single]);
        assert LineResult(mergedLine, score, actions) == Join(before, step);
        JoinAssociative(before, step, ResolveFrom(nonEmptyTiles, i + 1, |mergedLine|));
      }
      i := i + 1;
    }
    assert mergedLine + [] == mergedLine && actions + [] == actions;
    r := LineResult(mergedLine, score, actions);
  }

  /**
   * mergeTiles (gameLogic.js line 8-43): compact the line, scan it, then pad
   * the result with empty cells up to four.
   */
  method MergeTiles(tiles: seq<nat>) returns (r: LineResult)
    ensures r == MergeLine(tiles)
  {
    var nonEmptyTiles := NonEmptyTiles(tiles);
    var scanned := ScanTiles(nonEmptyTiles);
    var finalTiles := scanned.merged;
    while |finalTiles| < 4
      invariant |scanned.merged| <= |finalTiles| <= (if |scanned.merged| < 4 then 4 else |scanned.merged|)
      invariant finalTiles == scanned.merged + Zeros(|finalTiles| - |scanned.merged|)
      decreases 4 - |finalTiles|
    {
      assert Zeros(|finalTiles| - |scanned.merged|) + [0] == Zeros(|finalTiles| + 1 - |scanned.merged|);
      finalTiles := finalTiles + [0];
    }
    assert |scanned.merged| >= 4 ==> finalTiles == scanned.merged + Zeros(0) == scanned.merged;
    r := LineResult(finalTiles, scanned.score, scanned.actions);
  }

  // ---------------------------------------------------------------------------
  // Properties of the scan
  // ---------------------------------------------------------------------------

  /** The scan only produces non-empty tiles. */
  lemma {:induction false} ResolveNonEmpty(ts: seq<Tile>, i: nat, slot: nat)
    requires i <= |ts|
    requires forall t :: 0 <= t < |ts| ==> ts[t].value != 0
    ensures forall p :: 0 <= p < |ResolveFrom(ts, i, slot).merged| ==> ResolveFrom(ts, i, slot).merged[p] != 0
    decreases |ts| - i
  {
    if i < |ts| {
      if i + 1 < |ts| && ts[i].value == ts[i + 1].value {
        ResolveNonEmpty(ts, i + 2, slot + 1);
        assert ResolveFrom(ts, i, slot).merged == [ts[i].value * 2] + ResolveFrom(ts, i + 2, slot + 1).merged;
      } else {
        ResolveNonEmpty(ts, i + 1, slot + 1);
        assert ResolveFrom(ts, i, slot).merged == [ts[i].value] + ResolveFrom(ts, i + 1, slot + 1).merged;
      }
    }
  }

  /** The scan keeps the total value of the tiles it scans. */
  lemma {:induction false} ResolveSum(ts: seq<Tile>, i: nat, slot: nat)
    requires i <= |ts|
    ensures Sum(ResolveFrom(ts, i, slot).merged) == Sum(Values(ts)[i..])
    decreases |ts| - i
  {
    var vs := Values(ts);
    if i == |ts| {
      assert vs[i..] == [];
    } else if i + 1 < |ts| && ts[i].value == ts[i + 1].value {
      var rest := ResolveFrom(ts, i + 2, slot + 1);
      ResolveSum(ts, i + 2, slot + 1);
      assert ResolveFrom(ts, i, slot).merged == [ts[i].value * 2] + rest.merged;
      assert vs[i..] == [vs[i], vs[i + 1]] + vs[i + 2..];
      SumConcat([vs[i], vs[i + 1]], vs[i + 2..]);
    } else {
      var rest := ResolveFrom(ts, i + 1, slot + 1);
      ResolveSum(ts, i + 1, slot + 1);
      assert ResolveFrom(ts, i, slot).merged == [ts[i].value] + rest.merged;
      assert vs[i..] == [vs[i]] + vs[i + 1..];
    }
  }

  /** The points the scan wins are the pre-merge values of its merging tiles. */
  lemma {:induction false} ResolveScore(ts: seq<Tile>, i: nat, slot: nat)
    requires i <= |ts|
    ensures var r := ResolveFrom(ts, i, slot); r.score == MergeSum(r.actions)
    decreases |ts| - i
  {
    if i < |ts| {
      var r := ResolveFrom(ts, i, slot);
      if i + 1 < |ts| && ts[i].value == ts[i + 1].value {
        var rest := ResolveFrom(ts, i + 2, slot + 1);
        ResolveScore(ts, i + 2, slot + 1);
        var pair := r.actions[..2];
        assert r.actions == pair + rest.actions;
        MergeSumConcat(pair, rest.actions);
        assert pair[1..][1..] == [];
      } else {
        var rest := ResolveFrom(ts, i + 1, slot + 1);
        ResolveScore(ts, i + 1, slot + 1);
        assert r.actions == r.actions[..1] + rest.actions;
        MergeSumConcat(r.actions[..1], rest.actions);
      }
    }
  }

  /** Action t's destination holds the action's value, doubled when it merges. */
  lemma {:induction false} ResolveDestinationValue(ts: seq<Tile>, i: nat, slot: nat, t: nat)
    requires i <= |ts| && t < |ts| - i
    ensures DestinationHolds(ResolveFrom(ts, i, slot), slot, t)
    decreases |ts| - i
  {
    if i + 1 < |ts| && ts[i].value == ts[i + 1].value {
      if t >= 2 {
        ResolveDestinationValue(ts, i + 2, slot + 1, t - 2);
      }
      DestinationAfterMerge(ts, i, slot, t);
    } else {
      if t >= 1 {
        ResolveDestinationValue(ts, i + 1, slot + 1, t - 1);
      }
      DestinationAfterCopy(ts, i, slot, t);
    }
  }

  /** One merging step of the scan keeps DestinationHolds for every action. */
  lemma DestinationAfterMerge(ts: seq<Tile>, i: nat, slot: nat, t: nat)
    requires i + 1 < |ts| && ts[i].value == ts[i + 1].value && t < |ts| - i
    requires t >= 2 ==> DestinationHolds(ResolveFrom(ts, i + 2, slot + 1), slot + 1, t - 2)
    ensures DestinationHolds(ResolveFrom(ts, i, slot), slot, t)
  {
    var r := ResolveFrom(ts, i, slot);
    var rest := ResolveFrom(ts, i + 2, slot + 1);
    assert r.merged == [ts[i].value * 2] + rest.merged;
    if t >= 2 {
      assert r.actions[t] == rest.actions[t - 2];
    } else {
      assert r.actions[t] == Action(ts[i + t].originalIndex, slot, ts[i].value, true);
    }
  }

  /** One copying step of the scan keeps DestinationHolds for every action. */
  lemma DestinationAfterCopy(ts: seq<Tile>, i: nat, slot: nat, t: nat)
    requires i < |ts| && !(i + 1 < |ts| && ts[i].value == ts[i + 1].value) && t < |ts| - i
    requires t >= 1 ==> DestinationHolds(ResolveFrom(ts, i + 1, slot + 1), slot + 1, t - 1)
    ensures DestinationHolds(ResolveFrom(ts, i, slot), slot, t)
  {
    var r := ResolveFrom(ts, i, slot);
    var rest := ResolveFrom(ts, i + 1, slot + 1);
    assert r.merged == [ts[i].value] + rest.merged;
    if t >= 1 {
      assert r.actions[t] == rest.actions[t - 1];
    } else {
      assert r.actions[t] == Action(ts[i].originalIndex, slot, ts[i].value, false);
    }
  }

  /** The cell at action t's destination holds its value, doubled when it merges. */
  predicate DestinationHolds(r: LineResult, slot: nat, t: nat)
  {
    t < |r.actions| && slot <= r.actions[t].to < slot + |r.merged| &&
    r.merged[r.actions[t].to - slot] == if r.actions[t].isMerge then 2 * r.actions[t].value else r.actions[t].value
  }

  /**
   * Actions t < u keep their order of destinations, and share one only when
   * they are adjacent merges of equal value.
   */
  predicate PairHolds(acts: seq<Action>, t: nat, u: nat)
  {
    t < u < |acts| && acts[t].to <= acts[u].to &&
    (acts[t].to == acts[u].to ==> u == t + 1 && acts[t].isMerge && acts[u].isMerge && acts[t].value == acts[u].value)
  }

  /** Destinations never decrease along the actions of a scan. */
  lemma {:induction false} ResolveSharedAt(ts: seq<Tile>, i: nat, slot: nat, t: nat, u: nat)
    requires i <= |ts| && t < u < |ts| - i
    ensures PairHolds(ResolveFrom(ts, i, slot).actions, t, u)
    decreases |ts| - i
  {
    if i + 1 < |ts| && ts[i].value == ts[i + 1].value {
      if t >= 2 {
        ResolveSharedAt(ts, i + 2, slot + 1, t - 2, u - 2);
      }
      SharedAfterMerge(ts, i, slot, t, u);
    } else {
      if t >= 1 {
        ResolveSharedAt(ts, i + 1, slot + 1, t - 1, u - 1);
      }
      SharedAfterCopy(ts, i, slot, t, u);
    }
  }

  /** One merging step of the scan keeps PairHolds for every pair of actions. */
  lemma SharedAfterMerge(ts: seq<Tile>, i: nat, slot: nat, t: nat, u: nat)
    requires i + 1 < |ts| && ts[i].value == ts[i + 1].value && t < u < |ts| - i
    requires t >= 2 ==> PairHolds(ResolveFrom(ts, i + 2, slot + 1).actions, t - 2, u - 2)
    ensures PairHolds(ResolveFrom(ts, i, slot).actions, t, u)
  {
    var a := ResolveFrom(ts, i, slot).actions;
    var rest := ResolveFrom(ts, i + 2, slot + 1).actions;
    if t >= 2 {
      assert a[t] == rest[t - 2] && a[u] == rest[u - 2];
    } else if u >= 2 {
      assert a[t].to == slot;
      assert a[u] == rest[u - 2];
    } else {
      assert a[t].to == slot && a[u].to == slot;
    }
  }

  /** One copying step of the scan keeps PairHolds for every pair of actions. */
  lemma SharedAfterCopy(ts: seq<Tile>, i: nat, slot: nat, t: nat, u: nat)
    requires i < |ts| && !(i + 1 < |ts| && ts[i].value == ts[i + 1].value) && t < u < |ts| - i
    requires t >= 1 ==> PairHolds(ResolveFrom(ts, i + 1, slot + 1).actions, t - 1, u - 1)
    ensures PairHolds(ResolveFrom(ts, i, slot).actions, t, u)
  {
    var a := ResolveFrom(ts, i, slot).actions;
    var rest := ResolveFrom(ts, i + 1, slot + 1).actions;
    if t >= 1 {
      assert a[t] == rest[t - 1] && a[u] == rest[u - 1];
    } else {
      assert a[t].to == slot;
      assert a[u] == rest[u - 1];
    }
  }

  /** Every merge action has a partner right before or right after it with the same destination. */
  lemma {:induction false} ResolvePartnerAt(ts: seq<Tile>, i: nat, slot: nat, t: nat)
    requires i <= |ts| && t < |ts| - i
    requires ResolveFrom(ts, i, slot).actions[t].isMerge
    ensures HasPartner(ResolveFrom(ts, i, slot).actions, t)
    decreases |ts| - i
  {
    var a := ResolveFrom(ts, i, slot).actions;
    var k := if i + 1 < |ts| && ts[i].value == ts[i + 1].value then 2 else 1;
    var rest := ResolveFrom(ts, i + k, slot + 1).actions;
    assert a == a[..k] + rest;
    if t >= k {
      assert a[t] == rest[t - k];
      ResolvePartnerAt(ts, i + k, slot + 1, t - k);
      if t + 1 < |a| {
        assert a[t + 1] == rest[t + 1 - k];
      }
      if t - k > 0 {
        assert a[t - 1] == rest[t - 1 - k];
      }
    }
  }

  /** Destinations are ordered and merges come in adjacent pairs. */
  lemma ResolveDestinations(ts: seq<Tile>, i: nat, slot: nat)
    requires i <= |ts|
    ensures Ordered(ResolveFrom(ts, i, slot).actions) && MergePairs(ResolveFrom(ts, i, slot).actions)
  {
    ResolveOrdered(ts, i, slot);
    ResolvePaired(ts, i, slot);
  }

  lemma ResolveOrdered(ts: seq<Tile>, i: nat, slot: nat)
    requires i <= |ts|
    ensures Ordered(ResolveFrom(ts, i, slot).actions)
    ensures var a := ResolveFrom(ts, i, slot).actions;
      forall t, u :: 0 <= t < u < |a| && a[t].to == a[u].to ==>
        u == t + 1 && a[t].isMerge && a[u].isMerge && a[t].value == a[u].value
  {
    var a := ResolveFrom(ts, i, slot).actions;
    forall t, u | 0 <= t < u < |a|
      ensures a[t].to <= a[u].to
      ensures a[t].to == a[u].to ==> u == t + 1 && a[t].isMerge && a[u].isMerge && a[t].value == a[u].value
    {
      ResolveSharedAt(ts, i, slot, t, u);
      assert PairHolds(a, t, u);
    }
  }

  lemma ResolvePaired(ts: seq<Tile>, i: nat, slot: nat)
    requires i <= |ts|
    ensures MergesPaired(ResolveFrom(ts, i, slot).actions)
  {
    var a := ResolveFrom(ts, i, slot).actions;
    forall t | 0 <= t < |a| && a[t].isMerge ensures HasPartner(a, t) {
      ResolvePartnerAt(ts, i, slot, t);
    }
  }

  /** Two equal neighbours among the scanned tiles make the result shorter. */
  lemma {:induction false} ResolveShrinks(ts: seq<Tile>, i: nat, slot: nat, t: nat)
    requires i <= t && t + 1 < |ts| && ts[t].value == ts[t + 1].value
    ensures |ResolveFrom(ts, i, slot).merged| < |ts| - i
    decreases |ts| - i
  {
    if !(ts[i].value == ts[i + 1].value) {
      ResolveShrinks(ts, i + 1, slot + 1, t);
    }
  }

  /** Without merges the result is as long as the scanned tiles. */
  lemma {:induction false} ResolveKeepsLength(ts: seq<Tile>, i: nat, slot: nat)
    requires i <= |ts|
    requires forall t :: 0 <= t < |ResolveFrom(ts, i, slot).actions| ==> !ResolveFrom(ts, i, slot).actions[t].isMerge
    ensures |ResolveFrom(ts, i, slot).merged| == |ts| - i
    decreases |ts| - i
  {
    if i < |ts| {
      var a := ResolveFrom(ts, i, slot).actions;
      assert !a[0].isMerge;
      var rest := ResolveFrom(ts, i + 1, slot + 1).actions;
      assert a == a[..1] + rest;
      forall t | 0 <= t < |rest| ensures !rest[t].isMerge {
        assert rest[t] == a[t + 1];
      }
      ResolveKeepsLength(ts, i + 1, slot + 1);
    }
  }

  /** When no two neighbours are equal, each tile is copied to the next slot and nothing is won. */
  lemma {:induction false} ResolveCopies(ts: seq<Tile>, i: nat, slot: nat)
    requires i <= |ts| && DistinctNeighbours(ts, i)
    ensures var r := ResolveFrom(ts, i, slot);
      && r.merged == Values(ts)[i..] && r.score == 0
      && forall t :: 0 <= t < |r.actions| ==> !r.actions[t].isMerge && r.actions[t].to == slot + t
    decreases |ts| - i
  {
    var r := ResolveFrom(ts, i, slot);
    if i == |ts| {
      assert Values(ts)[i..] == [];
    } else {
      var rest := ResolveFrom(ts, i + 1, slot + 1);
      ResolveCopies(ts, i + 1, slot + 1);
      assert Values(ts)[i..] == [ts[i].value] + Values(ts)[i + 1..];
      forall t | 0 <= t < |r.actions|
        ensures !r.actions[t].isMerge && r.actions[t].to == slot + t
      {
        if t > 0 {
          assert r.actions[t] == rest.actions[t - 1];
        }
      }
    }
  }

  // ---------------------------------------------------------------------------
  // Properties of one resolved line
  // ---------------------------------------------------------------------------

  /** Dropping the empty cells keeps the total value. */
  lemma {:induction false} NonEmptyTilesSum(line: seq<nat>)
    ensures Sum(Values(NonEmptyTiles(line))) == Sum(line)
  {
    if |line| > 0 {
      var last := |line| - 1;
      var prev := NonEmptyTiles(line[..last]);
      NonEmptyTilesSum(line[..last]);
      assert line == line[..last] + [line[last]];
      SumConcat(line[..last], [line[last]]);
      assert Sum([line[last]]) == line[last] by { assert [line[last]][1..] == []; }
      if line[last] != 0 {
        assert Values(NonEmptyTiles(line)) == Values(prev) + [line[last]];
        SumConcat(Values(prev), [line[last]]);
      }
    }
  }

  /** A line without empty cells counts all its cells. */
  lemma {:induction false} CountFull(s: seq<nat>)
    requires forall p :: 0 <= p < |s| ==> s[p] != 0
    ensures Count(s) == |s|
  {
    if |s| > 0 {
      CountFull(s[..|s| - 1]);
    }
  }

  /** Padding adds only empty cells. */
  lemma PadKeeps(s: seq<nat>)
    ensures Sum(Pad(s)) == Sum(s) && Count(Pad(s)) == Count(s)
  {
    if |s| < 4 {
      SumConcat(s, Zeros(4 - |s|));
      CountConcat(s, Zeros(4 - |s|));
      SumZeros(4 - |s|);
    }
  }

  /** A line without empty cells, padded, is packed. */
  lemma PadPacked(s: seq<nat>)
    requires forall p :: 0 <= p < |s| ==> s[p] != 0
    ensures Packed(Pad(s))
  {
    var r := Pad(s);
    forall p, q | 0 <= p < q < |r| && r[p] == 0 ensures r[q] == 0 {
      assert p >= |s|;
    }
  }

  /**
   * mergeTiles packs the line: its tiles come first, then the empty cells,
   * and it never holds more tiles than the input line.
   */
  lemma MergeLinePacked(tiles: seq<nat>)
    ensures Packed(MergeLine(tiles).merged)
    ensures Count(MergeLine(tiles).merged) == |ResolveFrom(NonEmptyTiles(tiles), 0, 0).merged| <= Count(tiles)
  {
    var ts := NonEmptyTiles(tiles);
    var res := ResolveFrom(ts, 0, 0);
    ResolveNonEmpty(ts, 0, 0);
    assert forall p :: 0 <= p < |res.merged| ==> res.merged[p] != 0;
    PadPacked(res.merged);
    PadKeeps(res.merged);
    CountFull(res.merged);
  }

  /**
   * mergeTiles conserves the total tile value, and the points it awards are
   * the pre-merge values of the merging tiles (twice the value of each pair).
   */
  lemma MergeLineConserves(tiles: seq<nat>)
    ensures Sum(MergeLine(tiles).merged) == Sum(tiles)
    ensures MergeLine(tiles).score == MergeSum(MergeLine(tiles).actions)
  {
    var ts := NonEmptyTiles(tiles);
    var res := ResolveFrom(ts, 0, 0);
    ResolveSum(ts, 0, 0);
    assert Values(ts)[0..] == Values(ts);
    NonEmptyTilesSum(tiles);
    PadKeeps(res.merged);
    ResolveScore(ts, 0, 0);
  }

  /**
   * Every tile of the line has an action; each action's destination cell
   * holds its value, doubled when it merges; destinations are ordered and
   * merges come in adjacent pairs.
   */
  lemma MergeLineActions(tiles: seq<nat>)
    ensures var r := MergeLine(tiles);
      forall p :: 0 <= p < |tiles| && tiles[p] != 0 ==> exists t :: 0 <= t < |r.actions| && r.actions[t].from == p
    ensures var r := MergeLine(tiles);
      forall t :: 0 <= t < |r.actions| ==>
        && r.actions[t].to < |r.merged|
        && r.merged[r.actions[t].to] == if r.actions[t].isMerge then 2 * r.actions[t].value else r.actions[t].value
    ensures Ordered(MergeLine(tiles).actions) && MergePairs(MergeLine(tiles).actions)
  {
    var r := MergeLine(tiles);
    var ts := NonEmptyTiles(tiles);
    var res := ResolveFrom(ts, 0, 0);
    forall p | 0 <= p < |tiles| && tiles[p] != 0
      ensures exists t :: 0 <= t < |r.actions| && r.actions[t].from == p
    {
      NonEmptyTilesCover(tiles, p);
      var t :| 0 <= t < |ts| && ts[t].originalIndex == p;
      assert r.actions[t].from == p;
    }
    forall t | 0 <= t < |r.actions|
      ensures r.actions[t].to < |r.merged|
      ensures r.merged[r.actions[t].to] == if r.actions[t].isMerge then 2 * r.actions[t].value else r.actions[t].value
    {
      ResolveDestinationValue(ts, 0, 0, t);
      assert r.merged[r.actions[t].to] == r.merged[..|res.merged|][r.actions[t].to];
    }
    ResolveDestinations(ts, 0, 0);
  }

  /** A line without tiles yields no actions, no points and an empty line. */
  lemma MergeLineEmpty(tiles: seq<nat>)
    requires Count(tiles) == 0
    ensures MergeLine(tiles).actions == [] && MergeLine(tiles).score == 0
    ensures forall p :: 0 <= p < |MergeLine(tiles).merged| ==> MergeLine(tiles).merged[p] == 0
  {
  }

  /**
   * In a packed line the k-th tile sits in cell k, and exactly the cells
   * before the tile count are non-empty.
   */
  lemma {:induction false} PackedTiles(line: seq<nat>)
    requires Packed(line)
    ensures forall t :: 0 <= t < |NonEmptyTiles(line)| ==> NonEmptyTiles(line)[t].originalIndex == t
    ensures forall p :: 0 <= p < |line| ==> (line[p] != 0 <==> p < |NonEmptyTiles(line)|)
  {
    if |line| > 0 {
      var last := |line| - 1;
      var prev := NonEmptyTiles(line[..last]);
      assert Packed(line[..last]) by {
        forall p, q | 0 <= p < q < last && line[..last][p] == 0 ensures line[..last][q] == 0 {
          assert line[p] == 0;
        }
      }
      PackedTiles(line[..last]);
      if line[last] == 0 {
        forall p | 0 <= p < last ensures line[p] != 0 <==> p < |prev| {
          assert line[..last][p] == line[p];
        }
      }
    }
  }

  /**
   * A line merges nothing exactly when no two of its consecutive tiles are
   * equal, exactly when it keeps all its tiles; then it awards no points and
   * the k-th tile moves to cell k.
   */
  lemma MergeLineNoMerge(tiles: seq<nat>)
    ensures var ts := NonEmptyTiles(tiles);
      DistinctNeighbours(ts, 0) <==> forall t :: 0 <= t < |MergeLine(tiles).actions| ==> !MergeLine(tiles).actions[t].isMerge
    ensures DistinctNeighbours(NonEmptyTiles(tiles), 0) <==> Count(MergeLine(tiles).merged) == Count(tiles)
    ensures DistinctNeighbours(NonEmptyTiles(tiles), 0) ==>
      && MergeLine(tiles).score == 0
      && MergeLine(tiles).merged == Pad(Values(NonEmptyTiles(tiles)))
      && forall t :: 0 <= t < |MergeLine(tiles).actions| ==> MergeLine(tiles).actions[t].to == t
  {
    var ts := NonEmptyTiles(tiles);
    var res := ResolveFrom(ts, 0, 0);
    MergeLinePacked(tiles);
    if DistinctNeighbours(ts, 0) {
      ResolveCopies(ts, 0, 0);
      assert Values(ts)[0..] == Values(ts);
    } else {
      var t :| 0 <= t < |ts| - 1 && ts[t].value == ts[t + 1].value;
      ResolveShrinks(ts, 0, 0, t);
      if forall u :: 0 <= u < |res.actions| ==> !res.actions[u].isMerge {
        ResolveKeepsLength(ts, 0, 0);
        assert false;
      }
    }
  }

  /** A packed line of four cells without equal neighbours is left unchanged. */
  lemma MergeLineSettledFixed(tiles: seq<nat>)
    requires |tiles| == 4 && Packed(tiles) && NoEqualNeighbours(tiles)
    ensures MergeLine(tiles).merged == tiles
  {
    var r := MergeLine(tiles);
    var ts := NonEmptyTiles(tiles);
    PackedTiles(tiles);
    var k := |ts|;
    assert DistinctNeighbours(ts, 0) by {
      forall t | 0 <= t < |ts| - 1 ensures ts[t].value != ts[t + 1].value {
        assert ts[t].originalIndex == t && ts[t + 1].originalIndex == t + 1;
      }
    }
    ResolveCopies(ts, 0, 0);
    assert Values(ts)[0..] == Values(ts) == tiles[..k];
    assert r.merged == tiles[..k] + Zeros(4 - k);
  }

  /**
   * A line of four cells that mergeTiles leaves unchanged is packed, has no
   * equal neighbours, wins no points, and every action keeps its tile in place.
   */
  lemma MergeLineFixedSettled(tiles: seq<nat>)
    requires |tiles| == 4 && MergeLine(tiles).merged == tiles
    ensures Packed(tiles) && NoEqualNeighbours(tiles)
    ensures MergeLine(tiles).score == 0
    ensures forall t :: 0 <= t < |MergeLine(tiles).actions| ==>
      !MergeLine(tiles).actions[t].isMerge && MergeLine(tiles).actions[t].from == MergeLine(tiles).actions[t].to
  {
    var r := MergeLine(tiles);
    var ts := NonEmptyTiles(tiles);
    MergeLinePacked(tiles);
    MergeLineNoMerge(tiles);
    PackedTiles(tiles);
    forall p | 0 <= p < 3 && tiles[p] != 0 ensures tiles[p] != tiles[p + 1] {
      assert ts[p].originalIndex == p;
      if tiles[p + 1] != 0 {
        assert ts[p + 1].originalIndex == p + 1;
      }
    }
    forall t | 0 <= t < |r.actions|
      ensures !r.actions[t].isMerge && r.actions[t].from == r.actions[t].to
    {
      assert r.actions[t].from == ts[t].originalIndex;
    }
  }

  /**
   * A line of four cells is left unchanged by mergeTiles exactly when it is
   * packed and no tile equals its right neighbour; an unchanged line awards
   * no points and every action keeps its tile in place.
   */
  lemma MergeLineFixedIff(tiles: seq<nat>)
    requires |tiles| == 4
    ensures MergeLine(tiles).merged == tiles <==> Packed(tiles) && NoEqualNeighbours(tiles)
    ensures MergeLine(tiles).merged == tiles ==>
      && MergeLine(tiles).score == 0
      && forall t :: 0 <= t < |MergeLine(tiles).actions| ==>
        !MergeLine(tiles).actions[t].isMerge && MergeLine(tiles).actions[t].from == MergeLine(tiles).actions[t].to
  {
    if Packed(tiles) && NoEqualNeighbours(tiles) {
      MergeLineSettledFixed(tiles);
    }
    if MergeLine(tiles).merged == tiles {
      MergeLineFixedSettled(tiles);
    }
  }

  /** Two equal tiles at the start of a line merge into the first cell. */
  lemma MergeLinePairExample()
    ensures MergeLine([2, 2, 0, 0]) ==
      LineResult([4, 0, 0, 0], 4, [Action(0, 0, 2, true), Action(1, 0, 2, true)])
  {
    assert NonEmptyTiles([2, 2, 0, 0]) == [Tile(2, 0), Tile(2, 1)] by {
      assert [2, 2, 0, 0][..3] == [2, 2, 0];
      assert [2, 2, 0][..2] == [2, 2];
      assert [2, 2][..1] == [2];
      assert [2][..0] == [];
    }
  }

  /** Four equal tiles make two merged tiles, not one: no tile merges twice. */
  lemma MergeLineOncePerMoveExample()
    ensures MergeLine([2, 2, 2, 2]) ==
      LineResult([4, 4, 0, 0], 8, [Action(0, 0, 2, true), Action(1, 0, 2, true), Action(2, 1, 2, true), Action(3, 1, 2, true)])
  {
    assert NonEmptyTiles([2, 2, 2, 2]) == [Tile(2, 0), Tile(2, 1), Tile(2, 2), Tile(2, 3)] by {
      assert [2, 2, 2, 2][..3] == [2, 2, 2];
      assert [2, 2, 2][..2] == [2, 2];
      assert [2, 2][..1] == [2];
      assert [2][..0] == [];
    }
  }

  /** Alternating values do not merge and stay in place. */
  lemma MergeLineDistinctExample()
    ensures MergeLine([2, 4, 2, 4]) ==
      LineResult([2, 4, 2, 4], 0, [Action(0, 0, 2, false), Action(1, 1, 4, false), Action(2, 2, 2, false), Action(3, 3, 4, false)])
  {
    assert NonEmptyTiles([2, 4, 2, 4]) == [Tile(2, 0), Tile(4, 1), Tile(2, 2), Tile(4, 3)] by {
      assert [2, 4, 2, 4][..3] == [2, 4, 2];
      assert [2, 4, 2][..2] == [2, 4];
      assert [2, 4][..1] == [2];
      assert [2][..0] == [];
    }
  }

  /** Tiles slide past empty cells before merging. */
  lemma MergeLineSlideExample()
    ensures MergeLine([0, 0, 2, 2]) ==
      LineResult([4, 0, 0, 0], 4, [Action(2, 0, 2, true), Action(3, 0, 2, true)])
  {
    assert NonEmptyTiles([0, 0, 2, 2]) == [Tile(2, 2), Tile(2, 3)] by {
      assert [0, 0, 2, 2][..3] == [0, 0, 2];
      assert [0, 0, 2][..2] == [0, 0];
      assert [0, 0][..1] == [0];
      assert [0][..0] == [];
    }
  }

  /** A pair at the end of the line merges behind the tiles before it. */
  lemma MergeLineTrailingPairExample()
    ensures MergeLine([2, 4, 2, 2]) ==
      LineResult([2, 4, 4, 0], 4, [Action(0, 0, 2, false), Action(1, 1, 4, false), Action(2, 2, 2, true), Action(3, 2, 2, true)])
  {
    assert NonEmptyTiles([2, 4, 2, 2]) == [Tile(2, 0), Tile(4, 1), Tile(2, 2), Tile(2, 3)] by {
      assert [2, 4, 2, 2][..3] == [2, 4, 2];
      assert [2, 4, 2][..2] == [2, 4];
      assert [2, 4][..1] == [2];
      assert [2][..0] == [];
    }
  }
}
