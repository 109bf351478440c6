/**
 * The planner's ordering of one day: nearest neighbour, then a bounded 2-opt.  `d` is the approximate
 * distance in metres between two places, an abstract real function.
 */
module Optimizer {
  import opened GreedyRoute

  ghost predicate IsDistance<T(!new)>(d: (T, T) -> real) {
    forall a, b :: d(a, b) >= 0.0 && d(a, b) == d(b, a)
  }

  function Nearer<T>(d: (T, T) -> real): (T, T, T) -> bool {
    (o, a, b) => d(o, a) < d(o, b)
  }

  method NearestNeighbor<T(==, !new)>(d: (T, T) -> real, places: seq<T>) returns (ordered: seq<T>)
    ensures ordered == Greedy(Nearer(d), places)
  {
    if |places| < 2 {
      return places;
    }
    ordered := NearestNext(Nearer(d), places);
  }

  function RouteLength<T>(d: (T, T) -> real, stops: seq<T>): real {
    if |stops| < 2 then 0.0 else d(stops[0], stops[1]) + RouteLength(d, stops[1..])
  }

  function Reversed<T>(s: seq<T>): (r: seq<T>)
    ensures |r| == |s|
    ensures forall k :: 0 <= k < |s| ==> r[k] == s[|s| - 1 - k]
  {
    if s == [] then [] else Reversed(s[1..]) + [s[0]]
  }

  /** The route with the stops from `start` to `end`, both included, visited in the opposite order. */
  function Flip<T>(stops: seq<T>, start: nat, end: nat): (r: seq<T>)
    requires start <= end < |stops|
    ensures |r| == |stops|
  {
    stops[..start] + Reversed(stops[start..end + 1]) + stops[end + 1..]
  }

  lemma {:induction false} LengthConcat<T>(d: (T, T) -> real, s: seq<T>, t: seq<T>)
    requires s != [] && t != []
    ensures RouteLength(d, s + t) == RouteLength(d, s) + d(s[|s| - 1], t[0]) + RouteLength(d, t)
  {
    if |s| == 1 {
      assert (s + t)[1..] == t;
    } else {
      assert (s + t)[1..] == s[1..] + t;
      LengthConcat(d, s[1..], t);
    }
  }

  lemma LengthOfParts<T>(d: (T, T) -> real, head: seq<T>, middle: seq<T>, tail: seq<T>)
    requires head != [] && middle != []
    ensures RouteLength(d, head + middle + tail)
         == RouteLength(d, head) + d(head[|head| - 1], middle[0]) + RouteLength(d, middle)
            + if tail == [] then 0.0 else d(middle[|middle| - 1], tail[0]) + RouteLength(d, tail)
  {
    LengthConcat(d, head, middle);
    if tail == [] {
      assert head + middle + tail == head + middle;
    } else {
      LengthConcat(d, head + middle, tail);
    }
  }

  lemma {:induction false} LengthReversed<T(!new)>(d: (T, T) -> real, s: seq<T>)
    requires IsDistance(d)
    ensures RouteLength(d, Reversed(s)) == RouteLength(d, s)
  {
    if |s| >= 2 {
      LengthReversed(d, s[1..]);
      LengthConcat(d, Reversed(s[1..]), [s[0]]);
    }
  }

  lemma {:induction false} LengthNonNegative<T(!new)>(d: (T, T) -> real, s: seq<T>)
    requires IsDistance(d)
    ensures RouteLength(d, s) >= 0.0
  {
    if |s| >= 2 {
      LengthNonNegative(d, s[1..]);
    }
  }

  lemma {:induction false} ReversedMultiset<T>(s: seq<T>)
    ensures multiset(Reversed(s)) == multiset(s)
  {
    if s != [] {
      ReversedMultiset(s[1..]);
      assert s == [s[0]] + s[1..];
    }
  }

  lemma FlipPermutes<T>(stops: seq<T>, start: nat, end: nat)
    requires start <= end < |stops|
    ensures multiset(Flip(stops, start, end)) == multiset(stops)
    ensures start > 0 ==> Flip(stops, start, end)[0] == stops[0]
  {
    ReversedMultiset(stops[start..end + 1]);
    assert stops == stops[..start] + stops[start..end + 1] + stops[end + 1..];
  }

  lemma TurnedMiddle<T(!new)>(d: (T, T) -> real, head: seq<T>, middle: seq<T>, tail: seq<T>)
    requires IsDistance(d)
    requires head != [] && middle != []
    ensures RouteLength(d, head + Reversed(middle) + tail) - RouteLength(d, head + middle + tail)
         == d(head[|head| - 1], middle[|middle| - 1]) - d(head[|head| - 1], middle[0])
            + if tail == [] then 0.0 else d(middle[0], tail[0]) - d(middle[|middle| - 1], tail[0])
  {
    LengthReversed(d, middle);
    LengthOfParts(d, head, middle, tail);
    LengthOfParts(d, head, Reversed(middle), tail);
  }

  /** What one flip gains: a flip replaces its two boundary edges and keeps every other edge. */
  function FlipGain<T>(d: (T, T) -> real, stops: seq<T>, start: nat, end: nat): real
    requires 1 <= start <= end < |stops|
  {
    d(stops[start - 1], stops[start]) - d(stops[start - 1], stops[end])
    + if end + 1 < |stops| then d(stops[end], stops[end + 1]) - d(stops[start], stops[end + 1]) else 0.0
  }

  /** The gain in terms of the three parts of the route. */
  lemma GainOfParts<T(!new)>(d: (T, T) -> real, stops: seq<T>, start: nat, end: nat)
    requires IsDistance(d)
    requires 1 <= start <= end < |stops|
    ensures var head, middle, tail := stops[..start], stops[start..end + 1], stops[end + 1..];
      -FlipGain(d, stops, start, end) == d(head[|head| - 1], middle[|middle| - 1]) - d(head[|head| - 1], middle[0])
            + if tail == [] then 0.0 else d(middle[0], tail[0]) - d(middle[|middle| - 1], tail[0])
  {
    SliceEnds(stops, start, end);
  }

  /** Flipping a slice changes the length by its two boundary edges only. */
  lemma FlipChangesTwoEdges<T(!new)>(d: (T, T) -> real, stops: seq<T>, start: nat, end: nat)
    requires IsDistance(d)
    requires 1 <= start <= end < |stops|
    ensures RouteLength(d, Flip(stops, start, end)) == RouteLength(d, stops) - FlipGain(d, stops, start, end)
  {
    assert Flip(stops, start, end) == stops[..start] + Reversed(stops[start..end + 1]) + stops[end + 1..];
    hide *;
    SliceParts(stops, start, end);
    GainOfParts(d, stops, start, end);
    TurnedMiddle(d, stops[..start], stops[start..end + 1], stops[end + 1..]);
  }

  lemma SliceParts<T>(stops: seq<T>, start: nat, end: nat)
    requires 1 <= start <= end < |stops|
    ensures stops == stops[..start] + stops[start..end + 1] + stops[end + 1..]
  {
  }

  lemma SliceEnds<T>(stops: seq<T>, start: nat, end: nat)
    requires 1 <= start <= end < |stops|
    ensures stops[..start][start - 1] == stops[start - 1]
    ensures stops[start..end + 1][0] == stops[start] && stops[start..end + 1][end - start] == stops[end]
    ensures if end + 1 < |stops| then stops[end + 1..] != [] && stops[end + 1..][0] == stops[end + 1]
            else stops[end + 1..] == []
  {
  }

  /** No single flip of a slice after the first stop gains more than one metre. */
  ghost predicate LocallyShortest<T>(d: (T, T) -> real, stops: seq<T>) {
    forall start: nat, end: nat :: 1 <= start < end < |stops| ==> FlipGain(d, stops, start, end) <= 1.0
  }

  /** What trying the flips (`start`, `end`), (`start`, `end` + 1), ... makes of a route. */
  function FlipEnds<T>(d: (T, T) -> real, best: seq<T>, start: nat, end: nat): (r: seq<T>)
    requires start <= end <= |best|
    ensures |r| == |best|
    decreases |best| - end
  {
    if end == |best| then best
    else
      var candidate := Flip(best, start, end);
      FlipEnds(d, if RouteLength(d, candidate) + 1.0 < RouteLength(d, best) then candidate else best, start, end + 1)
  }

  /** One pass, from the given start on. */
  function PassFrom<T>(d: (T, T) -> real, best: seq<T>, start: nat): (r: seq<T>)
    ensures |r| == |best|
    decreases |best| - start
  {
    if start >= |best| - 1 then best else PassFrom(d, FlipEnds(d, best, start, start + 1), start + 1)
  }

  function Passes<T>(d: (T, T) -> real, best: seq<T>, n: nat): seq<T>
    decreases n
  {
    if n == 0 then best else Passes(d, PassFrom(d, best, 1), n - 1)
  }

  /** A pass that changes nothing ends the search: further passes would change nothing either. */
  lemma {:induction false} PassesSettle<T>(d: (T, T) -> real, best: seq<T>, n: nat)
    requires PassFrom(d, best, 1) == best
    ensures Passes(d, best, n) == best
  {
    if n > 0 {
      PassesSettle(d, best, n - 1);
    }
  }

  /**
   * 2-opt with at most `maximumPasses` passes (4 in the planner).  `moves` counts the accepted flips and
   * `settled` says whether the last pass accepted none, so that the loop was left by its `break`.
   */
  method LimitedTwoOpt<T(==, !new)>(d: (T, T) -> real, places: seq<T>, maximumPasses: nat)
    returns (best: seq<T>, moves: nat, settled: bool)
    requires IsDistance(d)
    ensures best == Passes(d, places, maximumPasses)
    ensures multiset(best) == multiset(places)
    ensures places != [] ==> best[0] == places[0]
    ensures RouteLength(d, best) + moves as real <= RouteLength(d, places)
    ensures moves > 0 ==> moves as real < RouteLength(d, places)
    ensures moves == 0 ==> best == places
    ensures settled ==> LocallyShortest(d, best)
    ensures !settled && maximumPasses > 0 ==> moves >= maximumPasses
  {
    best, moves, settled := places, 0, false;
    var bestLength := RouteLength(d, best);
    for pass := 0 to maximumPasses
      invariant Improving(d, places, best, bestLength, moves)
      invariant moves >= pass
      invariant !settled
      invariant Passes(d, best, maximumPasses - pass) == Passes(d, places, maximumPasses)
    {
      ghost var was := best;
      var improved;
      best, bestLength, moves, improved := OnePass(d, places, best, bestLength, moves);
      if !improved {
        PassesSettle(d, best, maximumPasses - pass);
        settled := true;
        break;
      }
    }
    LengthNonNegative(d, best);
  }

  /** The two inner loops: one pass over all slices after the first stop. */
  method OnePass<T(==, !new)>(d: (T, T) -> real, ghost places: seq<T>, was: seq<T>, wasLength: real, count: nat)
    returns (best: seq<T>, bestLength: real, moves: nat, improved: bool)
    requires IsDistance(d) && Improving(d, places, was, wasLength, count)
    ensures Improving(d, places, best, bestLength, moves)
    ensures best == PassFrom(d, was, 1)
    ensures if improved then moves > count else moves == count && best == was && LocallyShortest(d, best)
  {
    best, bestLength, moves, improved := was, wasLength, count, false;
    var start := 1;
    while start < |best| - 1
      invariant 1 <= start
      invariant Passing(d, places, best, bestLength, moves, improved, count, was, start, PassFrom(d, was, 1))
    {
      best, bestLength, moves, improved :=
        TryFlips(d, places, best, bestLength, moves, improved, count, was, start, PassFrom(d, was, 1));
      start := start + 1;
    }
  }

  method TryFlips<T(==, !new)>(
    d: (T, T) -> real, ghost places: seq<T>, from: seq<T>, fromLength: real, fromMoves: nat, fromImproved: bool,
    ghost count: nat, ghost was: seq<T>, start: nat, ghost after: seq<T>)
    returns (best: seq<T>, bestLength: real, moves: nat, improved: bool)
    requires IsDistance(d) && 1 <= start < |from| - 1
    requires Passing(d, places, from, fromLength, fromMoves, fromImproved, count, was, start, after)
    ensures Passing(d, places, best, bestLength, moves, improved, count, was, start + 1, after)
  {
    best, bestLength, moves, improved := from, fromLength, fromMoves, fromImproved;
    FirstFlip(d, places, best, bestLength, moves, improved, count, was, start, after);
    for end := start + 1 to |from|
      invariant |best| == |from|
      invariant Trying(d, places, best, bestLength, moves, improved, count, was, start, end, after)
    {
      var candidate := Flip(best, start, end);
      var candidateLength := RouteLength(d, candidate);
      FlipTried(d, places, best, bestLength, moves, improved, count, was, start, end, after);
      if candidateLength + 1.0 < bestLength {
        best, bestLength, improved, moves := candidate, candidateLength, true, moves + 1;
      }
    }
    LastFlip(d, places, best, bestLength, moves, improved, count, was, start, after);
  }

  /** What every accepted flip maintains. */
  ghost predicate Improving<T(!new)>(
    d: (T, T) -> real, places: seq<T>, best: seq<T>, bestLength: real, moves: nat)
  {
    && |best| == |places| && multiset(best) == multiset(places)
    && (places != [] ==> best[0] == places[0])
    && bestLength == RouteLength(d, best)
    && bestLength + moves as real <= RouteLength(d, places)
    && (moves > 0 ==> bestLength + moves as real < RouteLength(d, places))
    && (moves == 0 ==> best == places)
  }

  /** The flips tried in a pass before the pair (`start`, `end`) gain at most one metre each. */
  ghost predicate NoGainBefore<T>(d: (T, T) -> real, stops: seq<T>, start: nat, end: nat) {
    forall s: nat, e: nat :: 1 <= s < e < |stops| && (s < start || (s == start && e < end)) ==>
      FlipGain(d, stops, s, e) <= 1.0
  }

  /** The pass that began with `was` and ends with `after` has tried all flips before `start`. */
  ghost predicate Passing<T(!new)>(
    d: (T, T) -> real, places: seq<T>, best: seq<T>, bestLength: real, moves: nat, improved: bool, before: nat,
    was: seq<T>, start: nat, after: seq<T>)
  {
    && Improving(d, places, best, bestLength, moves)
    && (if improved then moves > before else moves == before && best == was && NoGainBefore(d, best, start, start + 1))
    && PassFrom(d, best, start) == after
  }

  /** The same, with the flips from `start` to before `end` tried as well. */
  ghost predicate Trying<T(!new)>(
    d: (T, T) -> real, places: seq<T>, best: seq<T>, bestLength: real, moves: nat, improved: bool, before: nat,
    was: seq<T>, start: nat, end: nat, after: seq<T>)
  {
    && Improving(d, places, best, bestLength, moves)
    && (if improved then moves > before else moves == before && best == was && NoGainBefore(d, best, start, end))
    && start <= end <= |best|
    && PassFrom(d, FlipEnds(d, best, start, end), start + 1) == after
  }

  lemma FirstFlip<T(!new)>(
    d: (T, T) -> real, places: seq<T>, best: seq<T>, bestLength: real, moves: nat, improved: bool, before: nat,
    was: seq<T>, start: nat, after: seq<T>)
    requires 1 <= start < |best| - 1 && Passing(d, places, best, bestLength, moves, improved, before, was, start, after)
    ensures Trying(d, places, best, bestLength, moves, improved, before, was, start, start + 1, after)
  {
  }

  lemma LastFlip<T(!new)>(
    d: (T, T) -> real, places: seq<T>, best: seq<T>, bestLength: real, moves: nat, improved: bool, before: nat,
    was: seq<T>, start: nat, after: seq<T>)
    requires 1 <= start && Trying(d, places, best, bestLength, moves, improved, before, was, start, |best|, after)
    ensures Passing(d, places, best, bestLength, moves, improved, before, was, start + 1, after)
  {
  }

  lemma FlipTried<T(!new)>(
    d: (T, T) -> real, places: seq<T>, best: seq<T>, bestLength: real, moves: nat, improved: bool, before: nat,
    was: seq<T>, start: nat, end: nat, after: seq<T>)
    requires IsDistance(d) && 1 <= start < end < |best|
    requires Trying(d, places, best, bestLength, moves, improved, before, was, start, end, after)
    ensures var candidate := Flip(best, start, end);
      var candidateLength := RouteLength(d, candidate);
      if candidateLength + 1.0 < bestLength
      then Trying(d, places, candidate, candidateLength, moves + 1, true, before, was, start, end + 1, after)
      else Trying(d, places, best, bestLength, moves, improved, before, was, start, end + 1, after)
  {
    FlipChangesTwoEdges(d, best, start, end);
    FlipPermutes(best, start, end);
  }
}
