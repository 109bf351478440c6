/**
 * Nearest-next ordering, as used both by the planner (distance only, ties to the earlier place) and by
 * the editor (squared distance, ties to the smaller id).  `before(o, a, b)` says that the key of `a` is
 * strictly smaller than the key of `b` when the stop after `o` is chosen.
 */
module GreedyRoute {
  import opened Sequences

  ghost predicate Ranking<T(!new)>(before: (T, T, T) -> bool) {
    && (forall o, a, b :: before(o, a, b) ==> !before(o, b, a))
    && (forall o, a, b, c :: before(o, a, c) ==> before(o, a, b) || before(o, b, c))
  }

  /** No two different stops tie. */
  ghost predicate Tieless<T(!new)>(before: (T, T, T) -> bool) {
    forall o, a, b :: a != b ==> before(o, a, b) || before(o, b, a)
  }

  /** Each stop is followed by a nearest one among all the stops still to come. */
  ghost predicate NearestChain<T>(before: (T, T, T) -> bool, stops: seq<T>) {
    forall i, j :: 0 <= i < j < |stops| ==> !before(stops[i], stops[j], stops[i + 1])
  }

  /** Python's `min`: the position of the first element with the smallest key. */
  function FirstBest<T(!new)>(before: (T, T, T) -> bool, o: T, s: seq<T>): (k: nat)
    requires s != []
    ensures k < |s|
    ensures Ranking(before) ==> forall j :: 0 <= j < |s| ==> !before(o, s[j], s[k])
    ensures Ranking(before) ==> forall j :: 0 <= j < k ==> before(o, s[k], s[j])
  {
    if |s| == 1 then 0
    else
      var last := |s| - 1;
      var j := FirstBest(before, o, s[..last]);
      if before(o, s[last], s[j]) then last else j
  }

  function Extend<T(!new)>(before: (T, T, T) -> bool, last: T, remaining: seq<T>): (r: seq<T>)
    ensures |r| == |remaining|
    decreases |remaining|
  {
    if remaining == [] then []
    else
      var k := FirstBest(before, last, remaining);
      [remaining[k]] + Extend(before, remaining[k], RemoveAt(remaining, k))
  }

  function Greedy<T(!new)>(before: (T, T, T) -> bool, places: seq<T>): (r: seq<T>)
    ensures |r| == |places|
  {
    if places == [] then [] else [places[0]] + Extend(before, places[0], places[1..])
  }

  /** One turn of the loop: the first best stop is taken out of the list. */
  lemma ExtendTurn<T(!new)>(before: (T, T, T) -> bool, last: T, remaining: seq<T>)
    requires Ranking(before) && remaining != []
    ensures var next := remaining[FirstBest(before, last, remaining)]; var rest := RemoveFirst(remaining, next);
      |rest| < |remaining| && Extend(before, last, remaining) == [next] + Extend(before, next, rest)
  {
    var k := FirstBest(before, last, remaining);
    RemoveFirstAt(remaining, k);
  }

  lemma MoveOver<T>(s: seq<T>, x: T, t: seq<T>)
    ensures s + ([x] + t) == (s + [x]) + t && (s + [x])[|s + [x]| - 1] == x
  {
  }

  lemma NothingToExtend<T(!new)>(before: (T, T, T) -> bool, ordered: seq<T>)
    requires ordered != []
    ensures ordered + Extend(before, ordered[|ordered| - 1], []) == ordered
  {
  }

  /** The loop both orderings share: repeatedly move the first best remaining stop to the end. */
  method NearestNext<T(==, !new)>(before: (T, T, T) -> bool, places: seq<T>) returns (ordered: seq<T>)
    requires Ranking(before)
    requires places != []
    ensures ordered == Greedy(before, places)
  {
    var remaining := places[1..];
    ordered := [places[0]];
    hide Greedy, Extend, Ranking;
    while remaining != []
      invariant ordered != []
      invariant Greedy(before, places) == ordered + Extend(before, ordered[|ordered| - 1], remaining)
      decreases |remaining|
    {
      var last := ordered[|ordered| - 1];
      var next := remaining[FirstBest(before, last, remaining)];
      ExtendTurn(before, last, remaining);
      MoveOver(ordered, next, Extend(before, next, RemoveFirst(remaining, next)));
      remaining := RemoveFirst(remaining, next);
      ordered := ordered + [next];
    }
    NothingToExtend(before, ordered);
  }

  lemma {:induction false} ExtendPermutes<T(!new)>(before: (T, T, T) -> bool, last: T, remaining: seq<T>)
    ensures multiset(Extend(before, last, remaining)) == multiset(remaining)
    decreases |remaining|
  {
    if remaining != [] {
      var k := FirstBest(before, last, remaining);
      ExtendPermutes(before, remaining[k], RemoveAt(remaining, k));
      RemoveAtMultiset(remaining, k);
    }
  }

  lemma GreedyPermutes<T(!new)>(before: (T, T, T) -> bool, places: seq<T>)
    ensures multiset(Greedy(before, places)) == multiset(places)
    ensures places != [] ==> Greedy(before, places)[0] == places[0]
  {
    if places != [] {
      ExtendPermutes(before, places[0], places[1..]);
      assert places == [places[0]] + places[1..];
    }
  }

  lemma {:induction false} ExtendIsNearest<T(!new)>(before: (T, T, T) -> bool, last: T, remaining: seq<T>)
    requires Ranking(before)
    ensures NearestChain(before, [last] + Extend(before, last, remaining))
    decreases |remaining|
  {
    if remaining != [] {
      var k := FirstBest(before, last, remaining);
      var rest := RemoveAt(remaining, k);
      var tail := [remaining[k]] + Extend(before, remaining[k], rest);
      ExtendIsNearest(before, remaining[k], rest);
      ExtendPermutes(before, last, remaining);
      forall i, j | 0 <= i < j < |[last] + tail|
        ensures !before(([last] + tail)[i], ([last] + tail)[j], ([last] + tail)[i + 1])
      {
        if i == 0 {
          assert tail[j - 1] in multiset(tail);
          assert tail[j - 1] in remaining;
        } else {
          assert ([last] + tail)[i + 1] == tail[i];
        }
      }
    }
  }

  lemma NearestIsFirst<T(!new)>(before: (T, T, T) -> bool, last: T, remaining: seq<T>)
    requires Ranking(before) && NearestChain(before, [last] + remaining) && remaining != []
    ensures FirstBest(before, last, remaining) == 0
  {
    var chain, k := [last] + remaining, FirstBest(before, last, remaining);
    assert !before(chain[0], chain[k + 1], chain[1]);
  }

  lemma ChainGoesOn<T(!new)>(before: (T, T, T) -> bool, last: T, remaining: seq<T>)
    requires NearestChain(before, [last] + remaining)
    ensures NearestChain(before, remaining)
  {
    var chain := [last] + remaining;
    forall i, j | 0 <= i < j < |remaining| ensures !before(remaining[i], remaining[j], remaining[i + 1]) {
      assert !before(chain[i + 1], chain[j + 1], chain[i + 2]);
    }
  }

  lemma {:induction false} NearestIsFixed<T(!new)>(before: (T, T, T) -> bool, last: T, remaining: seq<T>)
    requires Ranking(before) && NearestChain(before, [last] + remaining)
    ensures Extend(before, last, remaining) == remaining
    decreases |remaining|
  {
    hide Ranking, NearestChain, FirstBest;
    if remaining != [] {
      NearestIsFirst(before, last, remaining);
      assert RemoveAt(remaining, 0) == remaining[1..];
      assert [remaining[0]] + remaining[1..] == remaining;
      ChainGoesOn(before, last, remaining);
      NearestIsFixed(before, remaining[0], remaining[1..]);
    }
  }

  lemma GreedyIsNearest<T(!new)>(before: (T, T, T) -> bool, places: seq<T>)
    requires Ranking(before)
    ensures NearestChain(before, Greedy(before, places))
  {
    if places != [] {
      ExtendIsNearest(before, places[0], places[1..]);
    }
  }

  /** Running the ordering on its own result changes nothing. */
  lemma GreedyIsIdempotent<T(!new)>(before: (T, T, T) -> bool, places: seq<T>)
    requires Ranking(before)
    ensures Greedy(before, Greedy(before, places)) == Greedy(before, places)
  {
    if places != [] {
      var r := Greedy(before, places);
      GreedyIsNearest(before, places);
      assert r == [r[0]] + r[1..];
      NearestIsFixed(before, r[0], r[1..]);
    }
  }

  /** With a tie-break, only the set of remaining stops matters, not the order they are listed in. */
  lemma {:induction false} ExtendIgnoresOrder<T(!new)>(
    before: (T, T, T) -> bool, last: T, r1: seq<T>, r2: seq<T>)
    requires Ranking(before) && Tieless(before)
    requires multiset(r1) == multiset(r2)
    ensures Extend(before, last, r1) == Extend(before, last, r2)
    decreases |r1|
  {
    assert |r1| == |multiset(r1)| == |r2|;
    if r1 != [] {
      var k1, k2 := FirstBest(before, last, r1), FirstBest(before, last, r2);
      assert r1[k1] in multiset(r1) && r2[k2] in multiset(r2);
      assert r1[k1] in r2 && r2[k2] in r1;
      assert r1[k1] == r2[k2];
      RemoveAtMultiset(r1, k1);
      RemoveAtMultiset(r2, k2);
      ExtendIgnoresOrder(before, r1[k1], RemoveAt(r1, k1), RemoveAt(r2, k2));
    }
  }
}
