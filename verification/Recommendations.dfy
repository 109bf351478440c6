/** `RecommendationService.recommend`: recall, filtering, grouping, ranking and the two selection passes. */
module Recommendations {
  import opened Wrappers
  import opened Sequences
  import opened Sorting
  import opened TextTools

  datatype Spot = Spot(
    provider: string, id: string, name: string, address: string, district: string, category: string, attraction: bool)

  datatype Strategy = Strategy(
    queries: seq<string>, excludedDistricts: seq<string>, negativeCategories: seq<string>, negativeTexts: seq<string>,
    perCategory: nat, perDistrict: nat)

  datatype Recall = Recall(spot: Spot, query: string)

  /** A distinct place, with the queries that found it. */
  datatype Group = Group(spot: Spot, queries: seq<string>)

  type Key = (string, string)

  function KeyOf(spot: Spot): Key {
    (spot.provider, spot.id)
  }

  const GROUP_KEY: Group -> Key := (g: Group) => KeyOf(g.spot)

  /** The searcher's answer to a query; none when it finds no place. */
  type Searcher = string -> Option<seq<Spot>>

  /** Quality and preference of a group, in points. */
  type Score = Group -> real

  datatype RecommendError = LimitOutOfRange | NothingFound

  // ---- recall ---------------------------------------------------------------------------------

  function Tagged(spots: seq<Spot>, query: string): seq<Recall> {
    Map(spots, (s: Spot) => Recall(s, query))
  }

  function Recalled(queries: seq<string>, search: Searcher): seq<Recall> {
    if queries == [] then []
    else
      var last := queries[|queries| - 1];
      Recalled(queries[..|queries| - 1], search) + Tagged(search(last).GetOr([]), last)
  }

  /** `_hard_filtered`. */
  predicate HardFiltered(s: Spot, strategy: Strategy) {
    || !s.attraction
    || s.category in strategy.negativeCategories
    || s.district in strategy.excludedDistricts
    || exists t :: t in strategy.negativeTexts && t != "" && Contains(s.name + s.address, t)
  }

  predicate Survives(s: Spot, strategy: Strategy, rejected: set<string>) {
    !HardFiltered(s, strategy) && s.id !in rejected
  }

  // ---- grouping -------------------------------------------------------------------------------

  /** The candidate joins the group of its key, or starts one. */
  function Joined(groups: seq<Group>, r: Recall): seq<Group> {
    if groups == [] then [Group(r.spot, [r.query])]
    else if KeyOf(groups[0].spot) == KeyOf(r.spot) then
      [if r.query in groups[0].queries then groups[0] else groups[0].(queries := groups[0].queries + [r.query])]
      + groups[1..]
    else [groups[0]] + Joined(groups[1..], r)
  }

  function Grouped(recalled: seq<Recall>, strategy: Strategy, rejected: set<string>): seq<Group> {
    if recalled == [] then []
    else
      var before := Grouped(recalled[..|recalled| - 1], strategy, rejected);
      var last := recalled[|recalled| - 1];
      if Survives(last.spot, strategy, rejected) then Joined(before, last) else before
  }

  /** The distinct places among the candidates that survive the filters. */
  ghost function SurvivingKeys(recalled: seq<Recall>, strategy: Strategy, rejected: set<string>): set<Key> {
    set r | r in recalled && Survives(r.spot, strategy, rejected) :: KeyOf(r.spot)
  }

  ghost predicate GroupsOf(groups: seq<Group>, recalled: seq<Recall>, strategy: Strategy, rejected: set<string>) {
    && Distinct(Map(groups, GROUP_KEY))
    && (forall key :: key in Map(groups, GROUP_KEY) <==> key in SurvivingKeys(recalled, strategy, rejected))
    && forall g :: g in groups ==> Survives(g.spot, strategy, rejected)
  }

  lemma {:induction false} JoinedKeys(groups: seq<Group>, r: Recall, key: Key)
    ensures key in Map(Joined(groups, r), GROUP_KEY) <==> key in Map(groups, GROUP_KEY) || key == KeyOf(r.spot)
  {
    if groups != [] {
      JoinedKeys(groups[1..], r, key);
    }
  }

  lemma {:induction false} JoinedKeepsDistinct(groups: seq<Group>, r: Recall)
    requires Distinct(Map(groups, GROUP_KEY))
    ensures Distinct(Map(Joined(groups, r), GROUP_KEY))
  {
    if groups != [] {
      var keys := Map(groups, GROUP_KEY);
      assert Map(groups[1..], GROUP_KEY) == keys[1..];
      JoinedKeepsDistinct(groups[1..], r);
      if KeyOf(groups[0].spot) == KeyOf(r.spot) {
        assert Map(Joined(groups, r), GROUP_KEY) == keys;
      } else {
        var tail := Map(Joined(groups[1..], r), GROUP_KEY);
        JoinedKeys(groups[1..], r, keys[0]);
        assert keys[0] !in keys[1..];
        DistinctConcat([keys[0]], tail);
        assert Map(Joined(groups, r), GROUP_KEY) == [keys[0]] + tail;
      }
    }
  }

  lemma {:induction false} JoinedSpots(groups: seq<Group>, r: Recall, g: Group)
    requires g in Joined(groups, r)
    ensures g.spot == r.spot || exists known :: known in groups && known.spot == g.spot
  {
    if groups != [] {
      if g in Joined(groups[1..], r) && KeyOf(groups[0].spot) != KeyOf(r.spot) {
        JoinedSpots(groups[1..], r, g);
      }
      if g in groups[1..] {
        assert g in groups;
      }
    }
  }

  lemma SurvivingOneMore(front: seq<Recall>, last: Recall, strategy: Strategy, rejected: set<string>)
    ensures SurvivingKeys(front + [last], strategy, rejected) ==
            SurvivingKeys(front, strategy, rejected)
            + (if Survives(last.spot, strategy, rejected) then {KeyOf(last.spot)} else {})
  {
    var all := front + [last];
    forall r ensures r in all <==> r in front || r == last {
      InConcat(front, [last], r);
    }
  }

  /** One group per surviving place, each represented by a surviving candidate. */
  lemma {:induction false} GroupedGroups(recalled: seq<Recall>, strategy: Strategy, rejected: set<string>)
    ensures GroupsOf(Grouped(recalled, strategy, rejected), recalled, strategy, rejected)
  {
    if recalled != [] {
      var front, last := recalled[..|recalled| - 1], recalled[|recalled| - 1];
      assert recalled == front + [last];
      GroupedGroups(front, strategy, rejected);
      SurvivingOneMore(front, last, strategy, rejected);
      var before := Grouped(front, strategy, rejected);
      if Survives(last.spot, strategy, rejected) {
        JoinedKeepsDistinct(before, last);
        forall key
          ensures key in Map(Joined(before, last), GROUP_KEY) <==> key in SurvivingKeys(recalled, strategy, rejected)
        {
          JoinedKeys(before, last, key);
        }
        forall g | g in Joined(before, last) ensures Survives(g.spot, strategy, rejected) {
          JoinedSpots(before, last, g);
        }
      }
    }
  }

  lemma {:induction false} DistinctCount<T>(s: seq<T>)
    requires Distinct(s)
    ensures |set x | x in s| == |s|
  {
    if s != [] {
      var front, last := s[..|s| - 1], s[|s| - 1];
      DistinctCount(front);
      assert s == front + [last];
      assert (set x | x in s) == (set x | x in front) + {last};
      assert last !in front;
    }
  }

  lemma GroupedCount(recalled: seq<Recall>, strategy: Strategy, rejected: set<string>)
    ensures |Grouped(recalled, strategy, rejected)| == |SurvivingKeys(recalled, strategy, rejected)|
  {
    GroupedGroups(recalled, strategy, rejected);
    var keys := Map(Grouped(recalled, strategy, rejected), GROUP_KEY);
    DistinctCount(keys);
    assert (set key | key in keys) == SurvivingKeys(recalled, strategy, rejected);
  }

  // ---- ranking --------------------------------------------------------------------------------

  /** By falling score, then by id. */
  function RankBefore(score: Score): (Group, Group) -> bool {
    (a: Group, b: Group) => score(a) > score(b) || (score(a) == score(b) && TextBefore(a.spot.id, b.spot.id))
  }

  lemma RankIsWeakOrder(score: Score)
    ensures WeakOrder(RankBefore(score))
  {
    var before := RankBefore(score);
    forall x, y | before(x, y) ensures !before(y, x) {
      TextOrderTotal(x.spot.id, y.spot.id);
    }
    forall x, y, z | before(x, z) ensures before(x, y) || before(y, z) {
      if score(x) == score(y) == score(z) {
        TextOrderTotal(x.spot.id, y.spot.id);
        TextOrderTotal(y.spot.id, z.spot.id);
        if TextBefore(y.spot.id, x.spot.id) {
          TextOrderTransitive(y.spot.id, x.spot.id, z.spot.id);
        }
      }
    }
  }

  function RankedGroups(groups: seq<Group>, score: Score): seq<Group> {
    StableSort(groups, RankBefore(score))
  }

  // ---- the strict pass ------------------------------------------------------------------------

  function DistrictOf(s: Spot): string {
    if s.district == "" then "unknown" else s.district
  }

  function OfCategory(category: string): Group -> bool {
    (g: Group) => g.spot.category == category
  }

  function OfDistrict(district: string): Group -> bool {
    (g: Group) => DistrictOf(g.spot) == district
  }

  function InCategory(picked: seq<Group>, category: string): nat {
    |Filter(picked, OfCategory(category))|
  }

  function InDistrict(picked: seq<Group>, district: string): nat {
    |Filter(picked, OfDistrict(district))|
  }

  /** Neither the category nor the district of the group is full. */
  predicate Fits(picked: seq<Group>, g: Group, strategy: Strategy) {
    && InCategory(picked, g.spot.category) < strategy.perCategory
    && InDistrict(picked, DistrictOf(g.spot)) < strategy.perDistrict
  }

  /** What the strict pass picks from the ranking. */
  function StrictPicks(ranked: seq<Group>, strategy: Strategy, limit: nat): seq<Group> {
    if ranked == [] then []
    else
      var before := StrictPicks(ranked[..|ranked| - 1], strategy, limit);
      var last := ranked[|ranked| - 1];
      if |before| < limit && Fits(before, last, strategy) then before + [last] else before
  }

  /** What the relaxed pass adds. */
  function RelaxedPicks(ranked: seq<Group>, strict: seq<Group>, room: nat): seq<Group> {
    if ranked == [] then []
    else
      var before := RelaxedPicks(ranked[..|ranked| - 1], strict, room);
      var last := ranked[|ranked| - 1];
      if |before| < room && last !in strict then before + [last] else before
  }

  // ---- the strict pass is greedy --------------------------------------------------------------

  lemma {:induction false} StrictPicksBasics(ranked: seq<Group>, strategy: Strategy, limit: nat)
    ensures |StrictPicks(ranked, strategy, limit)| <= limit
    ensures |StrictPicks(ranked, strategy, limit)| <= |ranked|
    ensures forall g :: g in StrictPicks(ranked, strategy, limit) ==> g in ranked
  {
    if ranked != [] {
      var front, last := ranked[..|ranked| - 1], ranked[|ranked| - 1];
      assert ranked == front + [last];
      StrictPicksBasics(front, strategy, limit);
    }
  }

  /** What the strict pass does at position `i`. */
  lemma StrictOneMore(ranked: seq<Group>, i: nat, strategy: Strategy, limit: nat)
    requires i < |ranked|
    ensures var before := StrictPicks(ranked[..i], strategy, limit);
      StrictPicks(ranked[..i + 1], strategy, limit)
      == if |before| < limit && Fits(before, ranked[i], strategy) then before + [ranked[i]] else before
  {
    assert ranked[..i + 1][..i] == ranked[..i];
  }

  /** Picking from a longer ranking only adds picks from the added part. */
  ghost predicate OnlyAdds(ranked: seq<Group>, i: nat, before: seq<Group>, after: seq<Group>)
    requires i <= |ranked|
  {
    before <= after && forall k :: |before| <= k < |after| ==> after[k] in ranked[i..]
  }

  lemma AddsOneMore(ranked: seq<Group>, i: nat, before: seq<Group>, after: seq<Group>)
    requires i < |ranked| && OnlyAdds(ranked[..|ranked| - 1], i, before, after)
    ensures OnlyAdds(ranked, i, before, after) && OnlyAdds(ranked, i, before, after + [ranked[|ranked| - 1]])
  {
    var front, last := ranked[..|ranked| - 1], ranked[|ranked| - 1];
    assert ranked[i..] == front[i..] + [last];
    forall k | |before| <= k < |after| ensures after[k] in ranked[i..] {
      assert after[k] in front[i..];
    }
  }

  lemma {:induction false} StrictPicksGrow(ranked: seq<Group>, i: nat, strategy: Strategy, limit: nat)
    requires i <= |ranked|
    ensures OnlyAdds(ranked, i, StrictPicks(ranked[..i], strategy, limit), StrictPicks(ranked, strategy, limit))
  {
    if i == |ranked| {
      assert ranked[..i] == ranked;
    } else {
      var front := ranked[..|ranked| - 1];
      assert front[..i] == ranked[..i];
      StrictPicksGrow(front, i, strategy, limit);
      AddsOneMore(ranked, i, StrictPicks(front[..i], strategy, limit), StrictPicks(front, strategy, limit));
    }
  }

  /** `earlier` holds the picks among the places ranked above position `i`. */
  ghost predicate PicksAbove(ranked: seq<Group>, picks: seq<Group>, i: nat, earlier: seq<Group>)
    requires i <= |ranked|
  {
    && earlier <= picks
    && (forall g :: g in earlier ==> g in ranked[..i])
    && forall k :: |earlier| <= k < |picks| ==> picks[k] in ranked[i..]
  }

  lemma EarlierAreAbove(ranked: seq<Group>, i: nat, strategy: Strategy, limit: nat)
    requires i <= |ranked|
    ensures PicksAbove(ranked, StrictPicks(ranked, strategy, limit), i, StrictPicks(ranked[..i], strategy, limit))
  {
    StrictPicksBasics(ranked[..i], strategy, limit);
    StrictPicksGrow(ranked, i, strategy, limit);
  }

  /** A place is picked exactly if it is among the picks up to its own position. */
  lemma PickedByThen(ranked: seq<Group>, i: nat, picks: seq<Group>, next: seq<Group>)
    requires i < |ranked| && Distinct(ranked) && OnlyAdds(ranked, i + 1, next, picks)
    ensures ranked[i] in picks <==> ranked[i] in next
  {
    if ranked[i] in picks {
      var k :| 0 <= k < |picks| && picks[k] == ranked[i];
      NotBeyond(ranked, i);
      assert k < |next| && next[k] == picks[k];
    }
    if ranked[i] in next {
      var k :| 0 <= k < |next| && next[k] == ranked[i];
      assert picks[k] == next[k];
    }
  }

  lemma PickedIff(ranked: seq<Group>, i: nat, strategy: Strategy, limit: nat)
    requires i < |ranked| && Distinct(ranked)
    ensures var earlier := StrictPicks(ranked[..i], strategy, limit);
      ranked[i] in StrictPicks(ranked, strategy, limit) <==> |earlier| < limit && Fits(earlier, ranked[i], strategy)
  {
    StrictPicksGrow(ranked, i + 1, strategy, limit);
    PickedByThen(ranked, i, StrictPicks(ranked, strategy, limit), StrictPicks(ranked[..i + 1], strategy, limit));
    StrictOneMore(ranked, i, strategy, limit);
    StrictPicksBasics(ranked[..i], strategy, limit);
    NotBeyond(ranked, i);
  }

  /**
   * Main result for the strict pass: a place is picked exactly when, counting only the picks ranked above it, the limit
   * is not reached and neither its category nor its district is full.
   */
  lemma StrictIsGreedy(ranked: seq<Group>, i: nat, strategy: Strategy, limit: nat)
    requires i < |ranked| && Distinct(ranked)
    ensures exists earlier :: PicksAbove(ranked, StrictPicks(ranked, strategy, limit), i, earlier)
              && (ranked[i] in StrictPicks(ranked, strategy, limit)
                  <==> |earlier| < limit && Fits(earlier, ranked[i], strategy))
  {
    EarlierAreAbove(ranked, i, strategy, limit);
    PickedIff(ranked, i, strategy, limit);
  }

  lemma NotBeyond(ranked: seq<Group>, i: nat)
    requires i < |ranked| && Distinct(ranked)
    ensures ranked[i] !in ranked[i + 1..] && ranked[i] !in ranked[..i]
  {
  }

  /** The caps hold for what the strict pass picks. */
  lemma {:induction false} CapsAreRespected(
    ranked: seq<Group>, strategy: Strategy, limit: nat, category: string, district: string)
    ensures InCategory(StrictPicks(ranked, strategy, limit), category) <= strategy.perCategory
    ensures InDistrict(StrictPicks(ranked, strategy, limit), district) <= strategy.perDistrict
  {
    if ranked != [] {
      var before, last := StrictPicks(ranked[..|ranked| - 1], strategy, limit), ranked[|ranked| - 1];
      CapsAreRespected(ranked[..|ranked| - 1], strategy, limit, category, district);
      FilterConcat(before, [last], OfCategory(category));
      FilterConcat(before, [last], OfDistrict(district));
    }
  }

  function Among(picks: seq<Group>): Group -> bool {
    (g: Group) => g in picks
  }

  function NotAmong(picks: seq<Group>): Group -> bool {
    (g: Group) => g !in picks
  }

  /** Filtering for picks one place at a time. */
  lemma OrderOneMore(front: seq<Group>, last: Group, before: seq<Group>, picks: seq<Group>)
    requires last !in front && (forall g :: g in before ==> g in front)
    requires picks == before || picks == before + [last]
    requires Filter(front, Among(before)) == before
    ensures Filter(front + [last], Among(picks)) == picks
  {
    FilterConcat(front, [last], Among(picks));
    FilterSame(front, Among(picks), Among(before));
    assert Filter([last], Among(picks)) == if last in picks then [last] else [];
  }

  /** The strict picks stand in rank order. */
  lemma {:induction false} PicksInRankOrder(ranked: seq<Group>, strategy: Strategy, limit: nat)
    requires Distinct(ranked)
    ensures Filter(ranked, Among(StrictPicks(ranked, strategy, limit))) == StrictPicks(ranked, strategy, limit)
  {
    if ranked != [] {
      var front, last := ranked[..|ranked| - 1], ranked[|ranked| - 1];
      assert ranked == front + [last];
      PicksInRankOrder(front, strategy, limit);
      StrictPicksBasics(front, strategy, limit);
      OrderOneMore(front, last, StrictPicks(front, strategy, limit), StrictPicks(ranked, strategy, limit));
    }
  }

  // ---- the relaxed pass -----------------------------------------------------------------------

  /** The relaxed pass takes the best-ranked places that the strict pass left. */
  lemma {:induction false} RelaxedTakesTheBest(ranked: seq<Group>, strict: seq<Group>, room: nat)
    ensures var left := Filter(ranked, NotAmong(strict));
      RelaxedPicks(ranked, strict, room) == if |left| <= room then left else left[..room]
  {
    if ranked != [] {
      var front, last := ranked[..|ranked| - 1], ranked[|ranked| - 1];
      assert ranked == front + [last];
      RelaxedTakesTheBest(front, strict, room);
      FilterConcat(front, [last], NotAmong(strict));
    }
  }

  lemma {:induction false} FilterSplits<T>(s: seq<T>, p: T -> bool, q: T -> bool)
    requires forall x :: x in s ==> (p(x) <==> !q(x))
    ensures |Filter(s, p)| + |Filter(s, q)| == |s|
  {
    if s != [] {
      FilterSplits(s[1..], p, q);
    }
  }

  // ---- the selection --------------------------------------------------------------------------

  datatype Pick = Pick(group: Group, relaxed: bool)

  function Selected(ranked: seq<Group>, strategy: Strategy, limit: nat): seq<Group>
    requires |StrictPicks(ranked, strategy, limit)| <= limit
  {
    var strict := StrictPicks(ranked, strategy, limit);
    strict + RelaxedPicks(ranked, strict, limit - |strict|)
  }

  lemma PrefixIsDistinct<T>(s: seq<T>, n: nat)
    requires n <= |s| && Distinct(s)
    ensures Distinct(s[..n]) && forall x :: x in s[..n] ==> x in s
  {
  }

  /** What the strict pass leaves: the other places, none twice. */
  lemma LeftOver(ranked: seq<Group>, strict: seq<Group>)
    requires Distinct(ranked) && Filter(ranked, Among(strict)) == strict
    ensures var left := Filter(ranked, NotAmong(strict));
      && |strict| + |left| == |ranked| && Distinct(strict) && Distinct(left)
      && forall g :: g in left ==> g in ranked && g !in strict
  {
    FilterSplits(ranked, Among(strict), NotAmong(strict));
    FilterDistinct(ranked, Among(strict));
    FilterDistinct(ranked, NotAmong(strict));
    FilterMembers(ranked, NotAmong(strict));
  }

  /** Strict picks, and as many of the places left as there is room for. */
  lemma FilledUp(ranked: seq<Group>, strict: seq<Group>, left: seq<Group>, limit: nat)
    requires |strict| <= limit && |strict| + |left| == |ranked| && Distinct(strict) && Distinct(left)
    requires (forall g :: g in strict ==> g in ranked) && (forall g :: g in left ==> g in ranked && g !in strict)
    ensures var room := limit - |strict|; var relaxed := if |left| <= room then left else left[..room];
      && |strict + relaxed| == (if |ranked| <= limit then |ranked| else limit)
      && Distinct(strict + relaxed) && forall g :: g in strict + relaxed ==> g in ranked
  {
    var room := limit - |strict|;
    var relaxed := if |left| <= room then left else left[..room];
    if |left| > room {
      PrefixIsDistinct(left, room);
    }
    DistinctConcat(strict, relaxed);
  }

  /** The selection has exactly as many places as the limit and the ranking allow, none of them twice. */
  lemma SelectionCount(ranked: seq<Group>, strategy: Strategy, limit: nat)
    requires Distinct(ranked)
    ensures |StrictPicks(ranked, strategy, limit)| <= limit
    ensures |Selected(ranked, strategy, limit)| == if |ranked| <= limit then |ranked| else limit
    ensures Distinct(Selected(ranked, strategy, limit))
    ensures forall g :: g in Selected(ranked, strategy, limit) ==> g in ranked
  {
    var strict := StrictPicks(ranked, strategy, limit);
    StrictPicksBasics(ranked, strategy, limit);
    PicksInRankOrder(ranked, strategy, limit);
    LeftOver(ranked, strict);
    RelaxedTakesTheBest(ranked, strict, limit - |strict|);
    FilledUp(ranked, strict, Filter(ranked, NotAmong(strict)), limit);
  }

  function CountOf(counts: map<string, nat>, key: string): nat {
    if key in counts then counts[key] else 0
  }

  function Increased(counts: map<string, nat>, key: string): map<string, nat> {
    counts[key := CountOf(counts, key) + 1]
  }

  /** The keys of the picks so far. */
  ghost predicate KeysOf(picks: seq<Group>, selected: set<Key>) {
    forall key :: key in selected <==> key in Map(picks, GROUP_KEY)
  }

  /** The counters and the set of keys describe the picks. */
  ghost predicate Counted(
    picks: seq<Group>, categories: map<string, nat>, districts: map<string, nat>, selected: set<Key>)
  {
    && (forall c :: CountOf(categories, c) == InCategory(picks, c))
    && (forall d :: CountOf(districts, d) == InDistrict(picks, d))
    && KeysOf(picks, selected)
  }

  lemma FilterOneMore<T>(s: seq<T>, x: T, p: T -> bool)
    ensures |Filter(s + [x], p)| == |Filter(s, p)| + if p(x) then 1 else 0
  {
    FilterConcat(s, [x], p);
    assert [x][1..] == [];
  }

  lemma CountOneMore(
    picks: seq<Group>, categories: map<string, nat>, districts: map<string, nat>, selected: set<Key>, g: Group)
    requires Counted(picks, categories, districts, selected)
    ensures Counted(picks + [g], Increased(categories, g.spot.category),
                    Increased(districts, DistrictOf(g.spot)), selected + {KeyOf(g.spot)})
  {
    forall c ensures CountOf(Increased(categories, g.spot.category), c) == InCategory(picks + [g], c) {
      assert CountOf(categories, c) == InCategory(picks, c);
      FilterOneMore(picks, g, OfCategory(c));
    }
    forall d ensures CountOf(Increased(districts, DistrictOf(g.spot)), d) == InDistrict(picks + [g], d) {
      assert CountOf(districts, d) == InDistrict(picks, d);
      FilterOneMore(picks, g, OfDistrict(d));
    }
    MapConcat(picks, [g], GROUP_KEY);
    forall key ensures key in Map(picks + [g], GROUP_KEY) <==> key in Map(picks, GROUP_KEY) || key == KeyOf(g.spot) {
      InConcat(Map(picks, GROUP_KEY), [KeyOf(g.spot)], key);
    }
  }

  lemma CountedFits(
    picks: seq<Group>, categories: map<string, nat>, districts: map<string, nat>,
    selected: set<Key>, g: Group, strategy: Strategy)
    requires Counted(picks, categories, districts, selected)
    ensures Fits(picks, g, strategy) <==>
              CountOf(categories, g.spot.category) < strategy.perCategory
              && CountOf(districts, DistrictOf(g.spot)) < strategy.perDistrict
  {
  }

  /** The room there is according to the counters. */
  predicate HasRoom(g: Group, categories: map<string, nat>, districts: map<string, nat>, strategy: Strategy) {
    && CountOf(categories, g.spot.category) < strategy.perCategory
    && CountOf(districts, DistrictOf(g.spot)) < strategy.perDistrict
  }

  lemma NothingCounted(ranked: seq<Group>, strategy: Strategy, limit: nat)
    ensures Counted([], map[], map[], {}) && StrictPicks(ranked[..0], strategy, limit) == []
  {
  }

  /** The strict pass is over once the ranking or the limit is exhausted. */
  lemma StrictDone(
    ranked: seq<Group>, i: nat, strategy: Strategy, limit: nat, picks: seq<Group>, categories: map<string, nat>,
    districts: map<string, nat>, selected: set<Key>)
    requires i <= |ranked| && (i == |ranked| || |picks| >= limit)
    requires picks == StrictPicks(ranked[..i], strategy, limit) && Counted(picks, categories, districts, selected)
    ensures picks == StrictPicks(ranked, strategy, limit) && KeysOf(picks, selected)
  {
    NothingMore(ranked, i, strategy, limit);
  }

  lemma StrictTurn(
    ranked: seq<Group>, i: nat, strategy: Strategy, limit: nat, picks: seq<Group>, categories: map<string, nat>,
    districts: map<string, nat>, selected: set<Key>)
    requires i < |ranked| && picks == StrictPicks(ranked[..i], strategy, limit) && |picks| < limit
    requires Counted(picks, categories, districts, selected)
    ensures StrictPicks(ranked[..i + 1], strategy, limit)
         == if HasRoom(ranked[i], categories, districts, strategy) then picks + [ranked[i]] else picks
  {
    StrictOneMore(ranked, i, strategy, limit);
    CountedFits(picks, categories, districts, selected, ranked[i], strategy);
  }

  method StrictPass(ranked: seq<Group>, strategy: Strategy, limit: nat) returns (picks: seq<Group>, selected: set<Key>)
    requires 1 <= limit
    ensures picks == StrictPicks(ranked, strategy, limit)
    ensures KeysOf(picks, selected)
  {
    hide *;
    picks, selected := [], {};
    var categories: map<string, nat>, districts: map<string, nat> := map[], map[];
    var i := 0;
    NothingCounted(ranked, strategy, limit);
    while i < |ranked| && |picks| < limit
      invariant 0 <= i <= |ranked|
      invariant picks == StrictPicks(ranked[..i], strategy, limit)
      invariant Counted(picks, categories, districts, selected)
    {
      var g := ranked[i];
      StrictTurn(ranked, i, strategy, limit, picks, categories, districts, selected);
      if HasRoom(g, categories, districts, strategy) {
        CountOneMore(picks, categories, districts, selected, g);
        picks, selected := picks + [g], selected + {KeyOf(g.spot)};
        categories := Increased(categories, g.spot.category);
        districts := Increased(districts, DistrictOf(g.spot));
      }
      i := i + 1;
    }
    StrictDone(ranked, i, strategy, limit, picks, categories, districts, selected);
  }

  lemma KeyIsNotAbove(ranked: seq<Group>, i: nat, picks: seq<Group>)
    requires i < |ranked| && Distinct(Map(ranked, GROUP_KEY)) && forall g :: g in picks ==> g in ranked[..i]
    ensures KeyOf(ranked[i].spot) !in Map(picks, GROUP_KEY)
  {
    forall k | 0 <= k < |picks| ensures Map(picks, GROUP_KEY)[k] != KeyOf(ranked[i].spot) {
      assert picks[k] in ranked[..i];
      KeyAbove(ranked, i, picks[k]);
    }
  }

  lemma KeyAbove(ranked: seq<Group>, i: nat, g: Group)
    requires i < |ranked| && Distinct(Map(ranked, GROUP_KEY)) && g in ranked[..i]
    ensures KeyOf(g.spot) != KeyOf(ranked[i].spot)
  {
    var j :| 0 <= j < i && ranked[j] == g;
    assert Map(ranked, GROUP_KEY)[j] != Map(ranked, GROUP_KEY)[i];
  }

  lemma KeyIsTheirs(ranked: seq<Group>, picks: seq<Group>, g: Group)
    requires g in ranked && Distinct(Map(ranked, GROUP_KEY)) && forall p :: p in picks ==> p in ranked
    ensures KeyOf(g.spot) in Map(picks, GROUP_KEY) <==> g in picks
  {
    if g in picks {
      MapMember(picks, GROUP_KEY, g);
    }
    if KeyOf(g.spot) in Map(picks, GROUP_KEY) {
      var k :| 0 <= k < |picks| && Map(picks, GROUP_KEY)[k] == KeyOf(g.spot);
      assert picks[k] in picks;
      DistinctKeyUnique(ranked, GROUP_KEY, picks[k], g);
    }
  }

  /** A key is selected before position `i` is reached exactly if the strict pass picked the place there. */
  lemma SelectedIsStrict(ranked: seq<Group>, strict: seq<Group>, relaxed: seq<Group>, i: nat)
    requires i < |ranked| && Distinct(Map(ranked, GROUP_KEY))
    requires (forall g :: g in strict ==> g in ranked) && (forall g :: g in relaxed ==> g in ranked[..i])
    ensures KeyOf(ranked[i].spot) in Map(strict + relaxed, GROUP_KEY) <==> ranked[i] in strict
  {
    MapConcat(strict, relaxed, GROUP_KEY);
    InConcat(Map(strict, GROUP_KEY), Map(relaxed, GROUP_KEY), KeyOf(ranked[i].spot));
    KeyIsNotAbove(ranked, i, relaxed);
    KeyIsTheirs(ranked, strict, ranked[i]);
  }

  lemma {:induction false} RelaxedPicksBasics(ranked: seq<Group>, strict: seq<Group>, room: nat)
    ensures |RelaxedPicks(ranked, strict, room)| <= room
    ensures forall g :: g in RelaxedPicks(ranked, strict, room) ==> g in ranked
  {
    if ranked != [] {
      var front, last := ranked[..|ranked| - 1], ranked[|ranked| - 1];
      assert ranked == front + [last];
      RelaxedPicksBasics(front, strict, room);
    }
  }

  lemma {:induction false} NoRoomLeft(ranked: seq<Group>, i: nat, strict: seq<Group>, room: nat)
    requires i <= |ranked| && (i == |ranked| || |RelaxedPicks(ranked[..i], strict, room)| >= room)
    ensures RelaxedPicks(ranked, strict, room) == RelaxedPicks(ranked[..i], strict, room)
  {
    if i == |ranked| {
      assert ranked[..i] == ranked;
    } else {
      var front := ranked[..|ranked| - 1];
      assert front[..i] == ranked[..i];
      NoRoomLeft(front, i, strict, room);
    }
  }

  lemma RelaxedOneMore(ranked: seq<Group>, i: nat, strict: seq<Group>, room: nat)
    requires i < |ranked|
    ensures var before := RelaxedPicks(ranked[..i], strict, room);
      RelaxedPicks(ranked[..i + 1], strict, room)
      == if |before| < room && ranked[i] !in strict then before + [ranked[i]] else before
  {
    assert ranked[..i + 1][..i] == ranked[..i];
  }

  lemma RelaxedTurn(ranked: seq<Group>, i: nat, strict: seq<Group>, room: nat, picks: seq<Group>, selected: set<Key>)
    requires i < |ranked| && Distinct(Map(ranked, GROUP_KEY)) && forall g :: g in strict ==> g in ranked
    requires picks == RelaxedPicks(ranked[..i], strict, room) && |picks| < room && KeysOf(strict + picks, selected)
    ensures RelaxedPicks(ranked[..i + 1], strict, room)
         == if KeyOf(ranked[i].spot) !in selected then picks + [ranked[i]] else picks
    ensures KeysOf(strict + (picks + [ranked[i]]), selected + {KeyOf(ranked[i].spot)})
  {
    RelaxedPicksBasics(ranked[..i], strict, room);
    SelectedIsStrict(ranked, strict, picks, i);
    RelaxedOneMore(ranked, i, strict, room);
    KeysOneMore(strict, picks, ranked[i]);
  }

  method RelaxedPass(ranked: seq<Group>, strict: seq<Group>, chosen: set<Key>, room: nat) returns (picks: seq<Group>)
    requires Distinct(Map(ranked, GROUP_KEY)) && forall g :: g in strict ==> g in ranked
    requires KeysOf(strict, chosen)
    ensures picks == RelaxedPicks(ranked, strict, room)
  {
    picks := [];
    var selected := chosen;
    assert strict + picks == strict;
    var i := 0;
    while i < |ranked| && |picks| < room
      invariant 0 <= i <= |ranked|
      invariant picks == RelaxedPicks(ranked[..i], strict, room)
      invariant KeysOf(strict + picks, selected)
    {
      RelaxedTurn(ranked, i, strict, room, picks, selected);
      if KeyOf(ranked[i].spot) !in selected {
        picks, selected := picks + [ranked[i]], selected + {KeyOf(ranked[i].spot)};
      }
      i := i + 1;
    }
    NoRoomLeft(ranked, i, strict, room);
  }

  lemma KeysOneMore(strict: seq<Group>, picks: seq<Group>, g: Group)
    ensures forall key :: key in Map(strict + (picks + [g]), GROUP_KEY) <==>
              key in Map(strict + picks, GROUP_KEY) || key == KeyOf(g.spot)
  {
    assert strict + (picks + [g]) == (strict + picks) + [g];
    MapConcat(strict + picks, [g], GROUP_KEY);
    forall key
      ensures key in Map(strict + (picks + [g]), GROUP_KEY)
         <==> key in Map(strict + picks, GROUP_KEY) || key == KeyOf(g.spot)
    {
      InConcat(Map(strict + picks, GROUP_KEY), [KeyOf(g.spot)], key);
    }
  }

  /** Once the limit is reached, the rest of the ranking changes nothing. */
  lemma {:induction false} NothingMore(ranked: seq<Group>, i: nat, strategy: Strategy, limit: nat)
    requires i <= |ranked| && (i == |ranked| || |StrictPicks(ranked[..i], strategy, limit)| >= limit)
    ensures StrictPicks(ranked, strategy, limit) == StrictPicks(ranked[..i], strategy, limit)
  {
    if i == |ranked| {
      assert ranked[..i] == ranked;
    } else {
      var front := ranked[..|ranked| - 1];
      assert front[..i] == ranked[..i];
      NothingMore(front, i, strategy, limit);
    }
  }

  // ---- the recommendation ---------------------------------------------------------------------

  datatype Metrics = Metrics(queries: nat, recalled: nat, filtered: nat, distinct: nat, selected: nat)

  datatype Recommendation = Recommendation(picks: seq<Pick>, metrics: Metrics)

  const AS_STRICT: Group -> Pick := (g: Group) => Pick(g, false)
  const AS_RELAXED: Group -> Pick := (g: Group) => Pick(g, true)
  const PICK_GROUP: Pick -> Group := (p: Pick) => p.group

  function FilteredCount(recalled: seq<Recall>, strategy: Strategy, rejected: set<string>): nat {
    |Filter(recalled, (r: Recall) => !Survives(r.spot, strategy, rejected))|
  }

  /** The picks over a ranking: the strict ones, then the relaxed ones. */
  function Picks(ranked: seq<Group>, strategy: Strategy, limit: nat): seq<Pick>
    requires |StrictPicks(ranked, strategy, limit)| <= limit
  {
    var strict := StrictPicks(ranked, strategy, limit);
    Map(strict, AS_STRICT) + Map(RelaxedPicks(ranked, strict, limit - |strict|), AS_RELAXED)
  }

  method RecallAll(queries: seq<string>, search: Searcher) returns (recalled: seq<Recall>)
    ensures recalled == Recalled(queries, search)
  {
    recalled := [];
    for i := 0 to |queries|
      invariant recalled == Recalled(queries[..i], search)
    {
      assert queries[..i + 1][..i] == queries[..i];
      var found := search(queries[i]);
      if found.Some? {
        recalled := recalled + Tagged(found.value, queries[i]);
      } else {
        assert Tagged([], queries[i]) == [];
      }
    }
    assert queries[..|queries|] == queries;
  }

  method GroupAll(
    recalled: seq<Recall>, strategy: Strategy, rejected: set<string>)
    returns (groups: seq<Group>, filtered: nat)
    ensures groups == Grouped(recalled, strategy, rejected)
    ensures filtered == FilteredCount(recalled, strategy, rejected)
  {
    groups, filtered := [], 0;
    for i := 0 to |recalled|
      invariant groups == Grouped(recalled[..i], strategy, rejected)
      invariant filtered == FilteredCount(recalled[..i], strategy, rejected)
    {
      assert recalled[..i + 1] == recalled[..i] + [recalled[i]] && recalled[..i + 1][..i] == recalled[..i];
      FilterOneMore(recalled[..i], recalled[i], (r: Recall) => !Survives(r.spot, strategy, rejected));
      if HardFiltered(recalled[i].spot, strategy) || recalled[i].spot.id in rejected {
        filtered := filtered + 1;
      } else {
        groups := Joined(groups, recalled[i]);
      }
    }
    assert recalled[..|recalled|] == recalled;
  }

  lemma RankedIsDistinct(groups: seq<Group>, score: Score)
    requires Distinct(Map(groups, GROUP_KEY))
    ensures Distinct(Map(RankedGroups(groups, score), GROUP_KEY)) && Distinct(RankedGroups(groups, score))
    ensures multiset(RankedGroups(groups, score)) == multiset(groups)
    ensures |RankedGroups(groups, score)| == |groups|
    ensures forall g :: g in RankedGroups(groups, score) <==> g in groups
  {
    RankIsWeakOrder(score);
    SortOrders(groups, RankBefore(score));
    var ranked := RankedGroups(groups, score);
    assert |ranked| == |multiset(ranked)| == |multiset(groups)| == |groups|;
    forall g ensures g in ranked <==> g in groups {
      assert g in multiset(ranked) <==> g in multiset(groups);
    }
    SubselectionKeysDistinct(ranked, groups, GROUP_KEY);
    forall i, j | 0 <= i < j < |ranked| ensures ranked[i] != ranked[j] {
      assert Map(ranked, GROUP_KEY)[i] != Map(ranked, GROUP_KEY)[j];
    }
  }

  /** Everything promised of a recommendation. */
  ghost predicate Recommended(
    picks: seq<Pick>, recalled: seq<Recall>, strategy: Strategy, limit: nat, rejected: set<string>)
  {
    var survivors := SurvivingKeys(recalled, strategy, rejected);
    && |picks| == (if |survivors| <= limit then |survivors| else limit)
    && NoneRepeated(picks)
    && AllSurvive(picks, recalled, strategy, rejected)
  }

  ghost predicate NoneRepeated(picks: seq<Pick>) {
    Distinct(Map(Map(picks, PICK_GROUP), GROUP_KEY))
  }

  ghost predicate AllSurvive(picks: seq<Pick>, recalled: seq<Recall>, strategy: Strategy, rejected: set<string>) {
    forall p :: p in picks ==>
      KeyOf(p.group.spot) in SurvivingKeys(recalled, strategy, rejected) && Survives(p.group.spot, strategy, rejected)
  }

  method Recommend(strategy: Strategy, limit: int, rejected: set<string>, search: Searcher, score: Score)
    returns (r: Result<Recommendation, RecommendError>)
    ensures r.Err? <==> !(1 <= limit <= 30) || Recalled(strategy.queries, search) == []
    ensures r.Err? ==> r.error == if 1 <= limit <= 30 then NothingFound else LimitOutOfRange
    ensures r.Ok? ==>
      var recalled := Recalled(strategy.queries, search);
      var groups := Grouped(recalled, strategy, rejected);
      var ranked := RankedGroups(groups, score);
      && |StrictPicks(ranked, strategy, limit)| <= limit
      && r.value.picks == Picks(ranked, strategy, limit)
      && Recommended(r.value.picks, recalled, strategy, limit, rejected)
      && r.value.metrics
         == Metrics(|strategy.queries|, |recalled|, FilteredCount(recalled, strategy, rejected),
                    |groups|, |r.value.picks|)
  {
    hide Recalled, Grouped, RankedGroups, StrictPicks, RelaxedPicks, FilteredCount, Recommended, KeysOf, Distinct, Map;
    if !(1 <= limit <= 30) {
      return Err(LimitOutOfRange);
    }
    var recalled := RecallAll(strategy.queries, search);
    if recalled == [] {
      return Err(NothingFound);
    }
    var groups, filtered := GroupAll(recalled, strategy, rejected);
    GroupedGroups(recalled, strategy, rejected);
    var ranked := RankedGroups(groups, score);
    RankedIsDistinct(groups, score);
    StrictPicksBasics(ranked, strategy, limit);
    var strict, selected := StrictPass(ranked, strategy, limit);
    var relaxed: seq<Group> := [];
    if |strict| < limit {
      relaxed := RelaxedPass(ranked, strict, selected, limit - |strict|);
    } else {
      RelaxedPicksBasics(ranked, strict, 0);
    }
    var picks := Map(strict, AS_STRICT) + Map(relaxed, AS_RELAXED);
    r := Ok(Recommendation(picks, Metrics(|strategy.queries|, |recalled|, filtered, |groups|, |picks|)));
    PicksAreRecommended(recalled, strategy, limit, rejected, score);
  }

  lemma SubKeysDistinct<T, K>(whole: seq<T>, part: seq<T>, key: T -> K)
    requires Distinct(Map(whole, key)) && Distinct(part) && forall x :: x in part ==> x in whole
    ensures Distinct(Map(part, key))
  {
    forall i, j | 0 <= i < j < |part| ensures key(part[i]) != key(part[j]) {
      if key(part[i]) == key(part[j]) {
        DistinctKeyUnique(whole, key, part[i], part[j]);
      }
    }
  }

  lemma MapBack(strict: seq<Group>, relaxed: seq<Group>)
    ensures Map(Map(strict, AS_STRICT) + Map(relaxed, AS_RELAXED), PICK_GROUP) == strict + relaxed
  {
    MapConcat(Map(strict, AS_STRICT), Map(relaxed, AS_RELAXED), PICK_GROUP);
    assert Map(Map(strict, AS_STRICT), PICK_GROUP) == strict;
    assert Map(Map(relaxed, AS_RELAXED), PICK_GROUP) == relaxed;
  }

  lemma PickedGroups(ranked: seq<Group>, strategy: Strategy, limit: nat)
    requires |StrictPicks(ranked, strategy, limit)| <= limit
    ensures Map(Picks(ranked, strategy, limit), PICK_GROUP) == Selected(ranked, strategy, limit)
  {
    var strict := StrictPicks(ranked, strategy, limit);
    MapBack(strict, RelaxedPicks(ranked, strict, limit - |strict|));
  }

  lemma PicksAreChosen(picks: seq<Pick>, chosen: seq<Group>, ranked: seq<Group>)
    requires Map(picks, PICK_GROUP) == chosen && Distinct(chosen) && forall g :: g in chosen ==> g in ranked
    requires Distinct(Map(ranked, GROUP_KEY))
    ensures NoneRepeated(picks) && |picks| == |chosen|
    ensures forall g :: g in Map(picks, PICK_GROUP) ==> g in ranked
  {
    SubKeysDistinct(ranked, chosen, GROUP_KEY);
  }

  lemma PicksSurvive(
    picks: seq<Pick>, groups: seq<Group>, recalled: seq<Recall>, strategy: Strategy, rejected: set<string>)
    requires GroupsOf(groups, recalled, strategy, rejected) && forall g :: g in Map(picks, PICK_GROUP) ==> g in groups
    ensures AllSurvive(picks, recalled, strategy, rejected)
  {
    forall p | p in picks
      ensures KeyOf(p.group.spot) in SurvivingKeys(recalled, strategy, rejected)
      ensures Survives(p.group.spot, strategy, rejected)
    {
      MapMember(picks, PICK_GROUP, p);
      MapMember(groups, GROUP_KEY, p.group);
    }
  }

  /** A ranking of the groups: the same places in another order. */
  ghost predicate Ranks(ranked: seq<Group>, groups: seq<Group>) {
    && Distinct(Map(ranked, GROUP_KEY)) && Distinct(ranked) && |ranked| == |groups|
    && forall g :: g in ranked ==> g in groups
  }

  lemma SelectionIsChosen(ranked: seq<Group>, groups: seq<Group>, strategy: Strategy, limit: nat)
    requires Ranks(ranked, groups)
    ensures |StrictPicks(ranked, strategy, limit)| <= limit
    ensures var picks := Picks(ranked, strategy, limit);
      && NoneRepeated(picks) && |picks| == (if |groups| <= limit then |groups| else limit)
      && forall g :: g in Map(picks, PICK_GROUP) ==> g in groups
  {
    SelectionCount(ranked, strategy, limit);
    PickedGroups(ranked, strategy, limit);
    PicksAreChosen(Picks(ranked, strategy, limit), Selected(ranked, strategy, limit), ranked);
  }

  /** Main result: exactly min(limit, surviving places) picks, none repeated, filtered or rejected. */
  lemma PicksAreRecommended(recalled: seq<Recall>, strategy: Strategy, limit: nat, rejected: set<string>, score: Score)
    ensures var ranked := RankedGroups(Grouped(recalled, strategy, rejected), score);
      && |StrictPicks(ranked, strategy, limit)| <= limit
      && Recommended(Picks(ranked, strategy, limit), recalled, strategy, limit, rejected)
  {
    var groups := Grouped(recalled, strategy, rejected);
    var ranked := RankedGroups(groups, score);
    GroupedGroups(recalled, strategy, rejected);
    GroupedCount(recalled, strategy, rejected);
    RankedIsDistinct(groups, score);
    SelectionIsChosen(ranked, groups, strategy, limit);
    PicksSurvive(Picks(ranked, strategy, limit), groups, recalled, strategy, rejected);
  }

  /** Relaxed picks occur only when the strict pass ended below the limit, and they are the best-ranked places left. */
  lemma RelaxedOnlyBelowLimit(ranked: seq<Group>, strategy: Strategy, limit: nat)
    requires |StrictPicks(ranked, strategy, limit)| <= limit
    ensures var strict := StrictPicks(ranked, strategy, limit);
      var left := Filter(ranked, NotAmong(strict));
      && (RelaxedPicks(ranked, strict, limit - |strict|) != [] ==> |strict| < limit)
      && RelaxedPicks(ranked, strict, limit - |strict|)
         == (if |left| <= limit - |strict| then left else left[..limit - |strict|])
  {
    RelaxedTakesTheBest(ranked, StrictPicks(ranked, strategy, limit), limit - |StrictPicks(ranked, strategy, limit)|);
  }
}
