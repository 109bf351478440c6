/** `_arrange`: spreading the places over the days before any route is known. */
module Arranging {
  import opened Wrappers
  import opened Sequences
  import opened PlannerData

  type Schedule = seq<seq<PlanningPlace>>

  /** The categories the forecast of a day favours; empty without forecast or preference. */
  type Preferred = nat -> set<string>

  function WeatherPenalty(preferred: Preferred, day: nat, category: string): nat {
    if preferred(day) == {} || category in preferred(day) then 0 else 1
  }

  /** The lexicographic key (weather penalty, load, index) of day `a` is below that of day `b`. */
  predicate Preferable(days: Schedule, preferred: Preferred, category: string, a: nat, b: nat)
    requires a < |days| && b < |days|
  {
    var pa, pb := WeatherPenalty(preferred, a, category), WeatherPenalty(preferred, b, category);
    pa < pb || (pa == pb && (|days[a]| < |days[b]| || (|days[a]| == |days[b]| && a < b)))
  }

  /** The best day among the first `n` that still has room, if any. */
  function BestDay(days: Schedule, n: nat, maximum: nat, preferred: Preferred, category: string): (r: Option<nat>)
    requires n <= |days|
    ensures r.None? <==> forall i :: 0 <= i < n ==> |days[i]| >= maximum
    ensures r.Some? ==> r.value < n && |days[r.value]| < maximum
    ensures r.Some? ==> forall i :: 0 <= i < n && |days[i]| < maximum && i != r.value ==>
              Preferable(days, preferred, category, r.value, i)
  {
    if n == 0 then None
    else
      var r := BestDay(days, n - 1, maximum, preferred, category);
      if |days[n - 1]| >= maximum then r
      else if r.Some? && Preferable(days, preferred, category, r.value, n - 1) then r
      else Some(n - 1)
  }

  /** One placement: the best day with room, else the next day in turn. */
  function Put(
    days: Schedule, turn: nat, place: PlanningPlace, maximum: nat, preferred: Preferred): (r: (Schedule, nat))
    requires |days| > 0
    ensures |r.0| == |days|
  {
    match BestDay(days, |days|, maximum, preferred, place.candidate.category)
    case Some(i) => (days[i := days[i] + [place]], turn)
    case None =>
      var i := turn % |days|;
      (days[i := days[i] + [place]], turn + 1)
  }

  function Distribute(
    places: seq<PlanningPlace>, days: Schedule, turn: nat, maximum: nat, preferred: Preferred): (r: Schedule)
    requires |days| > 0
    ensures |r| == |days|
    decreases |places|
  {
    if places == [] then days
    else
      var (next, turn') := Put(days, turn, places[0], maximum, preferred);
      Distribute(places[1..], next, turn', maximum, preferred)
  }

  /** Python's `max(range(days), key=len)`: the first longest of the first `n` days. */
  function LongestDay(days: Schedule, n: nat): (k: nat)
    requires 0 < n <= |days|
    ensures k < n
    ensures forall i :: 0 <= i < n ==> |days[i]| <= |days[k]|
  {
    if n == 1 then 0
    else
      var k := LongestDay(days, n - 1);
      if |days[n - 1]| > |days[k]| then n - 1 else k
  }

  /** One rebalancing move: the last place of a longest day goes to `empty`. */
  function Donate(days: Schedule, empty: nat): (r: Schedule)
    requires empty < |days|
    ensures |r| == |days|
  {
    var donor := LongestDay(days, |days|);
    if |days[donor]| > 1 then
      var moved := days[donor][|days[donor]| - 1];
      var shrunk := days[donor := days[donor][..|days[donor]| - 1]];
      shrunk[empty := shrunk[empty] + [moved]]
    else days
  }

  function Rebalance(days: Schedule, empties: seq<nat>): (r: Schedule)
    requires forall i :: 0 <= i < |empties| ==> empties[i] < |days|
    ensures |r| == |days|
    decreases |empties|
  {
    if empties == [] then days else Rebalance(Donate(days, empties[0]), empties[1..])
  }

  function EmptyDays(days: Schedule, from: nat): (r: seq<nat>)
    requires from <= |days|
    ensures forall i :: 0 <= i < |r| ==> from <= r[i] < |days|
    ensures forall e :: e in r <==> from <= e < |days| && days[e] == []
    ensures Distinct(r)
    decreases |days| - from
  {
    if from == |days| then []
    else (if days[from] == [] then [from] else []) + EmptyDays(days, from + 1)
  }

  function DistrictKey(place: PlanningPlace): string {
    place.candidate.city + ":" + place.candidate.district
  }

  datatype Group = Group(key: string, members: seq<PlanningPlace>)

  /** `grouped[key].append(place)` on an insertion-ordered dictionary. */
  function AddToGroup(groups: seq<Group>, place: PlanningPlace): seq<Group> {
    if groups == [] then [Group(DistrictKey(place), [place])]
    else if groups[0].key == DistrictKey(place) then
      [groups[0].(members := groups[0].members + [place])] + groups[1..]
    else [groups[0]] + AddToGroup(groups[1..], place)
  }

  const MEMBERS: Group -> seq<PlanningPlace> := (g: Group) => g.members

  function GroupAll(places: seq<PlanningPlace>): seq<Group> {
    if places == [] then []
    else AddToGroup(GroupAll(places[..|places| - 1]), places[|places| - 1])
  }

  const IS_MUST: PlanningPlace -> bool := (p: PlanningPlace) => p.priority == MustVisit
  const IS_NOT_MUST: PlanningPlace -> bool := (p: PlanningPlace) => p.priority != MustVisit

  /** Python's stable `sorted` on the key `priority != "must_visit"`. */
  function MustVisitFirst(places: seq<PlanningPlace>): seq<PlanningPlace> {
    Filter(places, IS_MUST) + Filter(places, IS_NOT_MUST)
  }

  /** The order in which places are handed out: stably must-visit first, then district by district. */
  function HandOut(places: seq<PlanningPlace>): seq<PlanningPlace> {
    Flatten(Map(GroupAll(MustVisitFirst(places)), MEMBERS))
  }

  function EmptySchedule(days: nat): (r: Schedule)
    ensures |r| == days && forall i :: 0 <= i < days ==> r[i] == []
  {
    if days == 0 then [] else EmptySchedule(days - 1) + [[]]
  }

  function Arranged(places: seq<PlanningPlace>, days: nat, maximum: nat, preferred: Preferred): (r: Schedule)
    requires days > 0
    ensures |r| == days
  {
    var spread := Distribute(HandOut(places), EmptySchedule(days), 0, maximum, preferred);
    if |places| >= days then Rebalance(spread, EmptyDays(spread, 0)) else spread
  }

  method GroupByDistrict(sorted: seq<PlanningPlace>) returns (grouped: seq<Group>)
    ensures grouped == GroupAll(sorted)
  {
    grouped := [];
    for i := 0 to |sorted|
      invariant grouped == GroupAll(sorted[..i])
    {
      assert sorted[..i + 1][..i] == sorted[..i];
      grouped := AddToGroup(grouped, sorted[i]);
    }
    assert sorted[..|sorted|] == sorted;
  }

  /** The inner loop: one group's places, each to the best day with room or to the next day in turn. */
  method PlaceGroup(
    group: seq<PlanningPlace>, ghost rest: seq<PlanningPlace>, days: Schedule, turn: nat,
    maximum: nat, preferred: Preferred) returns (result: Schedule, dayIndex: nat)
    requires |days| > 0
    ensures |result| == |days|
    ensures Distribute(group + rest, days, turn, maximum, preferred)
         == Distribute(rest, result, dayIndex, maximum, preferred)
  {
    result, dayIndex := days, turn;
    for i := 0 to |group|
      invariant |result| == |days|
      invariant Distribute(group + rest, days, turn, maximum, preferred)
             == Distribute(group[i..] + rest, result, dayIndex, maximum, preferred)
    {
      var place := group[i];
      assert (group[i..] + rest)[0] == place && (group[i..] + rest)[1..] == group[i + 1..] + rest;
      match BestDay(result, |result|, maximum, preferred, place.candidate.category) {
        case None =>
          var target := dayIndex % |result|;
          result := result[target := result[target] + [place]];
          dayIndex := dayIndex + 1;
        case Some(target) =>
          result := result[target := result[target] + [place]];
      }
    }
    assert group[|group|..] + rest == rest;
  }

  method FillEmptyDays(days: Schedule) returns (result: Schedule)
    requires |days| > 0
    ensures result == Rebalance(days, EmptyDays(days, 0))
  {
    result := days;
    var empties := EmptyDays(result, 0);
    for i := 0 to |empties|
      invariant |result| == |days|
      invariant Rebalance(result, empties[i..]) == Rebalance(days, empties)
    {
      var donor := LongestDay(result, |result|);
      assert empties[i..][1..] == empties[i + 1..] && empties[i..][0] == empties[i];
      if |result[donor]| > 1 {
        var moved := result[donor][|result[donor]| - 1];
        result := result[donor := result[donor][..|result[donor]| - 1]];
        result := result[empties[i] := result[empties[i]] + [moved]];
      }
    }
  }

  method Arrange(places: seq<PlanningPlace>, days: nat, maximum: nat, preferred: Preferred)
    returns (result: Schedule)
    requires days > 0
    ensures result == Arranged(places, days, maximum, preferred)
  {
    var grouped := GroupByDistrict(MustVisitFirst(places));
    result := EmptySchedule(days);
    var dayIndex := 0;
    ghost var spread := Distribute(HandOut(places), result, 0, maximum, preferred);
    for g := 0 to |grouped|
      invariant |result| == days
      invariant spread == Distribute(Flatten(Map(grouped[g..], MEMBERS)), result, dayIndex, maximum, preferred)
    {
      assert grouped[g..][1..] == grouped[g + 1..];
      result, dayIndex := PlaceGroup(
        grouped[g].members, Flatten(Map(grouped[g + 1..], MEMBERS)), result, dayIndex, maximum, preferred);
    }
    if |places| >= days {
      result := FillEmptyDays(result);
    }
  }
}
