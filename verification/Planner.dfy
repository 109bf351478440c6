/** The planning loop: route each day, validate, repair, at most three times. */
module Planner {
  import opened Wrappers
  import opened Sequences
  import opened RequirementData
  import opened SnapshotData
  import opened Providers
  import opened PlannerData
  import opened GreedyRoute
  import opened Optimizer
  import opened Arranging

  type Distance = (PlanningPlace, PlanningPlace) -> real

  // ---- one routed day -------------------------------------------------------------------------

  /** The day's legs are, in order, one per consecutive pair of stops, with what the provider answered. */
  ghost predicate LegsFollow(day: PlannedDay, oracle: LegOracle, mode: string) {
    && |day.segments| == (if day.places == [] then 0 else |day.places| - 1)
    && forall k :: 0 <= k < |day.segments| ==>
         day.segments[k] == LegOf(oracle, k, day.places[k].id, day.places[k + 1].id, mode)
  }

  function DateFor(r: Requirements, dayNumber: nat): Option<int> {
    match DateOf(r, StartDate)
    case Some(start) => Some(start + dayNumber - 1)
    case None => None
  }

  /** `day` visits exactly `stops`, starts where they start, and is no longer than the nearest-next tour. */
  ghost predicate Routed(
    day: PlannedDay, number: nat, r: Requirements, stops: seq<PlanningPlace>, capacity: Capacity, d: Distance)
  {
    && day.number == number && day.date == DateFor(r, number) && day.capacity == capacity
    && multiset(day.places) == multiset(stops)
    && (stops != [] ==> day.places != [] && day.places[0] == stops[0])
    && RouteLength(d, day.places) <= RouteLength(d, Greedy(Nearer(d), stops))
  }

  /** The legs between consecutive places, as the provider answers them. */
  function LegsBetween(places: seq<PlanningPlace>, oracle: LegOracle, mode: string): (r: seq<Segment>)
    ensures |r| == (if places == [] then 0 else |places| - 1)
    ensures forall k :: 0 <= k < |r| ==> r[k] == LegOf(oracle, k, places[k].id, places[k + 1].id, mode)
  {
    seq(if places == [] then 0 else |places| - 1,
        k requires 0 <= k < (if places == [] then 0 else |places| - 1) =>
          LegOf(oracle, k, places[k].id, places[k + 1].id, mode))
  }

  /** `_route_day`: nearest neighbour, four passes of 2-opt, one leg per consecutive pair. */
  function RoutedDay(
    number: nat, r: Requirements, stops: seq<PlanningPlace>,
    capacity: Capacity, d: Distance, answers: DayAnswers): PlannedDay
  {
    var ordered := Passes(d, Greedy(Nearer(d), stops), 4);
    PlannedDay(number, DateFor(r, number), ordered,
               LegsBetween(ordered, answers.legs, ModeOf(r)), capacity, answers.notes)
  }

  method RouteDay(
    number: nat, r: Requirements, stops: seq<PlanningPlace>, capacity: Capacity, d: Distance, answers: DayAnswers)
    returns (day: PlannedDay)
    requires IsDistance(d)
    ensures day == RoutedDay(number, r, stops, capacity, d, answers)
    ensures Routed(day, number, r, stops, capacity, d)
    ensures LegsFollow(day, answers.legs, ModeOf(r))
  {
    var nearest := NearestNeighbor(d, stops);
    GreedyPermutes(Nearer(d), stops);
    var ordered, _, _ := LimitedTwoOpt(d, nearest, 4);
    assert |ordered| == |multiset(ordered)| == |multiset(stops)| == |stops|;
    var segments := FetchLegs(ordered, answers.legs, ModeOf(r));
    day := PlannedDay(number, DateFor(r, number), ordered, segments, capacity, answers.notes);
  }

  method FetchLegs(ordered: seq<PlanningPlace>, oracle: LegOracle, mode: string) returns (segments: seq<Segment>)
    ensures segments == LegsBetween(ordered, oracle, mode)
  {
    segments := [];
    for k := 0 to |ordered| - (if ordered == [] then 0 else 1)
      invariant |segments| == k
      invariant forall j :: 0 <= j < k ==> segments[j] == LegOf(oracle, j, ordered[j].id, ordered[j + 1].id, mode)
    {
      segments := segments + [LegOf(oracle, k, ordered[k].id, ordered[k + 1].id, mode)];
    }
  }

  // ---- validation -----------------------------------------------------------------------------

  function ActivityMinutes(places: seq<PlanningPlace>): nat {
    if places == [] then 0 else places[0].activityMinutes + ActivityMinutes(places[1..])
  }

  function Seconds(s: Segment): nat { s.duration.GetOr(0) }
  function Metres(s: Segment): nat { s.distance.GetOr(0) }

  function TotalSeconds(segments: seq<Segment>): nat {
    if segments == [] then 0 else Seconds(segments[0]) + TotalSeconds(segments[1..])
  }

  function TotalMetres(segments: seq<Segment>): nat {
    if segments == [] then 0 else Metres(segments[0]) + TotalMetres(segments[1..])
  }

  function Districts(places: seq<PlanningPlace>): set<string> {
    set p | p in places && p.candidate.district != "" :: p.candidate.district
  }

  function Categories(places: seq<PlanningPlace>): set<string> {
    set p | p in places :: p.candidate.category
  }

  function IdsOfPlaces(places: seq<PlanningPlace>): seq<Id> {
    Map(places, PLANNING_ID)
  }

  predicate HasAccepted(places: seq<PlanningPlace>) {
    exists p :: p in places && p.priority == Accepted
  }

  predicate OverCapacity(day: PlannedDay) {
    |day.places| > day.capacity.maximumPlaces || ActivityMinutes(day.places) > day.capacity.maximumActivity
  }

  predicate OverRouteLimit(day: PlannedDay) {
    || TotalSeconds(day.segments) / 60 > day.capacity.maximumTransport
    || exists s :: s in day.segments && Seconds(s) / 60 > day.capacity.maximumSegment
  }

  predicate CrossesDistricts(day: PlannedDay) {
    |Districts(day.places)| >= 3 && TotalMetres(day.segments) > 60000
  }

  predicate MixesSuburb(day: PlannedDay, suburban: Option<bool>) {
    suburban == Some(false) && |Districts(day.places)| > 1 && exists s :: s in day.segments && Metres(s) > 30000
  }

  predicate Repetitive(day: PlannedDay) {
    |day.places| >= 4 && |Categories(day.places)| == 1
  }

  function Raise(found: bool, code: ConflictCode, day: PlannedDay): (r: seq<Conflict>)
    ensures r == [] <==> !found
    ensures forall c :: c in r ==> c.day == Some(day.number) && c.repairable == HasAccepted(day.places)
  {
    if found then [Conflict(code, Some(day.number), IdsOfPlaces(day.places), HasAccepted(day.places))] else []
  }

  /** The part of `_validate` about one day, check by check in the order in which `_validate` makes them. */
  function DayConflicts(day: PlannedDay, suburban: Option<bool>): (r: seq<Conflict>)
    ensures forall c :: c in r ==> c.day == Some(day.number) && c.repairable == HasAccepted(day.places)
  {
    Raise(OverCapacity(day), CapacityExceeded, day)
    + Raise(OverRouteLimit(day), RouteLimitExceeded, day)
    + Raise(CrossesDistricts(day), CrossDistrictExcess, day)
    + Raise(MixesSuburb(day, suburban), SuburbanMixed, day)
    + Raise(Repetitive(day), CategoryRepetition, day)
  }

  /** What a traveller is promised about one day of a feasible plan. */
  ghost predicate DayWithinLimits(day: PlannedDay, suburban: Option<bool>) {
    && |day.places| <= day.capacity.maximumPlaces
    && ActivityMinutes(day.places) <= day.capacity.maximumActivity
    && TotalSeconds(day.segments) < 60 * (day.capacity.maximumTransport + 1)
    && (forall s :: s in day.segments ==> Seconds(s) < 60 * (day.capacity.maximumSegment + 1))
    && (TotalMetres(day.segments) <= 60000
        || !exists p, q, r :: p in day.places && q in day.places && r in day.places
             && DifferentDistricts(p, q) && DifferentDistricts(q, r) && DifferentDistricts(p, r))
    && (suburban == Some(false) && (exists s :: s in day.segments && Metres(s) > 30000) ==>
          !exists p, q :: p in day.places && q in day.places && DifferentDistricts(p, q))
    && (|day.places| >= 4 ==> exists p, q :: p in day.places && q in day.places
                                && p.candidate.category != q.candidate.category)
  }

  ghost predicate DifferentDistricts(p: PlanningPlace, q: PlanningPlace) {
    p.candidate.district != "" && q.candidate.district != "" && p.candidate.district != q.candidate.district
  }

  lemma TwoDistricts(places: seq<PlanningPlace>)
    ensures |Districts(places)| > 1 <==>
      exists p, q :: p in places && q in places && DifferentDistricts(p, q)
  {
    var ds := Districts(places);
    if |ds| > 1 {
      var a :| a in ds;
      assert |ds - {a}| > 0;
      var b :| b in ds - {a};
      var p :| p in places && p.candidate.district == a && a != "";
      var q :| q in places && q.candidate.district == b && b != "";
      assert DifferentDistricts(p, q);
    }
    if p, q :| p in places && q in places && DifferentDistricts(p, q) {
      assert {p.candidate.district, q.candidate.district} <= ds;
      SubsetSize({p.candidate.district, q.candidate.district}, ds);
    }
  }

  lemma ThreeDistricts(places: seq<PlanningPlace>)
    ensures |Districts(places)| >= 3 <==>
      exists p, q, r :: p in places && q in places && r in places
        && DifferentDistricts(p, q) && DifferentDistricts(q, r) && DifferentDistricts(p, r)
  {
    var ds := Districts(places);
    if |ds| >= 3 {
      var a :| a in ds;
      assert |ds - {a}| > 0;
      var b :| b in ds - {a};
      assert |ds - {a, b}| > 0;
      var c :| c in ds - {a, b};
      var p :| p in places && p.candidate.district == a && a != "";
      var q :| q in places && q.candidate.district == b && b != "";
      var r :| r in places && r.candidate.district == c && c != "";
      assert DifferentDistricts(p, q) && DifferentDistricts(q, r) && DifferentDistricts(p, r);
    }
    if p, q, r :| (
        p in places && q in places && r in places
        && DifferentDistricts(p, q) && DifferentDistricts(q, r) && DifferentDistricts(p, r)) {
      var three := {p.candidate.district, q.candidate.district, r.candidate.district};
      assert |three| == 3;
      assert three <= ds;
      SubsetSize(three, ds);
    }
  }

  lemma {:induction false} SubsetSize<T>(a: set<T>, b: set<T>)
    requires a <= b
    ensures |a| <= |b|
  {
    if a != {} {
      var x :| x in a;
      SubsetSize(a - {x}, b - {x});
    }
  }

  lemma OneCategory(places: seq<PlanningPlace>)
    requires places != []
    ensures |Categories(places)| == 1 <==>
      !exists p, q :: p in places && q in places && p.candidate.category != q.candidate.category
  {
    var cs := Categories(places);
    assert places[0].candidate.category in cs;
    if p, q :| p in places && q in places && p.candidate.category != q.candidate.category {
      assert {p.candidate.category, q.candidate.category} <= cs;
      SubsetSize({p.candidate.category, q.candidate.category}, cs);
    } else {
      assert forall c :: c in cs ==> c == places[0].candidate.category;
      assert cs == {places[0].candidate.category};
    }
  }

  /** A day raises no conflict exactly when it keeps every limit. */
  lemma NoConflictIffWithinLimits(day: PlannedDay, suburban: Option<bool>)
    ensures DayConflicts(day, suburban) == [] <==> DayWithinLimits(day, suburban)
  {
    TwoDistricts(day.places);
    ThreeDistricts(day.places);
    if |day.places| >= 4 {
      OneCategory(day.places);
    }
  }

  function MissingMust(source: seq<PlanningPlace>, scheduled: set<Id>): seq<Id> {
    if source == [] then []
    else (if source[0].priority == MustVisit && source[0].id !in scheduled then [source[0].id] else [])
         + MissingMust(source[1..], scheduled)
  }

  function ScheduledIds(days: seq<PlannedDay>): set<Id> {
    set day, p | day in days && p in day.places :: p.id
  }

  function MustConflicts(days: seq<PlannedDay>, source: seq<PlanningPlace>): seq<Conflict> {
    var missing := MissingMust(source, ScheduledIds(days));
    if missing == [] then [] else [Conflict(MustVisitMissing, None, missing, false)]
  }

  /** The conflicts of the first `n` days, in day order. */
  function AllDayConflicts(days: seq<PlannedDay>, n: nat, suburban: Option<bool>): seq<Conflict>
    requires n <= |days|
  {
    if n == 0 then [] else AllDayConflicts(days, n - 1, suburban) + DayConflicts(days[n - 1], suburban)
  }

  lemma {:induction false} MissingMustEmpty(source: seq<PlanningPlace>, scheduled: set<Id>)
    ensures MissingMust(source, scheduled) == [] <==>
      forall p :: p in source && p.priority == MustVisit ==> p.id in scheduled
  {
    if source != [] {
      MissingMustEmpty(source[1..], scheduled);
      assert source == [source[0]] + source[1..];
    }
  }

  lemma {:induction false} AllDayConflictsEmpty(days: seq<PlannedDay>, n: nat, suburban: Option<bool>)
    requires n <= |days|
    ensures AllDayConflicts(days, n, suburban) == [] <==>
            forall i :: 0 <= i < n ==> DayWithinLimits(days[i], suburban)
  {
    hide DayWithinLimits, DayConflicts;
    if n > 0 {
      AllDayConflictsEmpty(days, n - 1, suburban);
      NoConflictIffWithinLimits(days[n - 1], suburban);
    }
  }

  /** `_validate`: missing must-visits first, then the conflicts of each day. */
  function ConflictsIn(days: seq<PlannedDay>, source: seq<PlanningPlace>, r: Requirements): seq<Conflict> {
    MustConflicts(days, source) + AllDayConflicts(days, |days|, FlagOf(r, SuburbanAcceptance))
  }

  /** Every must-visit is scheduled and every day keeps its limits. */
  ghost predicate IsSound(days: seq<PlannedDay>, source: seq<PlanningPlace>, r: Requirements) {
    && (forall p :: p in source && p.priority == MustVisit ==> p.id in ScheduledIds(days))
    && forall i :: 0 <= i < |days| ==> DayWithinLimits(days[i], FlagOf(r, SuburbanAcceptance))
  }

  /** The plan raises no conflict exactly when every must-visit is scheduled and every day keeps its limits. */
  lemma NoConflictIffSound(days: seq<PlannedDay>, source: seq<PlanningPlace>, r: Requirements)
    ensures ConflictsIn(days, source, r) == [] <==> IsSound(days, source, r)
  {
    MissingMustEmpty(source, ScheduledIds(days));
    AllDayConflictsEmpty(days, |days|, FlagOf(r, SuburbanAcceptance));
  }

  method Validate(days: seq<PlannedDay>, source: seq<PlanningPlace>, r: Requirements)
    returns (conflicts: seq<Conflict>)
    ensures conflicts == ConflictsIn(days, source, r)
    ensures conflicts == [] <==> IsSound(days, source, r)
  {
    var suburban := FlagOf(r, SuburbanAcceptance);
    conflicts := MustConflicts(days, source);
    for i := 0 to |days|
      invariant conflicts == MustConflicts(days, source) + AllDayConflicts(days, i, suburban)
    {
      var found := DayConflicts(days[i], suburban);
      ConcatAssociative(MustConflicts(days, source), AllDayConflicts(days, i, suburban), found);
      conflicts := conflicts + found;
    }
    NoConflictIffSound(days, source, r);
  }

  /** The conflict names the day, and is repairable exactly if the day has a place to give up. */
  ghost predicate IsAbout(c: Conflict, day: PlannedDay) {
    c.day == Some(day.number) && c.repairable == HasAccepted(day.places)
  }

  lemma {:induction false} DayConflictShape(days: seq<PlannedDay>, n: nat, suburban: Option<bool>, c: Conflict)
    requires n <= |days| && c in AllDayConflicts(days, n, suburban)
    ensures exists i :: 0 <= i < n && IsAbout(c, days[i])
  {
    hide DayConflicts, HasAccepted;
    if c in AllDayConflicts(days, n - 1, suburban) {
      DayConflictShape(days, n - 1, suburban, c);
    } else {
      assert c in DayConflicts(days[n - 1], suburban);
      assert IsAbout(c, days[n - 1]);
    }
  }

  // ---- repair ---------------------------------------------------------------------------------

  /** The last accepted place of a day, the one a repair gives up. */
  function LastAccepted(day: seq<PlanningPlace>): (r: Option<PlanningPlace>)
    ensures r.Some? ==> r.value in day && r.value.priority == Accepted
    ensures r.None? <==> !HasAccepted(day)
  {
    if day == [] then None
    else
      var last := |day| - 1;
      assert day == day[..last] + [day[last]];
      if day[last].priority == Accepted then Some(day[last]) else LastAccepted(day[..last])
  }

  function RepairOne(arranged: Schedule, conflict: Conflict): (r: Schedule)
    requires conflict.day.Some? ==> 1 <= conflict.day.value <= |arranged|
    ensures |r| == |arranged|
  {
    match conflict.day
    case None => arranged
    case Some(number) =>
      match LastAccepted(arranged[number - 1])
      case None => arranged
      case Some(place) => arranged[number - 1 := RemoveFirst(arranged[number - 1], place)]
  }

  predicate DaysExist(conflicts: seq<Conflict>, days: nat) {
    forall i :: 0 <= i < |conflicts| ==> conflicts[i].day.Some? ==> 1 <= conflicts[i].day.value <= days
  }

  /** `_repair` on a list of conflicts, one after another. */
  function Repaired(arranged: Schedule, conflicts: seq<Conflict>): (r: Schedule)
    requires DaysExist(conflicts, |arranged|)
    ensures |r| == |arranged|
  {
    if conflicts == [] then arranged
    else RepairOne(Repaired(arranged, conflicts[..|conflicts| - 1]), conflicts[|conflicts| - 1])
  }

  /** `later` schedules `earlier` minus `dropped`, and only accepted places were dropped. */
  ghost predicate Shrunk(earlier: Schedule, later: Schedule, dropped: multiset<PlanningPlace>) {
    && multiset(Flatten(later)) + dropped == multiset(Flatten(earlier))
    && forall p :: p in dropped ==> p.priority == Accepted
  }

  /** What is taken out of a part is missing from the whole. */
  lemma TakenOut<T>(before: multiset<T>, after: multiset<T>, part: multiset<T>, kept: multiset<T>, dropped: multiset<T>)
    requires after + part == before + kept && kept + dropped == part
    ensures after + dropped == before
  {
    forall x ensures (after + dropped)[x] == before[x] {
      assert (after + part)[x] == (before + kept)[x];
    }
  }

  /** A day gives up one accepted place. */
  lemma GiveUp(arranged: Schedule, k: nat, place: PlanningPlace)
    requires k < |arranged| && place in arranged[k] && place.priority == Accepted
    ensures Shrunk(arranged, arranged[k := RemoveFirst(arranged[k], place)], multiset{place})
  {
    hide Flatten, HasAccepted;
    var kept := RemoveFirst(arranged[k], place);
    FlattenUpdate(arranged, k, kept);
    TakenOut(multiset(Flatten(arranged)), multiset(Flatten(arranged[k := kept])), multiset(arranged[k]), multiset(kept),
      multiset{place});
  }

  lemma NoneGivenUp(arranged: Schedule)
    ensures Shrunk(arranged, arranged, multiset{})
  {
  }

  lemma RepairOneShrinks(arranged: Schedule, conflict: Conflict) returns (dropped: multiset<PlanningPlace>)
    requires conflict.day.Some? ==> 1 <= conflict.day.value <= |arranged|
    ensures Shrunk(arranged, RepairOne(arranged, conflict), dropped)
    ensures conflict.day.Some? && HasAccepted(arranged[conflict.day.value - 1]) ==> |dropped| == 1
  {
    hide Shrunk, HasAccepted, LastAccepted;
    dropped := multiset{};
    NoneGivenUp(arranged);
    if conflict.day.Some? {
      var k := conflict.day.value - 1;
      var place := LastAccepted(arranged[k]);
      if place.Some? {
        dropped := multiset{place.value};
        GiveUp(arranged, k, place.value);
      }
    }
  }

  lemma ShrunkTwice(
    first: Schedule, second: Schedule, third: Schedule, d1: multiset<PlanningPlace>, d2: multiset<PlanningPlace>)
    requires Shrunk(first, second, d1) && Shrunk(second, third, d2)
    ensures Shrunk(first, third, d1 + d2)
    ensures |d1 + d2| == |d1| + |d2|
  {
    assert multiset(Flatten(third)) + (d1 + d2) == (multiset(Flatten(third)) + d2) + d1;
  }

  /** The first conflict names a day that can give up a place. */
  ghost predicate Urgent(arranged: Schedule, conflicts: seq<Conflict>)
    requires DaysExist(conflicts, |arranged|)
  {
    conflicts != [] && conflicts[0].day.Some? && HasAccepted(arranged[conflicts[0].day.value - 1])
  }

  /** What the first `i` conflicts have come to. */
  ghost predicate RepairedBy(
    arranged: Schedule, conflicts: seq<Conflict>, i: nat, repaired: Schedule, dropped: multiset<PlanningPlace>)
    requires DaysExist(conflicts, |arranged|)
  {
    && i <= |conflicts| && repaired == Repaired(arranged, conflicts[..i]) && Shrunk(arranged, repaired, dropped)
    && (i == 0 ==> repaired == arranged) && (i > 0 && Urgent(arranged, conflicts) ==> |dropped| >= 1)
  }

  lemma NothingRepaired(arranged: Schedule, conflicts: seq<Conflict>)
    requires DaysExist(conflicts, |arranged|)
    ensures RepairedBy(arranged, conflicts, 0, arranged, multiset{})
  {
  }

  lemma AllRepaired(arranged: Schedule, conflicts: seq<Conflict>, repaired: Schedule, dropped: multiset<PlanningPlace>)
    requires DaysExist(conflicts, |arranged|) && RepairedBy(arranged, conflicts, |conflicts|, repaired, dropped)
    ensures repaired == Repaired(arranged, conflicts) && Shrunk(arranged, repaired, dropped)
    ensures Urgent(arranged, conflicts) ==> |dropped| >= 1
  {
    assert conflicts[..|conflicts|] == conflicts;
  }

  lemma OneMoreRepaired(
    arranged: Schedule, conflicts: seq<Conflict>, i: nat, repaired: Schedule, dropped: multiset<PlanningPlace>)
    returns (more: multiset<PlanningPlace>)
    requires DaysExist(conflicts, |arranged|) && RepairedBy(arranged, conflicts, i, repaired, dropped)
    requires i < |conflicts|
    ensures RepairedBy(arranged, conflicts, i + 1, RepairOne(repaired, conflicts[i]), dropped + more)
  {
    hide Shrunk, RepairOne, HasAccepted;
    more := RepairOneShrinks(repaired, conflicts[i]);
    ShrunkTwice(arranged, repaired, RepairOne(repaired, conflicts[i]), dropped, more);
    assert conflicts[..i + 1][..i] == conflicts[..i];
  }

  method Repair(arranged: Schedule, conflicts: seq<Conflict>)
    returns (repaired: Schedule, ghost dropped: multiset<PlanningPlace>)
    requires DaysExist(conflicts, |arranged|)
    ensures repaired == Repaired(arranged, conflicts)
    ensures Shrunk(arranged, repaired, dropped)
    ensures Urgent(arranged, conflicts) ==> |dropped| >= 1
  {
    hide Shrunk, Repaired, RepairedBy, Urgent, HasAccepted;
    repaired, dropped := arranged, multiset{};
    NothingRepaired(arranged, conflicts);
    for i := 0 to |conflicts|
      invariant |repaired| == |arranged| && RepairedBy(arranged, conflicts, i, repaired, dropped)
    {
      ghost var more := OneMoreRepaired(arranged, conflicts, i, repaired, dropped);
      dropped := dropped + more;
      if conflicts[i].day.Some? {
        var k := conflicts[i].day.value - 1;
        var removable := LastAccepted(repaired[k]);
        if removable.Some? {
          repaired := repaired[k := RemoveFirst(repaired[k], removable.value)];
        }
      }
    }
    AllRepaired(arranged, conflicts, repaired, dropped);
  }
}
