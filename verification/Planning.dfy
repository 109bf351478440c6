/** `ItineraryPlanningService.plan`: preflight, arrangement and the bounded repair loop. */
module Planning {
  import opened Wrappers
  import opened Sequences
  import opened RequirementData
  import opened SnapshotData
  import opened Providers
  import opened PlannerData
  import opened Optimizer
  import opened Arranging
  import opened ArrangingTheorems
  import opened Planner

  /** What attempt `a` hears about day index `i`. */
  type Legs = (nat, nat) -> DayAnswers

  const WITHOUT_PROVIDER_ID: PlanningPlace -> bool := (p: PlanningPlace) => p.candidate.providerPlaceId == ""

  function IdSet(places: seq<PlanningPlace>): set<Id> {
    set p | p in places :: p.id
  }

  /** `_preflight`. */
  function Preflight(r: Requirements, places: seq<PlanningPlace>): seq<Conflict> {
    var days := NumberOf(r, Days).GetOr(0);
    var invalid := Filter(places, WITHOUT_PROVIDER_ID);
    var ids := IdSet(places);
    var missing := Filter(IdsOf(r, MustVisitIds), (id: Id) => id !in ids);
    var excluded := set id | id in IdsOf(r, ExcludedIds) && id in ids;
    (if TextsOf(r, MustVisitTexts) != [] then [Conflict(UnresolvedMustVisit, None, [], false)] else [])
    + (if !(1 <= days <= 7) || !(3 <= |places| <= 15) then [Conflict(PlaceCountOutOfRange, None, [], false)] else [])
    + (if invalid != [] then [Conflict(InvalidPlaceFact, None, IdsOfPlaces(invalid), false)] else [])
    + (if missing != [] then [Conflict(MustVisitMissing, None, missing, false)] else [])
    + (if excluded != {} then [Conflict(ExcludedPlacePresent, None, SortedIds(excluded), false)] else [])
  }

  ghost predicate Plannable(r: Requirements, places: seq<PlanningPlace>) {
    && TextsOf(r, MustVisitTexts) == []
    && NumberOf(r, Days).Some? && 1 <= NumberOf(r, Days).value <= 7
    && 3 <= |places| <= 15
    && (forall p :: p in places ==> p.candidate.providerPlaceId != "")
    && (forall id :: id in IdsOf(r, MustVisitIds) ==> id in IdSet(places))
    && (forall id :: id in IdsOf(r, ExcludedIds) ==> id !in IdSet(places))
  }

  lemma PreflightIffPlannable(r: Requirements, places: seq<PlanningPlace>)
    ensures Preflight(r, places) == [] <==> Plannable(r, places)
  {
    var ids := IdSet(places);
    FilterMembers(places, WITHOUT_PROVIDER_ID);
    FilterMembers(IdsOf(r, MustVisitIds), (id: Id) => id !in ids);
    var invalid := Filter(places, WITHOUT_PROVIDER_ID);
    if invalid != [] {
      assert invalid[0] in invalid;
    }
    var missing := Filter(IdsOf(r, MustVisitIds), (id: Id) => id !in ids);
    if missing != [] {
      assert missing[0] in missing;
    }
    var excluded := set id | id in IdsOf(r, ExcludedIds) && id in ids;
    assert forall id :: id in IdsOf(r, ExcludedIds) && id in ids ==> id in excluded;
    if excluded != {} {
      var id :| id in excluded;
      assert id in IdsOf(r, ExcludedIds) && id in IdSet(places);
    }
  }

  predicate Anchored(day: PlannedDay) {
    day.places != [] && day.date.Some?
  }

  function AnchorFact(day: PlannedDay, forecast: Option<ForecastFact>): Weather
    requires Anchored(day)
  {
    FactOf(day.places[0].id, day.date.value, forecast)
  }

  /** One weather fact per dated, non-empty day among the first `n`, about its first place. */
  function WeatherFacts(days: seq<PlannedDay>, n: nat, outlooks: Outlooks): seq<Weather>
    requires n <= |days|
  {
    if n == 0 then []
    else WeatherFacts(days, n - 1, outlooks)
         + (if Anchored(days[n - 1]) then [AnchorFact(days[n - 1], outlooks(n - 1).forecast)] else [])
  }

  /** The warnings in force at the first places of the dated, non-empty days among the first `n`. */
  function WarningsFor(days: seq<PlannedDay>, n: nat, outlooks: Outlooks): seq<Alert>
    requires n <= |days|
  {
    if n == 0 then []
    else WarningsFor(days, n - 1, outlooks)
         + (if Anchored(days[n - 1]) then AlertsAt(days[n - 1].places[0].id, outlooks(n - 1).alerts) else [])
  }

  function AlertsAt(place: Id, alerts: seq<string>): seq<Alert> {
    Map(alerts, (text: string) => Alert(place, text))
  }

  method FetchWeather(days: seq<PlannedDay>, outlooks: Outlooks)
    returns (weather: seq<Weather>, warnings: seq<Alert>, degraded: bool)
    ensures weather == WeatherFacts(days, |days|, outlooks)
    ensures warnings == WarningsFor(days, |days|, outlooks)
    ensures degraded <==> exists i :: 0 <= i < |days| && Anchored(days[i]) && outlooks(i).forecast.None?
  {
    weather, warnings, degraded := [], [], false;
    for i := 0 to |days|
      invariant weather == WeatherFacts(days, i, outlooks)
      invariant warnings == WarningsFor(days, i, outlooks)
      invariant degraded <==> exists j :: 0 <= j < i && Anchored(days[j]) && outlooks(j).forecast.None?
    {
      if Anchored(days[i]) {
        weather := weather + [AnchorFact(days[i], outlooks(i).forecast)];
        warnings := warnings + AlertsAt(days[i].places[0].id, outlooks(i).alerts);
        degraded := degraded || outlooks(i).forecast.None?;
      }
    }
  }

  const IS_REPAIRABLE: Conflict -> bool := (c: Conflict) => c.repairable
  const IS_BLOCKING: Conflict -> bool := (c: Conflict) => !c.repairable

  /** The draft's days route the schedule `arranged` with the legs of the attempt that produced it. */
  ghost predicate RoutedSchedule(
    days: seq<PlannedDay>, r: Requirements, arranged: Schedule,
    capacity: Capacity, d: Distance, legs: Legs, attempt: nat)
  {
    && |days| == |arranged|
    && forall i :: 0 <= i < |days| ==>
         && Routed(days[i], i + 1, r, arranged[i], capacity, d)
         && LegsFollow(days[i], legs(attempt, i).legs, ModeOf(r))
  }

  /** All days of the schedule, routed in one attempt. */
  function RoutedDays(
    arranged: Schedule, r: Requirements, capacity: Capacity,
    d: Distance, legs: Legs, attempt: nat): (days: seq<PlannedDay>)
    ensures |days| == |arranged|
    ensures forall i ::
        0 <= i < |arranged| ==> days[i] == RoutedDay(i + 1, r, arranged[i], capacity, d, legs(attempt, i))
  {
    seq(|arranged|, i requires 0 <= i < |arranged| => RoutedDay(i + 1, r, arranged[i], capacity, d, legs(attempt, i)))
  }

  method RouteAll(
    arranged: Schedule, r: Requirements, capacity: Capacity, d: Distance, legs: Legs, attempt: nat)
    returns (planned: seq<PlannedDay>)
    requires IsDistance(d)
    ensures RoutedSchedule(planned, r, arranged, capacity, d, legs, attempt)
    ensures planned == RoutedDays(arranged, r, capacity, d, legs, attempt)
  {
    hide IsDistance, RoutedDay, Routed, LegsFollow, RoutedSchedule, RoutedDays;
    planned := [];
    for i := 0 to |arranged|
      invariant |planned| == i
      invariant forall j {:trigger planned[j]} ::
          0 <= j < i ==> DayRouted(planned[j], j, r, arranged[j], capacity, d, legs(attempt, j))
    {
      var day := RouteDay(i + 1, r, arranged[i], capacity, d, legs(attempt, i));
      planned := planned + [day];
    }
    AllRouted(planned, r, arranged, capacity, d, legs, attempt);
  }

  ghost predicate DayRouted(
    day: PlannedDay, i: nat, r: Requirements, stops: seq<PlanningPlace>,
    capacity: Capacity, d: Distance, answers: DayAnswers)
  {
    && day == RoutedDay(i + 1, r, stops, capacity, d, answers)
    && Routed(day, i + 1, r, stops, capacity, d) && LegsFollow(day, answers.legs, ModeOf(r))
  }

  lemma AllRouted(
    planned: seq<PlannedDay>, r: Requirements, arranged: Schedule,
    capacity: Capacity, d: Distance, legs: Legs, attempt: nat)
    requires |planned| == |arranged|
    requires forall j {:trigger planned[j]} :: 0 <= j < |planned| ==>
      DayRouted(planned[j], j, r, arranged[j], capacity, d, legs(attempt, j))
    ensures RoutedSchedule(planned, r, arranged, capacity, d, legs, attempt)
    ensures planned == RoutedDays(arranged, r, capacity, d, legs, attempt)
  {
    var days := RoutedDays(arranged, r, capacity, d, legs, attempt);
    forall j | 0 <= j < |planned| ensures planned[j] == days[j] {
      assert DayRouted(planned[j], j, r, arranged[j], capacity, d, legs(attempt, j));
    }
  }

  method HasUnverified(days: seq<PlannedDay>) returns (b: bool)
    ensures b <==> exists day, s :: day in days && s in day.segments && s.status != Verified
  {
    b := exists day :: day in days && exists s :: s in day.segments && s.status != Verified;
  }

  /** A conflict names a day of the schedule that still holds an accepted place to give up. */
  ghost predicate CanGiveUp(arranged: Schedule, c: Conflict) {
    c.day.Some? && 1 <= c.day.value <= |arranged| && HasAccepted(arranged[c.day.value - 1])
  }

  lemma RepairableCanGiveUp(
    planned: seq<PlannedDay>, arranged: Schedule, suburban: Option<bool>, c: Conflict)
    requires |planned| == |arranged|
    requires forall i :: 0 <= i < |planned| ==>
        planned[i].number == i + 1 && multiset(planned[i].places) == multiset(arranged[i])
    requires c in AllDayConflicts(planned, |planned|, suburban) && c.repairable
    ensures CanGiveUp(arranged, c)
  {
    DayConflictShape(planned, |planned|, suburban, c);
    var i :| 0 <= i < |planned| && IsAbout(c, planned[i]);
    AcceptedStays(planned[i].places, arranged[i]);
  }

  lemma AcceptedStays(a: seq<PlanningPlace>, b: seq<PlanningPlace>)
    requires multiset(a) == multiset(b) && HasAccepted(a)
    ensures HasAccepted(b)
  {
    var p :| p in a && p.priority == Accepted;
    assert p in multiset(a) && p in multiset(b);
  }

  lemma RepairableIsAboutADay(
    planned: seq<PlannedDay>, places: seq<PlanningPlace>, suburban: Option<bool>, c: Conflict)
    requires c in MustConflicts(planned, places) + AllDayConflicts(planned, |planned|, suburban) && c.repairable
    ensures c in AllDayConflicts(planned, |planned|, suburban)
  {
  }

  /** One round of the loop: route every day of the schedule, then validate. */
  method Attempt(
    schedule: Schedule, places: seq<PlanningPlace>, r: Requirements, capacity: Capacity, d: Distance,
    legs: Legs, attempt: nat)
    returns (planned: seq<PlannedDay>, conflicts: seq<Conflict>)
    requires IsDistance(d)
    ensures RoutedSchedule(planned, r, schedule, capacity, d, legs, attempt)
    ensures planned == RoutedDays(schedule, r, capacity, d, legs, attempt)
    ensures conflicts == ConflictsIn(planned, places, r)
    ensures conflicts == [] ==> forall day :: day in planned ==> DayWithinLimits(day, FlagOf(r, SuburbanAcceptance))
    ensures forall c :: c in conflicts && c.repairable ==> CanGiveUp(schedule, c)
  {
    var suburban := FlagOf(r, SuburbanAcceptance);
    planned := RouteAll(schedule, r, capacity, d, legs, attempt);
    conflicts := Validate(planned, places, r);
    AllDayConflictsEmpty(planned, |planned|, suburban);
    forall c | c in conflicts && c.repairable ensures CanGiveUp(schedule, c) {
      RepairableIsAboutADay(planned, places, suburban, c);
      RepairableCanGiveUp(planned, schedule, suburban, c);
    }
  }

  /** What the loop maintains about the schedule still under repair. */
  ghost predicate Conserved(
    schedule: Schedule, dropped: multiset<PlanningPlace>, places: seq<PlanningPlace>, attempts: nat)
  {
    && multiset(Flatten(schedule)) + dropped == multiset(places)
    && (forall p :: p in dropped ==> p.priority == Accepted)
    && |dropped| >= attempts
  }

  lemma StillConserved(
    schedule: Schedule, repaired: Schedule, dropped: multiset<PlanningPlace>, more: multiset<PlanningPlace>,
    places: seq<PlanningPlace>, attempts: nat)
    requires Conserved(schedule, dropped, places, attempts)
    requires Shrunk(schedule, repaired, more) && |more| >= 1
    ensures Conserved(repaired, dropped + more, places, attempts + 1)
  {
    assert multiset(Flatten(repaired)) + (dropped + more) == (multiset(Flatten(repaired)) + more) + dropped;
  }

  /** Every conflict is repairable or blocking. */
  lemma RepairableOrBlocking(conflicts: seq<Conflict>)
    requires conflicts != []
    ensures Filter(conflicts, IS_BLOCKING) != [] || Filter(conflicts, IS_REPAIRABLE) == [] ==> SomeBlocking(conflicts)
  {
    var blocking := Filter(conflicts, IS_BLOCKING);
    if blocking != [] {
      FilterMember(conflicts, IS_BLOCKING, blocking[0]);
    }
    FilterMember(conflicts, IS_REPAIRABLE, conflicts[0]);
  }

  ghost predicate SomeBlocking(conflicts: seq<Conflict>) {
    exists c :: c in conflicts && !c.repairable
  }

  lemma LastBlocks(conflicts: seq<Conflict>)
    requires conflicts != [] && !conflicts[|conflicts| - 1].repairable
    ensures SomeBlocking(conflicts)
  {
  }

  /** `_repair` on the repairable conflicts of a failed round: at least one accepted place goes. */
  method RepairRound(schedule: Schedule, conflicts: seq<Conflict>)
    returns (repaired: Schedule, ghost dropped: multiset<PlanningPlace>)
    requires Filter(conflicts, IS_REPAIRABLE) != []
    requires forall c :: c in conflicts && c.repairable ==> CanGiveUp(schedule, c)
    ensures DaysExist(Filter(conflicts, IS_REPAIRABLE), |schedule|)
    ensures repaired == Repaired(schedule, Filter(conflicts, IS_REPAIRABLE))
    ensures Shrunk(schedule, repaired, dropped) && |dropped| >= 1
  {
    hide Filter, HasAccepted, Shrunk, Repaired;
    var repairable := Filter(conflicts, IS_REPAIRABLE);
    forall i | 0 <= i < |repairable| ensures CanGiveUp(schedule, repairable[i]) {
      FilterMember(conflicts, IS_REPAIRABLE, repairable[i]);
    }
    assert CanGiveUp(schedule, repairable[0]);
    repaired, dropped := Repair(schedule, repairable);
  }

  /** The part of the promise that the loop establishes. */
  ghost predicate Drafted(
    r: Requirements, places: seq<PlanningPlace>, capacity: Capacity, d: Distance, legs: Legs, outlooks: Outlooks,
    draft: Draft, arranged: Schedule, dropped: multiset<PlanningPlace>)
  {
    && draft.repairAttempts <= 3
    && RoutedSchedule(draft.days, r, arranged, capacity, d, legs, draft.repairAttempts)
    && Conserved(arranged, dropped, places, draft.repairAttempts)
    && (forall day :: day in draft.days ==> DayWithinLimits(day, FlagOf(r, SuburbanAcceptance)))
    && draft.weather == WeatherFacts(draft.days, |draft.days|, outlooks)
    && draft.warnings == WarningsFor(draft.days, |draft.days|, outlooks)
    && (draft.degraded <==>
          || (exists i :: 0 <= i < |draft.days| && Anchored(draft.days[i]) && outlooks(i).forecast.None?)
          || exists day, s :: day in draft.days && s in day.segments && s.status != Verified)
  }

  ghost predicate Degraded(days: seq<PlannedDay>, outlooks: Outlooks) {
    || (exists i :: 0 <= i < |days| && Anchored(days[i]) && outlooks(i).forecast.None?)
    || exists day, s :: day in days && s in day.segments && s.status != Verified
  }

  ghost function DraftOf(days: seq<PlannedDay>, outlooks: Outlooks, attempts: nat): Draft {
    Draft(days, WeatherFacts(days, |days|, outlooks),
          WarningsFor(days, |days|, outlooks), attempts, Degraded(days, outlooks))
  }

  /** The repairable conflicts of an attempt name days of its schedule. */
  lemma RepairableDaysExist(
    schedule: Schedule, places: seq<PlanningPlace>, r: Requirements,
    capacity: Capacity, d: Distance, legs: Legs, attempt: nat)
    ensures var conflicts := ConflictsIn(RoutedDays(schedule, r, capacity, d, legs, attempt), places, r);
      DaysExist(Filter(conflicts, IS_REPAIRABLE), |schedule|)
  {
    var planned, suburban := RoutedDays(schedule, r, capacity, d, legs, attempt), FlagOf(r, SuburbanAcceptance);
    var repairable := Filter(ConflictsIn(planned, places, r), IS_REPAIRABLE);
    forall i | 0 <= i < |repairable| ensures repairable[i].day.Some? ==> 1 <= repairable[i].day.value <= |schedule| {
      FilterMember(ConflictsIn(planned, places, r), IS_REPAIRABLE, repairable[i]);
      RepairableIsAboutADay(planned, places, suburban, repairable[i]);
      DayConflictShape(planned, |planned|, suburban, repairable[i]);
      var k :| 0 <= k < |planned| && IsAbout(repairable[i], planned[k]);
    }
  }

  /** The loop of `plan` as a function: its result, and the schedule of its last attempt. */
  ghost function Rounds(
    schedule: Schedule, places: seq<PlanningPlace>, r: Requirements, capacity: Capacity, d: Distance,
    legs: Legs, outlooks: Outlooks, attempts: nat): (o: (PlanningResult, Schedule))
    requires attempts <= 3
    ensures |o.1| == |schedule|
    decreases 3 - attempts
  {
    var planned := RoutedDays(schedule, r, capacity, d, legs, attempts);
    var conflicts := ConflictsIn(planned, places, r);
    var repairable := Filter(conflicts, IS_REPAIRABLE);
    if conflicts == [] then (PlanningResult(true, Some(DraftOf(planned, outlooks, attempts)), []), schedule)
    else if Filter(conflicts, IS_BLOCKING) != [] || repairable == [] || attempts == 3 then
      (PlanningResult(false, None,
         if attempts == 3 && repairable != []
         then conflicts + [Conflict(RepairExhausted, None, [], false)]
         else conflicts),
             schedule)
    else
      RepairableDaysExist(schedule, places, r, capacity, d, legs, attempts);
      Rounds(Repaired(schedule, repairable), places, r, capacity, d, legs, outlooks, attempts + 1)
  }

  /** `plan` as a function. */
  ghost function Planned(
    r: Requirements, places: seq<PlanningPlace>, d: Distance, preferred: Preferred, legs: Legs,
        outlooks: Outlooks): PlanningResult
    requires KnownIntensity(IntensityOf(r))
  {
    if Preflight(r, places) != [] then PlanningResult(false, None, Preflight(r, places))
    else
      PreflightIffPlannable(r, places);
      var capacity := CapacityTemplate(IntensityOf(r));
      Rounds(Arranged(places, NumberOf(r, Days).value, capacity.maximumPlaces, preferred), places, r, capacity, d, legs,
          outlooks, 0).0
  }

  /** The accepting exit of the loop: weather is fetched and the draft assembled. */
  method Finish(
    planned: seq<PlannedDay>, places: seq<PlanningPlace>, r: Requirements, capacity: Capacity, d: Distance,
    legs: Legs, outlooks: Outlooks, attempts: nat, ghost schedule: Schedule, ghost dropped: multiset<PlanningPlace>)
    returns (draft: Draft)
    requires attempts <= 3
    requires RoutedSchedule(planned, r, schedule, capacity, d, legs, attempts)
    requires Conserved(schedule, dropped, places, attempts)
    requires forall day :: day in planned ==> DayWithinLimits(day, FlagOf(r, SuburbanAcceptance))
    ensures draft == DraftOf(planned, outlooks, attempts)
    ensures Drafted(r, places, capacity, d, legs, outlooks, draft, schedule, dropped)
  {
    var weather, warnings, missing := FetchWeather(planned, outlooks);
    var unverified := HasUnverified(planned);
    draft := Draft(planned, weather, warnings, attempts, missing || unverified);
  }

  /** Going on from `schedule` gives `outcome`. */
  ghost predicate RoundsTo(
    schedule: Schedule, places: seq<PlanningPlace>, r: Requirements, capacity: Capacity, d: Distance,
    legs: Legs, outlooks: Outlooks, attempts: nat, outcome: (PlanningResult, Schedule))
  {
    attempts <= 3 && Rounds(schedule, places, r, capacity, d, legs, outlooks, attempts) == outcome
  }

  lemma RoundAccepts(
    schedule: Schedule, places: seq<PlanningPlace>, r: Requirements, capacity: Capacity, d: Distance, legs: Legs,
    outlooks: Outlooks, attempts: nat, outcome: (PlanningResult, Schedule), planned: seq<PlannedDay>, draft: Draft)
    requires RoundsTo(schedule, places, r, capacity, d, legs, outlooks, attempts, outcome)
    requires planned == RoutedDays(schedule, r, capacity, d, legs, attempts) && ConflictsIn(planned, places, r) == []
    requires draft == DraftOf(planned, outlooks, attempts)
    ensures outcome == (PlanningResult(true, Some(draft), []), schedule)
  {
  }

  lemma RoundFails(
    schedule: Schedule, places: seq<PlanningPlace>, r: Requirements, capacity: Capacity, d: Distance,
    legs: Legs, outlooks: Outlooks, attempts: nat, outcome: (PlanningResult, Schedule), conflicts: seq<Conflict>)
    requires RoundsTo(schedule, places, r, capacity, d, legs, outlooks, attempts, outcome)
    requires conflicts == ConflictsIn(RoutedDays(schedule, r, capacity, d, legs, attempts), places, r)
    requires conflicts != []
    requires (Filter(conflicts, IS_BLOCKING) != [] || Filter(conflicts, IS_REPAIRABLE) == [] || attempts == 3)
    requires !(attempts == 3 && Filter(conflicts, IS_REPAIRABLE) != [])
    ensures outcome == (PlanningResult(false, None, conflicts), schedule)
  {
  }

  lemma RoundExhausts(
    schedule: Schedule, places: seq<PlanningPlace>, r: Requirements, capacity: Capacity, d: Distance,
    legs: Legs, outlooks: Outlooks, attempts: nat, outcome: (PlanningResult, Schedule), conflicts: seq<Conflict>)
    requires RoundsTo(schedule, places, r, capacity, d, legs, outlooks, attempts, outcome)
    requires conflicts == ConflictsIn(RoutedDays(schedule, r, capacity, d, legs, attempts), places, r)
    requires conflicts != [] && Filter(conflicts, IS_REPAIRABLE) != [] && attempts == 3
    ensures outcome == (PlanningResult(false, None, conflicts + [Conflict(RepairExhausted, None, [], false)]), schedule)
  {
  }

  lemma RoundGoesOn(
    schedule: Schedule, places: seq<PlanningPlace>, r: Requirements, capacity: Capacity, d: Distance,
    legs: Legs, outlooks: Outlooks, attempts: nat, outcome: (PlanningResult, Schedule), conflicts: seq<Conflict>)
    requires RoundsTo(schedule, places, r, capacity, d, legs, outlooks, attempts, outcome)
    requires conflicts == ConflictsIn(RoutedDays(schedule, r, capacity, d, legs, attempts), places, r)
    requires conflicts != [] && Filter(conflicts, IS_BLOCKING) == [] && Filter(conflicts, IS_REPAIRABLE) != []
    requires attempts < 3
    ensures DaysExist(Filter(conflicts, IS_REPAIRABLE), |schedule|)
    ensures RoundsTo(Repaired(schedule, Filter(conflicts, IS_REPAIRABLE)), places,
                     r, capacity, d, legs, outlooks, attempts + 1, outcome)
  {
    RepairableDaysExist(schedule, places, r, capacity, d, legs, attempts);
  }

  method RepairLoop(
    first: Schedule, places: seq<PlanningPlace>, r: Requirements, capacity: Capacity, d: Distance,
    legs: Legs, outlooks: Outlooks)
    returns (result: PlanningResult, ghost arranged: Schedule, ghost dropped: multiset<PlanningPlace>)
    requires IsDistance(d)
    requires multiset(Flatten(first)) == multiset(places)
    ensures (result, arranged) == Rounds(first, places, r, capacity, d, legs, outlooks, 0)
    ensures result.feasible ==> result.draft.Some? && result.conflicts == []
    ensures result.feasible ==>
              Drafted(r, places, capacity, d, legs, outlooks, result.draft.value, arranged, dropped)
    ensures !result.feasible ==> result.draft.None? && SomeBlocking(result.conflicts)
  {
    var schedule := first;
    dropped := multiset{};
    var attempts := 0;
    ghost var outcome := Rounds(first, places, r, capacity, d, legs, outlooks, 0);
    while attempts <= 3
      invariant attempts <= 3
      invariant RoundsTo(schedule, places, r, capacity, d, legs, outlooks, attempts, outcome)
      invariant Conserved(schedule, dropped, places, attempts)
      decreases 3 - attempts
    {
      var planned, conflicts := Attempt(schedule, places, r, capacity, d, legs, attempts);
      var repairable := Filter(conflicts, IS_REPAIRABLE);
      var blocking := Filter(conflicts, IS_BLOCKING);
      if conflicts == [] {
        var draft := Finish(planned, places, r, capacity, d, legs, outlooks, attempts, schedule, dropped);
        RoundAccepts(schedule, places, r, capacity, d, legs, outlooks, attempts, outcome, planned, draft);
        return PlanningResult(true, Some(draft), []), schedule, dropped;
      }
      RepairableOrBlocking(conflicts);
      if blocking != [] || repairable == [] || attempts == 3 {
        if attempts == 3 && repairable != [] {
          RoundExhausts(schedule, places, r, capacity, d, legs, outlooks, attempts, outcome, conflicts);
          conflicts := conflicts + [Conflict(RepairExhausted, None, [], false)];
          LastBlocks(conflicts);
        } else {
          RoundFails(schedule, places, r, capacity, d, legs, outlooks, attempts, outcome, conflicts);
        }
        return PlanningResult(false, None, conflicts), schedule, dropped;
      }
      RoundGoesOn(schedule, places, r, capacity, d, legs, outlooks, attempts, outcome, conflicts);
      var repaired, more := RepairRound(schedule, conflicts);
      StillConserved(schedule, repaired, dropped, more, places, attempts);
      schedule, dropped, attempts := repaired, dropped + more, attempts + 1;
    }
    assert false;
  }

  /** Everything a feasible result promises; `arranged` and `dropped` are its witnesses. */
  ghost predicate PlanPromise(
    r: Requirements, places: seq<PlanningPlace>, d: Distance, legs: Legs, outlooks: Outlooks,
    draft: Draft, arranged: Schedule, dropped: multiset<PlanningPlace>)
    requires KnownIntensity(IntensityOf(r))
  {
    && Plannable(r, places)
    && |draft.days| == NumberOf(r, Days).value
    && Drafted(r, places, CapacityTemplate(IntensityOf(r)), d, legs, outlooks, draft, arranged, dropped)
  }

  method Plan(
    r: Requirements, places: seq<PlanningPlace>, d: Distance, preferred: Preferred, legs: Legs, outlooks: Outlooks)
    returns (result: PlanningResult, ghost arranged: Schedule, ghost dropped: multiset<PlanningPlace>)
    requires IsDistance(d)
    requires KnownIntensity(IntensityOf(r))
    ensures result == Planned(r, places, d, preferred, legs, outlooks)
    ensures result.feasible ==> result.draft.Some? && result.conflicts == []
    ensures result.feasible ==> PlanPromise(r, places, d, legs, outlooks, result.draft.value, arranged, dropped)
    ensures !result.feasible ==> result.draft.None? && result.conflicts != []
    ensures !Plannable(r, places) ==> !result.feasible && result.conflicts == Preflight(r, places)
    ensures Plannable(r, places) && !result.feasible ==> SomeBlocking(result.conflicts)
  {
    var preflight := Preflight(r, places);
    PreflightIffPlannable(r, places);
    if preflight != [] {
      return PlanningResult(false, None, preflight), [], multiset{};
    }
    var days := NumberOf(r, Days).GetOr(0);
    var capacity := CapacityTemplate(IntensityOf(r));
    var schedule := Arrange(places, days, capacity.maximumPlaces, preferred);
    ArrangedPartitions(places, days, capacity.maximumPlaces, preferred);
    result, arranged, dropped := RepairLoop(schedule, places, r, capacity, d, legs, outlooks);
  }
}
