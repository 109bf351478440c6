/** What repairs do to a single day, and when a feasible plan contains an empty one. */
module RepairedDays {
  import opened Wrappers
  import opened Sequences
  import opened RequirementData
  import opened SnapshotData
  import opened Providers
  import opened PlannerData
  import opened GreedyRoute
  import opened Optimizer
  import opened Arranging
  import opened Planner
  import opened Planning

  // ---- counting -------------------------------------------------------------------------------

  const IS_ACCEPTED: PlanningPlace -> bool := (p: PlanningPlace) => p.priority == Accepted

  /** How many places of a day repairs may take. */
  function Removable(day: seq<PlanningPlace>): nat {
    |Filter(day, IS_ACCEPTED)|
  }

  /** How many conflicts name day index `k`. */
  function Naming(conflicts: seq<Conflict>, k: nat): nat {
    |Filter(conflicts, (c: Conflict) => c.day == Some(k + 1))|
  }

  function Smaller(a: nat, b: nat): nat {
    if a <= b then a else b
  }

  lemma {:induction false} CountWithout<T>(s: seq<T>, x: T, p: T -> bool)
    requires x in s
    ensures |Filter(RemoveFirst(s, x), p)| == |Filter(s, p)| - if p(x) then 1 else 0
  {
    if s[0] != x {
      assert s == [s[0]] + s[1..];
      var rest := RemoveFirst(s[1..], x);
      CountWithout(s[1..], x, p);
      assert RemoveFirst(s, x) == [s[0]] + rest && ([s[0]] + rest)[1..] == rest;
    }
  }

  lemma {:induction false} RemovableAtMost(day: seq<PlanningPlace>)
    ensures Removable(day) <= |day|
    ensures Removable(day) == |day| <==> forall p :: p in day ==> p.priority == Accepted
    ensures Removable(day) == 0 <==> LastAccepted(day).None?
  {
    if day != [] {
      RemovableAtMost(day[1..]);
      assert day == [day[0]] + day[1..];
    }
    FilterMembers(day, IS_ACCEPTED);
    if Removable(day) > 0 {
      assert Filter(day, IS_ACCEPTED)[0] in Filter(day, IS_ACCEPTED);
    }
  }

  lemma OneGivenUp(day: seq<PlanningPlace>, p: PlanningPlace)
    requires p in day && p.priority == Accepted
    ensures |RemoveFirst(day, p)| == |day| - 1 && Removable(RemoveFirst(day, p)) == Removable(day) - 1
  {
    CountWithout(day, p, IS_ACCEPTED);
  }

  /** One conflict takes one accepted place of the day it names, if there is one, and leaves every other day alone. */
  lemma RepairOneOnDay(arranged: Schedule, c: Conflict, k: nat)
    requires k < |arranged| && (c.day.Some? ==> 1 <= c.day.value <= |arranged|)
    ensures var after := RepairOne(arranged, c)[k];
      if c.day == Some(k + 1) && Removable(arranged[k]) > 0
      then |after| == |arranged[k]| - 1 && Removable(after) == Removable(arranged[k]) - 1
      else after == arranged[k]
  {
    hide LastAccepted, HasAccepted, RemoveFirst, Removable;
    RemovableAtMost(arranged[k]);
    if c.day == Some(k + 1) && Removable(arranged[k]) > 0 {
      OneGivenUp(arranged[k], LastAccepted(arranged[k]).value);
    }
  }

  /** A list of conflicts takes as many accepted places of a day as it names that day, as far as there are any. */
  lemma {:induction false} RepairedSize(arranged: Schedule, conflicts: seq<Conflict>, k: nat)
    requires DaysExist(conflicts, |arranged|) && k < |arranged|
    ensures |Repaired(arranged, conflicts)[k]| == |arranged[k]| - Smaller(Naming(conflicts, k), Removable(arranged[k]))
    ensures Removable(Repaired(arranged, conflicts)[k])
         == Removable(arranged[k]) - Smaller(Naming(conflicts, k), Removable(arranged[k]))
  {
    RemovableAtMost(arranged[k]);
    if conflicts != [] {
      var front, last := conflicts[..|conflicts| - 1], conflicts[|conflicts| - 1];
      RepairedSize(arranged, front, k);
      RepairOneOnDay(Repaired(arranged, front), last, k);
      assert conflicts == front + [last];
      NamingOneMore(front, last, k);
    }
  }

  lemma NamingOneMore(front: seq<Conflict>, last: Conflict, k: nat)
    ensures Naming(front + [last], k) == Naming(front, k) + if last.day == Some(k + 1) then 1 else 0
  {
    FilterConcat(front, [last], (c: Conflict) => c.day == Some(k + 1));
    assert [last][1..] == [];
  }

  /**
   * Main result: a repair round leaves a day empty exactly when all its places are accepted ones and at least as many
   * conflicts name it as it has places.
   */
  lemma RepairEmptiesIff(arranged: Schedule, conflicts: seq<Conflict>, k: nat)
    requires DaysExist(conflicts, |arranged|) && k < |arranged|
    ensures Repaired(arranged, conflicts)[k] == [] <==>
              (forall p :: p in arranged[k] ==> p.priority == Accepted) && Naming(conflicts, k) >= |arranged[k]|
  {
    RepairedSize(arranged, conflicts, k);
    RemovableAtMost(arranged[k]);
  }

  // ---- what every day keeps -------------------------------------------------------------------

  /** `later` holds places of `earlier` only, and all those that are not merely accepted. */
  ghost predicate KeepsDay(earlier: seq<PlanningPlace>, later: seq<PlanningPlace>) {
    && multiset(later) <= multiset(earlier)
    && forall p: PlanningPlace {:trigger multiset(earlier)[p]} ::
         p.priority != Accepted ==> multiset(later)[p] == multiset(earlier)[p]
  }

  lemma KeepsDayTransitive(a: seq<PlanningPlace>, b: seq<PlanningPlace>, c: seq<PlanningPlace>)
    requires KeepsDay(a, b) && KeepsDay(b, c)
    ensures KeepsDay(a, c)
  {
    forall p: PlanningPlace | p.priority != Accepted ensures multiset(c)[p] == multiset(a)[p] {
      assert multiset(b)[p] == multiset(a)[p];
    }
  }

  lemma {:induction false} RepairedKeepsDay(arranged: Schedule, conflicts: seq<Conflict>, k: nat)
    requires DaysExist(conflicts, |arranged|) && k < |arranged|
    ensures KeepsDay(arranged[k], Repaired(arranged, conflicts)[k])
  {
    if conflicts != [] {
      var front := conflicts[..|conflicts| - 1];
      RepairedKeepsDay(arranged, front, k);
      RepairOneKeepsDay(Repaired(arranged, front), conflicts[|conflicts| - 1], k);
      KeepsDayTransitive(arranged[k], Repaired(arranged, front)[k], Repaired(arranged, conflicts)[k]);
    }
  }

  lemma RepairOneKeepsDay(arranged: Schedule, c: Conflict, k: nat)
    requires k < |arranged| && (c.day.Some? ==> 1 <= c.day.value <= |arranged|)
    ensures KeepsDay(arranged[k], RepairOne(arranged, c)[k])
  {
    hide HasAccepted, LastAccepted, RemoveFirst;
  }

  /** Every day of the last attempt keeps what the first schedule had for it, up to accepted places. */
  lemma {:induction false} RoundsKeepDay(
    schedule: Schedule, places: seq<PlanningPlace>, r: Requirements, capacity: Capacity, d: Distance,
    legs: Legs, outlooks: Outlooks, attempts: nat, k: nat)
    requires attempts <= 3 && k < |schedule|
    ensures KeepsDay(schedule[k], Rounds(schedule, places, r, capacity, d, legs, outlooks, attempts).1[k])
    decreases 3 - attempts
  {
    var conflicts := ConflictsIn(RoutedDays(schedule, r, capacity, d, legs, attempts), places, r);
    var repairable := Filter(conflicts, IS_REPAIRABLE);
    if conflicts != [] && Filter(conflicts, IS_BLOCKING) == [] && repairable != [] && attempts < 3 {
      RepairableDaysExist(schedule, places, r, capacity, d, legs, attempts);
      RepairedKeepsDay(schedule, repairable, k);
      RoundsKeepDay(Repaired(schedule, repairable), places, r, capacity, d, legs, outlooks, attempts + 1, k);
      KeepsDayTransitive(schedule[k], Repaired(schedule, repairable)[k],
        Rounds(Repaired(schedule, repairable), places, r, capacity, d, legs, outlooks, attempts + 1).1[k]);
    }
  }

  /** A feasible draft routes the schedule of the last attempt, day by day. */
  lemma {:induction false} DraftRoutesLast(
    schedule: Schedule, places: seq<PlanningPlace>, r: Requirements, capacity: Capacity, d: Distance,
    legs: Legs, outlooks: Outlooks, attempts: nat)
    requires attempts <= 3
    requires Rounds(schedule, places, r, capacity, d, legs, outlooks, attempts).0.feasible
    ensures var (result, last) := Rounds(schedule, places, r, capacity, d, legs, outlooks, attempts);
      && result.draft.Some? && result.draft.value.repairAttempts <= 3
      && result.draft.value.days == RoutedDays(last, r, capacity, d, legs, result.draft.value.repairAttempts)
    decreases 3 - attempts
  {
    var conflicts := ConflictsIn(RoutedDays(schedule, r, capacity, d, legs, attempts), places, r);
    var repairable := Filter(conflicts, IS_REPAIRABLE);
    if conflicts != [] && Filter(conflicts, IS_BLOCKING) == [] && repairable != [] && attempts < 3 {
      RepairableDaysExist(schedule, places, r, capacity, d, legs, attempts);
      DraftRoutesLast(Repaired(schedule, repairable), places, r, capacity, d, legs, outlooks, attempts + 1);
    }
  }

  lemma {:induction false} PassesPermute<T(!new)>(d: (T, T) -> real, places: seq<T>, n: nat)
    ensures multiset(Passes(d, places, n)) == multiset(places)
    decreases n
  {
    if n > 0 {
      PassPermutes(d, places, 1);
      PassesPermute(d, PassFrom(d, places, 1), n - 1);
    }
  }

  lemma {:induction false} PassPermutes<T(!new)>(d: (T, T) -> real, best: seq<T>, start: nat)
    ensures multiset(PassFrom(d, best, start)) == multiset(best)
    decreases |best| - start
  {
    if start < |best| - 1 {
      FlipEndsPermute(d, best, start, start + 1);
      PassPermutes(d, FlipEnds(d, best, start, start + 1), start + 1);
    }
  }

  lemma {:induction false} FlipEndsPermute<T(!new)>(d: (T, T) -> real, best: seq<T>, start: nat, end: nat)
    requires start <= end <= |best|
    ensures multiset(FlipEnds(d, best, start, end)) == multiset(best)
    decreases |best| - end
  {
    hide RouteLength, Flip;
    if end < |best| {
      var candidate := Flip(best, start, end);
      FlipPermutes(best, start, end);
      FlipEndsPermute(d, if RouteLength(d, candidate) + 1.0 < RouteLength(d, best) then candidate else best,
                      start, end + 1);
    }
  }

  lemma RoutedDayVisits(
    number: nat, r: Requirements, stops: seq<PlanningPlace>, capacity: Capacity, d: Distance, answers: DayAnswers)
    ensures multiset(RoutedDay(number, r, stops, capacity, d, answers).places) == multiset(stops)
  {
    GreedyPermutes(Nearer(d), stops);
    PassesPermute(d, Greedy(Nearer(d), stops), 4);
  }

  lemma KeepsDaySame(a: seq<PlanningPlace>, b: seq<PlanningPlace>, c: seq<PlanningPlace>)
    requires KeepsDay(a, b) && multiset(b) == multiset(c)
    ensures KeepsDay(a, c)
    ensures (exists p :: p in a && p.priority != Accepted) ==> c != []
  {
    if p :| p in a && p.priority != Accepted {
      assert multiset(a)[p] > 0 && multiset(c)[p] == multiset(a)[p];
    }
  }

  /** What `_arrange` gave day `k`. */
  function ArrangedDay(r: Requirements, places: seq<PlanningPlace>, preferred: Preferred, k: nat): seq<PlanningPlace>
    requires Plannable(r, places) && KnownIntensity(IntensityOf(r)) && k < NumberOf(r, Days).value
  {
    Arranged(places, NumberOf(r, Days).value, CapacityTemplate(IntensityOf(r)).maximumPlaces, preferred)[k]
  }

  /**
   * Main result: every day of a feasible draft holds places of the same arranged day only and all of
   * those that were not merely accepted, so it is not empty whenever its arranged day had such a place.
   */
  lemma DraftKeepsArrangedDays(
    r: Requirements, places: seq<PlanningPlace>, d: Distance,
    preferred: Preferred, legs: Legs, outlooks: Outlooks, k: nat)
    requires KnownIntensity(IntensityOf(r)) && Plannable(r, places) && k < NumberOf(r, Days).value
    requires Planned(r, places, d, preferred, legs, outlooks).feasible
    ensures Planned(r, places, d, preferred, legs, outlooks).draft.Some?
    ensures k < |Planned(r, places, d, preferred, legs, outlooks).draft.value.days|
    ensures var day := Planned(r, places, d, preferred, legs, outlooks).draft.value.days[k].places;
      var arranged := ArrangedDay(r, places, preferred, k);
      && KeepsDay(arranged, day)
      && ((exists p :: p in arranged && p.priority != Accepted) ==> day != [])
  {
    PreflightIffPlannable(r, places);
    var capacity := CapacityTemplate(IntensityOf(r));
    var first := Arranged(places, NumberOf(r, Days).value, capacity.maximumPlaces, preferred);
    var (result, last) := Rounds(first, places, r, capacity, d, legs, outlooks, 0);
    DraftRoutesLast(first, places, r, capacity, d, legs, outlooks, 0);
    RoundsKeepDay(first, places, r, capacity, d, legs, outlooks, 0, k);
    RoutedDayVisits(k + 1, r, last[k], capacity, d, legs(result.draft.value.repairAttempts, k));
    KeepsDaySame(first[k], last[k], result.draft.value.days[k].places);
  }

  /** How many conflicts name day index `k` in all rounds that are repaired. */
  ghost function Demands(
    schedule: Schedule, places: seq<PlanningPlace>, r: Requirements, capacity: Capacity, d: Distance,
    legs: Legs, attempts: nat, k: nat): nat
    requires attempts <= 3
    decreases 3 - attempts
  {
    var conflicts := ConflictsIn(RoutedDays(schedule, r, capacity, d, legs, attempts), places, r);
    var repairable := Filter(conflicts, IS_REPAIRABLE);
    if conflicts == [] || Filter(conflicts, IS_BLOCKING) != [] || repairable == [] || attempts == 3 then 0
    else
      RepairableDaysExist(schedule, places, r, capacity, d, legs, attempts);
      Naming(repairable, k) + Demands(Repaired(schedule, repairable), places, r, capacity, d, legs, attempts + 1, k)
  }

  /** A day that had `accepted` removable places ends up as `left` after `demands` conflicts about it. */
  ghost predicate Shrinks(day: seq<PlanningPlace>, left: seq<PlanningPlace>, demands: nat) {
    |left| + Smaller(demands, Removable(day)) == |day|
  }

  lemma RepairedShrinks(arranged: Schedule, conflicts: seq<Conflict>, k: nat)
    requires DaysExist(conflicts, |arranged|) && k < |arranged|
    ensures Shrinks(arranged[k], Repaired(arranged, conflicts)[k], Naming(conflicts, k))
    ensures Removable(Repaired(arranged, conflicts)[k]) + Smaller(Naming(conflicts, k), Removable(arranged[k]))
         == Removable(arranged[k])
  {
    RepairedSize(arranged, conflicts, k);
  }

  /** Shrinking twice is shrinking by the sum. */
  lemma ShrinksTwice(day: seq<PlanningPlace>, next: seq<PlanningPlace>, left: seq<PlanningPlace>, a: nat, b: nat)
    requires Shrinks(day, next, a) && Shrinks(next, left, b)
    requires Removable(next) + Smaller(a, Removable(day)) == Removable(day)
    ensures Shrinks(day, left, a + b)
  {
  }

  /** The attempt fails in a way that can be repaired, by the given conflicts. */
  ghost predicate GoesOn(
    schedule: Schedule, places: seq<PlanningPlace>, r: Requirements, capacity: Capacity, d: Distance,
    legs: Legs, attempts: nat, repairable: seq<Conflict>)
  {
    var conflicts := ConflictsIn(RoutedDays(schedule, r, capacity, d, legs, attempts), places, r);
    && attempts < 3 && conflicts != [] && Filter(conflicts, IS_BLOCKING) == []
    && repairable == Filter(conflicts, IS_REPAIRABLE) && repairable != []
    && DaysExist(repairable, |schedule|)
  }

  lemma RoundRepaired(
    schedule: Schedule, places: seq<PlanningPlace>, r: Requirements, capacity: Capacity, d: Distance,
    legs: Legs, outlooks: Outlooks, attempts: nat, repairable: seq<Conflict>, k: nat)
    requires GoesOn(schedule, places, r, capacity, d, legs, attempts, repairable)
    ensures Rounds(schedule, places, r, capacity, d, legs, outlooks, attempts)
         == Rounds(Repaired(schedule, repairable), places, r, capacity, d, legs, outlooks, attempts + 1)
    ensures Demands(schedule, places, r, capacity, d, legs, attempts, k)
         == Naming(repairable, k)
            + Demands(Repaired(schedule, repairable), places, r, capacity, d, legs, attempts + 1, k)
  {
  }

  lemma RoundsEnd(
    schedule: Schedule, places: seq<PlanningPlace>, r: Requirements, capacity: Capacity, d: Distance,
    legs: Legs, outlooks: Outlooks, attempts: nat, repairable: seq<Conflict>, k: nat)
    requires attempts <= 3 && DaysExist(repairable, |schedule|)
    requires repairable
          == Filter(ConflictsIn(RoutedDays(schedule, r, capacity, d, legs, attempts), places, r), IS_REPAIRABLE)
    requires !GoesOn(schedule, places, r, capacity, d, legs, attempts, repairable)
    ensures Rounds(schedule, places, r, capacity, d, legs, outlooks, attempts).1 == schedule
    ensures Demands(schedule, places, r, capacity, d, legs, attempts, k) == 0
  {
  }

  /** What the rounds from `schedule` on do to day index `k`. */
  ghost predicate RoundsShrink(
    schedule: Schedule, places: seq<PlanningPlace>, r: Requirements, capacity: Capacity, d: Distance,
    legs: Legs, outlooks: Outlooks, attempts: nat, k: nat)
    requires attempts <= 3 && k < |schedule|
  {
    Shrinks(schedule[k], Rounds(schedule, places, r, capacity, d, legs, outlooks, attempts).1[k],
            Demands(schedule, places, r, capacity, d, legs, attempts, k))
  }

  /** A day that later shrinks by `m` shrinks by the repaired round's conflicts as well. */
  lemma OneMoreRoundShrinks(schedule: Schedule, repairable: seq<Conflict>, k: nat, left: seq<PlanningPlace>, m: nat)
    requires DaysExist(repairable, |schedule|) && k < |schedule|
    requires Shrinks(Repaired(schedule, repairable)[k], left, m)
    ensures Shrinks(schedule[k], left, Naming(repairable, k) + m)
  {
    RepairedShrinks(schedule, repairable, k);
    ShrinksTwice(schedule[k], Repaired(schedule, repairable)[k], left, Naming(repairable, k), m);
  }

  lemma RoundShrinks(
    schedule: Schedule, places: seq<PlanningPlace>, r: Requirements, capacity: Capacity, d: Distance,
    legs: Legs, outlooks: Outlooks, attempts: nat, repairable: seq<Conflict>, k: nat, left: seq<PlanningPlace>, m: nat)
    requires k < |schedule| && GoesOn(schedule, places, r, capacity, d, legs, attempts, repairable)
    requires left == Rounds(Repaired(schedule, repairable), places, r, capacity, d, legs, outlooks, attempts + 1).1[k]
    requires m == Demands(Repaired(schedule, repairable), places, r, capacity, d, legs, attempts + 1, k)
    requires Shrinks(schedule[k], left, Naming(repairable, k) + m)
    ensures RoundsShrink(schedule, places, r, capacity, d, legs, outlooks, attempts, k)
  {
    RoundRepaired(schedule, places, r, capacity, d, legs, outlooks, attempts, repairable, k);
  }

  /** The rounds together take as many accepted places of a day as they name it, as far as there are any. */
  lemma {:induction false} AllRoundsShrink(
    schedule: Schedule, places: seq<PlanningPlace>, r: Requirements, capacity: Capacity, d: Distance,
    legs: Legs, outlooks: Outlooks, attempts: nat, k: nat)
    requires attempts <= 3 && k < |schedule|
    ensures RoundsShrink(schedule, places, r, capacity, d, legs, outlooks, attempts, k)
    decreases 3 - attempts
  {
    var repairable := Filter(ConflictsIn(RoutedDays(schedule, r, capacity, d, legs, attempts), places, r),
                             IS_REPAIRABLE);
    RepairableDaysExist(schedule, places, r, capacity, d, legs, attempts);
    if GoesOn(schedule, places, r, capacity, d, legs, attempts, repairable) {
      var next := Repaired(schedule, repairable);
      AllRoundsShrink(next, places, r, capacity, d, legs, outlooks, attempts + 1, k);
      var left := Rounds(next, places, r, capacity, d, legs, outlooks, attempts + 1).1[k];
      var m := Demands(next, places, r, capacity, d, legs, attempts + 1, k);
      OneMoreRoundShrinks(schedule, repairable, k, left, m);
      RoundShrinks(schedule, places, r, capacity, d, legs, outlooks, attempts, repairable, k, left, m);
    } else {
      RoundsEnd(schedule, places, r, capacity, d, legs, outlooks, attempts, repairable, k);
    }
  }

  lemma SameSize<T>(a: seq<T>, b: seq<T>)
    requires multiset(a) == multiset(b)
    ensures |a| == |b|
  {
    assert |a| == |multiset(a)| && |b| == |multiset(b)|;
  }

  /** The routed days of a feasible outcome are as long as the days of its last schedule. */
  lemma DraftDaySize(
    first: Schedule, places: seq<PlanningPlace>, r: Requirements, capacity: Capacity, d: Distance,
    legs: Legs, outlooks: Outlooks, k: nat)
    requires k < |first| && Rounds(first, places, r, capacity, d, legs, outlooks, 0).0.feasible
    ensures var (result, last) := Rounds(first, places, r, capacity, d, legs, outlooks, 0);
      result.draft.Some? && k < |result.draft.value.days| && |result.draft.value.days[k].places| == |last[k]|
  {
    var (result, last) := Rounds(first, places, r, capacity, d, legs, outlooks, 0);
    DraftRoutesLast(first, places, r, capacity, d, legs, outlooks, 0);
    RoutedDayVisits(k + 1, r, last[k], capacity, d, legs(result.draft.value.repairAttempts, k));
    SameSize(result.draft.value.days[k].places, last[k]);
  }

  /** How many conflicts name day index `k` in the repaired rounds of a whole planning. */
  ghost function DemandsOn(
    r: Requirements, places: seq<PlanningPlace>, d: Distance, preferred: Preferred, legs: Legs, k: nat): nat
    requires KnownIntensity(IntensityOf(r)) && Plannable(r, places)
  {
    var capacity := CapacityTemplate(IntensityOf(r));
    Demands(Arranged(places, NumberOf(r, Days).value, capacity.maximumPlaces, preferred),
            places, r, capacity, d, legs, 0, k)
  }

  /** Through all rounds a day loses as many accepted places as they name it, as far as there are any. */
  lemma PlannedDaySize(
    r: Requirements, places: seq<PlanningPlace>, d: Distance,
    preferred: Preferred, legs: Legs, outlooks: Outlooks, k: nat)
    requires KnownIntensity(IntensityOf(r)) && Plannable(r, places) && k < NumberOf(r, Days).value
    requires Planned(r, places, d, preferred, legs, outlooks).feasible
    ensures var draft := Planned(r, places, d, preferred, legs, outlooks).draft;
      var arranged := ArrangedDay(r, places, preferred, k);
      && draft.Some? && k < |draft.value.days|
      && |draft.value.days[k].places| + Smaller(DemandsOn(r, places, d, preferred, legs, k), Removable(arranged))
         == |arranged|
  {
    PreflightIffPlannable(r, places);
    var capacity := CapacityTemplate(IntensityOf(r));
    var first := Arranged(places, NumberOf(r, Days).value, capacity.maximumPlaces, preferred);
    DraftDaySize(first, places, r, capacity, d, legs, outlooks, k);
    AllRoundsShrink(first, places, r, capacity, d, legs, outlooks, 0, k);
  }

  /**
   * Main result: a day of a feasible draft is empty exactly when `_arrange` gave it accepted places
   * only and the conflicts of the repaired rounds name it at least as often as it had places.
   */
  lemma DraftDayEmptyIff(
    r: Requirements, places: seq<PlanningPlace>, d: Distance,
    preferred: Preferred, legs: Legs, outlooks: Outlooks, k: nat)
    requires KnownIntensity(IntensityOf(r)) && Plannable(r, places) && k < NumberOf(r, Days).value
    requires Planned(r, places, d, preferred, legs, outlooks).feasible
    ensures var draft := Planned(r, places, d, preferred, legs, outlooks).draft;
      var arranged := ArrangedDay(r, places, preferred, k);
      && draft.Some? && k < |draft.value.days|
      && (draft.value.days[k].places == [] <==>
            && (forall p :: p in arranged ==> p.priority == Accepted)
            && DemandsOn(r, places, d, preferred, legs, k) >= |arranged|)
  {
    PlannedDaySize(r, places, d, preferred, legs, outlooks, k);
    RemovableAtMost(ArrangedDay(r, places, preferred, k));
  }

  // ---- a feasible plan with an empty day ------------------------------------------------------

  /**
   * Three accepted places of one district for two relaxed days: the first and the third are too long and too far apart
   * for one day, the second fits any day.
   */
  ghost predicate Crowded(
    r: Requirements, p: PlanningPlace, q: PlanningPlace, s: PlanningPlace, preferred: Preferred, legs: Legs)
  {
    && NumberOf(r, Days) == Some(2) && IntensityOf(r) == "relaxed" && FlagOf(r, SuburbanAcceptance) == None
    && p.priority == Accepted && q.priority == Accepted && s.priority == Accepted
    && p != s && p.id != q.id && q.id != s.id && p.id != s.id
    && DistrictKey(p) == DistrictKey(q) == DistrictKey(s)
    && p.activityMinutes + s.activityMinutes > 420 && q.activityMinutes <= 420
    && (forall day :: preferred(day) == {})
    && legs(0, 0).legs.route(0).Some? && legs(0, 0).legs.route(0).value.duration == 5400
  }

  lemma OneGroup(p: PlanningPlace, q: PlanningPlace, s: PlanningPlace)
    requires p.priority == Accepted && q.priority == Accepted && s.priority == Accepted
    requires DistrictKey(p) == DistrictKey(q) == DistrictKey(s)
    ensures HandOut([p, q, s]) == [p, q, s]
  {
    hide Filter, Flatten, Map, DistrictKey;
    var places := [p, q, s];
    FilterNone(places, IS_MUST);
    FilterAll(places, IS_NOT_MUST);
    assert MustVisitFirst(places) == places;
    assert places[..2] == [p, q] && [p, q][..1] == [p] && [p][..0] == [];
    assert GroupAll([p]) == [Group(DistrictKey(p), [p])];
    assert GroupAll([p, q]) == [Group(DistrictKey(p), [p, q])] by {
      assert [p] + [q] == [p, q];
    }
    assert GroupAll(places) == [Group(DistrictKey(p), places)] by {
      assert [p, q] + [s] == places;
    }
    OneFlat(Group(DistrictKey(p), places));
  }

  lemma OneFlat(g: Group)
    ensures Flatten(Map([g], MEMBERS)) == g.members
  {
    assert Map([g], MEMBERS) == [g.members];
    assert [g.members][1..] == [];
  }

  lemma BestOfTwo(a: seq<PlanningPlace>, b: seq<PlanningPlace>, preferred: Preferred, category: string)
    requires |a| < 2 && |b| < 2 && forall day :: preferred(day) == {}
    ensures BestDay([a, b], 2, 2, preferred, category) == Some(if |a| <= |b| then 0 else 1)
  {
    assert BestDay([a, b], 1, 2, preferred, category) == Some(0);
  }

  lemma PutIntoTwo(a: seq<PlanningPlace>, b: seq<PlanningPlace>, x: PlanningPlace, preferred: Preferred)
    requires |a| < 2 && |b| < 2 && forall day :: preferred(day) == {}
    ensures Put([a, b], 0, x, 2, preferred) == (if |a| <= |b| then [a + [x], b] else [a, b + [x]], 0)
  {
    BestOfTwo(a, b, preferred, x.candidate.category);
    assert [a, b][0 := a + [x]] == [a + [x], b];
    assert [a, b][1 := b + [x]] == [a, b + [x]];
  }

  lemma SpreadOverTwo(p: PlanningPlace, q: PlanningPlace, s: PlanningPlace, preferred: Preferred)
    requires forall day :: preferred(day) == {}
    ensures Distribute([p, q, s], [[], []], 0, 2, preferred) == [[p, s], [q]]
  {
    hide Put;
    var none: seq<PlanningPlace> := [];
    assert none + [p] == [p] && none + [q] == [q] && [p] + [s] == [p, s];
    PutIntoTwo(none, none, p, preferred);
    PutIntoTwo([p], none, q, preferred);
    PutIntoTwo([p], [q], s, preferred);
    assert [p, q, s][1..] == [q, s] && [q, s][1..] == [s] && [s][1..] == [];
    assert Distribute([s], [[p], [q]], 0, 2, preferred) == [[p, s], [q]];
    assert Distribute([q, s], [[p], []], 0, 2, preferred) == [[p, s], [q]];
  }

  lemma CrowdedArrangement(
    r: Requirements, p: PlanningPlace, q: PlanningPlace, s: PlanningPlace, preferred: Preferred, legs: Legs)
    requires Crowded(r, p, q, s, preferred, legs)
    ensures Arranged([p, q, s], 2, 2, preferred) == [[p, s], [q]]
  {
    hide HandOut, Distribute;
    OneGroup(p, q, s);
    SpreadOverTwo(p, q, s, preferred);
    assert EmptySchedule(2) == [[], []];
    var spread := [[p, s], [q]];
    assert EmptyDays(spread, 2) == [] && EmptyDays(spread, 1) == [] && EmptyDays(spread, 0) == [];
  }

  /** With at most two stops the routed order is the arranged one. */
  lemma ShortDay(
    number: nat, r: Requirements, stops: seq<PlanningPlace>, capacity: Capacity, d: Distance, answers: DayAnswers)
    requires |stops| <= 2
    ensures RoutedDay(number, r, stops, capacity, d, answers).places == stops
  {
    GreedyPermutes(Nearer(d), stops);
    ShortOrder(d, stops);
    PassesSettle(d, stops, 4);
  }

  lemma ShortOrder(d: Distance, stops: seq<PlanningPlace>)
    requires |stops| <= 2
    ensures Greedy(Nearer(d), stops) == stops && PassFrom(d, stops, 1) == stops
  {
    if |stops| == 2 {
      assert stops[1..] == [stops[1]];
      assert FirstBest(Nearer(d), stops[0], [stops[1]]) == 0;
      assert RemoveAt([stops[1]], 0) == [];
    }
  }

  /** The crowded day raises two conflicts that name it. */
  lemma CrowdedDay(day: PlannedDay, p: PlanningPlace, s: PlanningPlace)
    requires day.places == [p, s] && day.capacity == CapacityTemplate("relaxed") && p.priority == Accepted
    requires p.activityMinutes + s.activityMinutes > 420
    requires |day.segments| == 1 && day.segments[0].duration == Some(5400)
    ensures |DayConflicts(day, None)| == 2
    ensures forall c :: c in DayConflicts(day, None) ==> c.day == Some(day.number) && c.repairable
  {
    assert day.places[1..] == [s] && [s][1..] == [];
    assert ActivityMinutes([s]) == s.activityMinutes;
    assert ActivityMinutes(day.places) == p.activityMinutes + s.activityMinutes;
    assert Seconds(day.segments[0]) / 60 == 90;
    FewDistricts(p, s);
    assert HasAccepted(day.places);
  }

  lemma FewDistricts(p: PlanningPlace, s: PlanningPlace)
    ensures |Districts([p, s])| <= 2
  {
    assert Districts([p, s]) <= {p.candidate.district, s.candidate.district};
    SubsetSize(Districts([p, s]), {p.candidate.district, s.candidate.district});
  }

  lemma QuietDay(day: PlannedDay, suburban: Option<bool>)
    requires |day.places| <= 1 && day.capacity == CapacityTemplate("relaxed") && day.segments == []
    requires forall p :: p in day.places ==> p.activityMinutes <= 420
    ensures DayConflicts(day, suburban) == []
  {
    if day.places != [] {
      assert day.places[0] in day.places && day.places[1..] == [];
      assert ActivityMinutes(day.places) == day.places[0].activityMinutes;
      assert Districts(day.places) <= {day.places[0].candidate.district};
      SubsetSize(Districts(day.places), {day.places[0].candidate.district});
    }
  }

  lemma NoMusts(days: seq<PlannedDay>, source: seq<PlanningPlace>)
    requires forall p :: p in source ==> p.priority == Accepted
    ensures MustConflicts(days, source) == []
  {
    MissingMustEmpty(source, ScheduledIds(days));
  }

  lemma FirstAttempt(
    r: Requirements, p: PlanningPlace, q: PlanningPlace,
    s: PlanningPlace, preferred: Preferred, legs: Legs, d: Distance)
    requires Crowded(r, p, q, s, preferred, legs)
    ensures var conflicts := ConflictsIn(RoutedDays([[p, s], [q]], r, CapacityTemplate("relaxed"), d, legs, 0),
                                         [p, q, s], r);
      |conflicts| == 2 && forall c :: c in conflicts ==> c.day == Some(1) && c.repairable
  {
    var days := RoutedDays([[p, s], [q]], r, CapacityTemplate("relaxed"), d, legs, 0);
    ShortDay(1, r, [p, s], CapacityTemplate("relaxed"), d, legs(0, 0));
    ShortDay(2, r, [q], CapacityTemplate("relaxed"), d, legs(0, 1));
    CrowdedDay(days[0], p, s);
    QuietDay(days[1], None);
    NoMusts(days, [p, q, s]);
    assert AllDayConflicts(days, 1, None) == DayConflicts(days[0], None);
    assert AllDayConflicts(days, 2, None) == DayConflicts(days[0], None);
  }

  lemma UnnamedDayStays(arranged: Schedule, conflicts: seq<Conflict>, k: nat)
    requires DaysExist(conflicts, |arranged|) && k < |arranged| && |arranged[k]| == 1
    requires forall c :: c in conflicts ==> c.day != Some(k + 1)
    ensures Repaired(arranged, conflicts)[k] == arranged[k]
  {
    var after := Repaired(arranged, conflicts)[k];
    FilterNone(conflicts, (c: Conflict) => c.day == Some(k + 1));
    RepairedSize(arranged, conflicts, k);
    RepairedKeepsDay(arranged, conflicts, k);
    assert after[0] in multiset(after);
    assert after[0] in multiset(arranged[k]);
  }

  lemma NamedDayEmpties(arranged: Schedule, conflicts: seq<Conflict>, k: nat)
    requires DaysExist(conflicts, |arranged|) && k < |arranged| && |conflicts| >= |arranged[k]|
    requires (forall c :: c in conflicts ==> c.day == Some(k + 1))
    requires forall p :: p in arranged[k] ==> p.priority == Accepted
    ensures Repaired(arranged, conflicts)[k] == []
  {
    FilterAll(conflicts, (c: Conflict) => c.day == Some(k + 1));
    RepairEmptiesIff(arranged, conflicts, k);
  }

  lemma TwoRepairsEmptyTheDay(p: PlanningPlace, q: PlanningPlace, s: PlanningPlace, conflicts: seq<Conflict>)
    requires p.priority == Accepted && s.priority == Accepted
    requires |conflicts| == 2 && forall c :: c in conflicts ==> c.day == Some(1) && c.repairable
    ensures Filter(conflicts, IS_REPAIRABLE) == conflicts && Filter(conflicts, IS_BLOCKING) == []
    ensures DaysExist(conflicts, 2) && Repaired([[p, s], [q]], conflicts) == [[], [q]]
  {
    FilterAll(conflicts, IS_REPAIRABLE);
    FilterNone(conflicts, IS_BLOCKING);
    NamedDayEmpties([[p, s], [q]], conflicts, 0);
    UnnamedDayStays([[p, s], [q]], conflicts, 1);
  }

  lemma SecondAttempt(
    r: Requirements, p: PlanningPlace, q: PlanningPlace,
    s: PlanningPlace, preferred: Preferred, legs: Legs, d: Distance)
    requires Crowded(r, p, q, s, preferred, legs)
    ensures ConflictsIn(RoutedDays([[], [q]], r, CapacityTemplate("relaxed"), d, legs, 1), [p, q, s], r) == []
  {
    var days := RoutedDays([[], [q]], r, CapacityTemplate("relaxed"), d, legs, 1);
    ShortDay(1, r, [], CapacityTemplate("relaxed"), d, legs(1, 0));
    ShortDay(2, r, [q], CapacityTemplate("relaxed"), d, legs(1, 1));
    QuietDay(days[0], None);
    QuietDay(days[1], None);
    NoMusts(days, [p, q, s]);
    assert AllDayConflicts(days, 1, None) == [];
    assert AllDayConflicts(days, 2, None) == [];
  }

  /** Main result: the planner answers such input with a feasible plan whose first day is empty. */
  lemma CrowdedPlanHasEmptyDay(
    r: Requirements, p: PlanningPlace, q: PlanningPlace, s: PlanningPlace,
    preferred: Preferred, legs: Legs, d: Distance, outlooks: Outlooks)
    requires Crowded(r, p, q, s, preferred, legs) && Plannable(r, [p, q, s])
    ensures KnownIntensity(IntensityOf(r))
    ensures var result := Planned(r, [p, q, s], d, preferred, legs, outlooks);
      result.feasible && result.draft.Some? && |result.draft.value.days| == 2 && result.draft.value.days[0].places == []
  {
    var capacity, places := CapacityTemplate("relaxed"), [p, q, s];
    var first, second := [[p, s], [q]], [[], [q]];
    var conflicts := ConflictsIn(RoutedDays(first, r, capacity, d, legs, 0), places, r);
    PreflightIffPlannable(r, places);
    CrowdedArrangement(r, p, q, s, preferred, legs);
    FirstAttempt(r, p, q, s, preferred, legs, d);
    TwoRepairsEmptyTheDay(p, q, s, conflicts);
    SecondAttempt(r, p, q, s, preferred, legs, d);
    ShortDay(1, r, [], capacity, d, legs(1, 0));
    var outcome := Rounds(first, places, r, capacity, d, legs, outlooks, 0);
    RoundGoesOn(first, places, r, capacity, d, legs, outlooks, 0, outcome, conflicts);
    RoundAccepts(second, places, r, capacity, d, legs, outlooks, 1, outcome,
                 RoutedDays(second, r, capacity, d, legs, 1),
                 DraftOf(RoutedDays(second, r, capacity, d, legs, 1), outlooks, 1));
  }

  function SomePlace(id: Id, minutes: nat): PlanningPlace {
    PlanningPlace(id,
                  Candidate("map", "place", "Garden", "", "Hangzhou", "", 0.0, 0.0, "", "garden", "unknown", Verified),
                  Accepted, minutes)
  }

  function TwoRelaxedDays(f: Field): Value {
    match f
    case Days => Value(Some(Number(2)), Explicit, 1.0, true, Confirmed, None)
    case Intensity => Value(Some(Text("relaxed")), Explicit, 1.0, true, Confirmed, None)
    case _ => BLANK
  }

  /** Such input exists, and the preflight lets it through. */
  lemma CrowdedInputExists()
    returns (r: Requirements, p: PlanningPlace, q: PlanningPlace, s: PlanningPlace, preferred: Preferred, legs: Legs)
    ensures Crowded(r, p, q, s, preferred, legs) && Plannable(r, [p, q, s])
  {
    r := Table(TwoRelaxedDays);
    RelaxedRequirements(r);
    p, q, s := SomePlace(1, 240), SomePlace(2, 120), SomePlace(3, 240);
    preferred := (day: nat) => {};
    legs := (attempt: nat, day: nat) =>
      DayAnswers(LegOracle((k: nat) => k, (k: nat) => Some(RouteFact(20000, 5400, "map", Verified))), []);
  }

  lemma RelaxedRequirements(r: Requirements)
    requires forall f: Field :: r[f] == TwoRelaxedDays(f)
    ensures NumberOf(r, Days) == Some(2) && IntensityOf(r) == "relaxed" && FlagOf(r, SuburbanAcceptance) == None
    ensures TextsOf(r, MustVisitTexts) == [] && IdsOf(r, MustVisitIds) == [] && IdsOf(r, ExcludedIds) == []
  {
    assert "relaxed" != "" by {
      assert |"relaxed"| == 7;
    }
  }
}
