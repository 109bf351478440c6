/** A committed plan is a well-formed itinerary, ready for the edit pipeline. */
module PlanWellFormed {
  import opened Sequences
  import opened RequirementData
  import opened SnapshotData
  import opened Providers
  import opened PlannerData
  import opened Planner
  import opened Planning
  import opened PlanPersistence
  import opened PlanTheorems
  import opened Arranging

  ghost predicate Injective(naming: Naming) {
    forall a, b, c, d :: naming(a, b) == naming(c, d) ==> a == c && b == d
  }

  /** `uuid4` never repeats over the legs of one attempt. */
  ghost predicate FreshLegs(legs: Legs, attempt: nat) {
    forall i, k, j, l :: legs(attempt, i).legs.segmentId(k) == legs(attempt, j).legs.segmentId(l) ==> i == j && k == l
  }

  ghost predicate KeyedByCandidate(stored: seq<StoredPlace>) {
    forall p :: p in stored ==> p.providerPlaceId == p.candidate.providerPlaceId
  }

  lemma InputIdsDistinct(
    dict: seq<StoredPlace>, mustIds: set<Id>, excluded: seq<Id>, naming: Naming, places: seq<PlanningPlace>)
    requires Injective(naming) && KeyedByCandidate(dict)
    requires Distinct(Map(dict, STORED_KEY))
    requires PlacesBuilt(dict, mustIds, excluded, naming, places)
    ensures Distinct(Map(places, PLANNING_ID))
  {
    forall i, j | 0 <= i < j < |places| ensures Map(places, PLANNING_ID)[i] != Map(places, PLANNING_ID)[j] {
      assert dict[i] in dict && dict[j] in dict;
      assert Map(dict, STORED_KEY)[i] != Map(dict, STORED_KEY)[j];
    }
  }

  lemma LoadedIdsDistinct(
    snapshot: Snapshot, stored: seq<StoredPlace>, naming: Naming, base: Snapshot, places: seq<PlanningPlace>)
    requires InputPromise(snapshot, stored, naming, base, places)
    requires Injective(naming) && KeyedByCandidate(stored)
    ensures Distinct(Map(places, PLANNING_ID))
  {
    var selected := Filter(stored, IS_SELECTED);
    var dict := ByProviderId(selected);
    ByProviderIdKeys(selected);
    forall p | p in dict ensures p.providerPlaceId == p.candidate.providerPlaceId {
      ByProviderIdMembers(selected, p);
      FilterMember(stored, IS_SELECTED, p);
    }
    InputIdsDistinct(dict, MustIdsAfter(snapshot.requirements, dict, naming),
                     IdsOf(snapshot.requirements, ExcludedIds), naming, places);
  }

  /** The part of the planner's promise that well-formedness rests on. */
  ghost predicate Drawn(draft: Draft, legs: Legs, mode: string, outlooks: Outlooks) {
    && (forall i :: 0 <= i < |draft.days| ==>
          draft.days[i].number == i + 1 && LegsFollow(draft.days[i], legs(draft.repairAttempts, i).legs, mode))
    && draft.weather == WeatherFacts(draft.days, |draft.days|, outlooks)
    && Distinct(Map(Visits(draft), PLANNING_ID))
  }

  lemma PromiseIsDrawn(
    r: Requirements, places: seq<PlanningPlace>, d: Distance, legs: Legs, outlooks: Outlooks,
    draft: Draft, arranged: Schedule, dropped: multiset<PlanningPlace>)
    requires KnownIntensity(IntensityOf(r))
    requires PlanPromise(r, places, d, legs, outlooks, draft, arranged, dropped)
    requires Distinct(Map(places, PLANNING_ID))
    ensures Drawn(draft, legs, ModeOf(r), outlooks)
  {
    PromiseVisits(r, places, d, legs, outlooks, draft, arranged, dropped);
    assert multiset(Visits(draft)) <= multiset(places);
    SubselectionKeysDistinct(Visits(draft), places, PLANNING_ID);
    forall i | 0 <= i < |draft.days|
      ensures draft.days[i].number == i + 1 && LegsFollow(draft.days[i], legs(draft.repairAttempts, i).legs, ModeOf(r))
    {
      assert Routed(draft.days[i], i + 1, r, arranged[i], CapacityTemplate(IntensityOf(r)), d);
    }
  }

  /** The days of the draft share no place. */
  ghost predicate Apart(days: seq<PlannedDay>) {
    && (forall i :: 0 <= i < |days| ==> Distinct(Map(days[i].places, PLANNING_ID)))
    && forall i, j, x :: 0 <= i < j < |days| && x in Map(days[i].places, PLANNING_ID) ==>
         x !in Map(days[j].places, PLANNING_ID)
  }

  lemma DrawnDaysApart(draft: Draft, legs: Legs, mode: string, outlooks: Outlooks)
    requires Drawn(draft, legs, mode, outlooks)
    ensures Apart(draft.days)
  {
    var ss := Map(draft.days, DAY_PLACES);
    FlattenKeysDistinct(ss, PLANNING_ID);
    forall i | 0 <= i < |draft.days| ensures Distinct(Map(draft.days[i].places, PLANNING_ID)) {
      assert ss[i] == draft.days[i].places;
    }
    forall i, j, x | 0 <= i < j < |draft.days| && x in Map(draft.days[i].places, PLANNING_ID)
      ensures x !in Map(draft.days[j].places, PLANNING_ID)
    {
      assert ss[i] == draft.days[i].places && ss[j] == draft.days[j].places;
    }
  }

  lemma DaySegmentsDistinct(day: PlannedDay, oracle: LegOracle, mode: string)
    requires LegsFollow(day, oracle, mode)
    requires forall k, l :: oracle.segmentId(k) == oracle.segmentId(l) ==> k == l
    ensures Distinct(Map(day.segments, SEGMENT_KEY))
    ensures forall x :: x in Map(day.segments, SEGMENT_KEY) ==> exists k :: x == oracle.segmentId(k)
  {
    forall k | 0 <= k < |day.segments| ensures Map(day.segments, SEGMENT_KEY)[k] == oracle.segmentId(k) {
      assert day.segments[k] == LegOf(oracle, k, day.places[k].id, day.places[k + 1].id, mode);
    }
  }

  lemma SegmentsDistinct(draft: Draft, legs: Legs, mode: string, outlooks: Outlooks)
    requires Drawn(draft, legs, mode, outlooks) && FreshLegs(legs, draft.repairAttempts)
    ensures Distinct(Map(Flatten(Map(draft.days, DAY_SEGMENTS)), SEGMENT_KEY))
  {
    var a := draft.repairAttempts;
    var ss := Map(draft.days, DAY_SEGMENTS);
    forall i | 0 <= i < |ss|
      ensures Distinct(Map(ss[i], SEGMENT_KEY))
      ensures forall x :: x in Map(ss[i], SEGMENT_KEY) ==> exists k :: x == legs(a, i).legs.segmentId(k)
    {
      DaySegmentsDistinct(draft.days[i], legs(a, i).legs, mode);
    }
    forall i, j, x | 0 <= i < j < |ss| && x in Map(ss[i], SEGMENT_KEY) ensures x !in Map(ss[j], SEGMENT_KEY) {
      var k :| x == legs(a, i).legs.segmentId(k);
      assert forall l :: x != legs(a, j).legs.segmentId(l);
    }
    FlattenKeysDisjoint(ss, SEGMENT_KEY);
  }

  lemma {:induction false} WeatherFactOrigin(days: seq<PlannedDay>, n: nat, outlooks: Outlooks, w: Weather)
    requires n <= |days| && w in WeatherFacts(days, n, outlooks)
    ensures exists i :: 0 <= i < n && Anchored(days[i]) && w == AnchorFact(days[i], outlooks(i).forecast)
  {
    if w in WeatherFacts(days, n - 1, outlooks) {
      WeatherFactOrigin(days, n - 1, outlooks, w);
    } else {
      assert w == AnchorFact(days[n - 1], outlooks(n - 1).forecast);
    }
  }

  lemma AnchorsDiffer(days: seq<PlannedDay>, i: nat, j: nat)
    requires i < j < |days| && Apart(days) && Anchored(days[i]) && Anchored(days[j])
    ensures days[i].places[0].id != days[j].places[0].id
  {
    assert Map(days[i].places, PLANNING_ID)[0] == days[i].places[0].id;
    assert Map(days[j].places, PLANNING_ID)[0] == days[j].places[0].id;
    assert days[i].places[0].id in Map(days[i].places, PLANNING_ID);
  }

  /** No earlier day has the reference of day `n`: its anchor is another place. */
  lemma {:induction false} ReferenceIsNew(days: seq<PlannedDay>, n: nat, outlooks: Outlooks, w: Weather)
    requires n < |days| && Apart(days) && Anchored(days[n]) && w in WeatherFacts(days, n, outlooks)
    ensures w.ref != AnchorFact(days[n], outlooks(n).forecast).ref
  {
    WeatherFactOrigin(days, n, outlooks, w);
    var i :| 0 <= i < n && Anchored(days[i]) && w == AnchorFact(days[i], outlooks(i).forecast);
    AnchorsDiffer(days, i, n);
  }

  lemma {:induction false} WeatherDistinct(days: seq<PlannedDay>, n: nat, outlooks: Outlooks)
    requires n <= |days| && Apart(days)
    ensures Distinct(Map(WeatherFacts(days, n, outlooks), WEATHER_KEY))
  {
    hide Apart, Distinct, AnchorFact, Map;
    if n == 0 {
      NothingDistinct(WEATHER_KEY);
    } else {
      WeatherDistinct(days, n - 1, outlooks);
      if Anchored(days[n - 1]) {
        var earlier := WeatherFacts(days, n - 1, outlooks);
        var fact := AnchorFact(days[n - 1], outlooks(n - 1).forecast);
        assert WeatherFacts(days, n, outlooks) == earlier + [fact];
        forall w | w in earlier ensures w.ref != fact.ref {
          ReferenceIsNew(days, n - 1, outlooks, w);
        }
        DistinctOneMore(earlier, fact, WEATHER_KEY);
      } else {
        assert WeatherFacts(days, n, outlooks) == WeatherFacts(days, n - 1, outlooks);
      }
    }
  }

  lemma DayIsGrounded(base: Snapshot, draft: Draft, i: nat, oracle: LegOracle, mode: string)
    requires i < |draft.days| && LegsFollow(draft.days[i], oracle, mode)
    ensures DayGrounded(PlanSnapshot(base, draft), ToDay(draft.days[i], draft.weather))
  {
    var s := PlanSnapshot(base, draft);
    var planned := draft.days[i];
    var day := ToDay(planned, draft.weather);
    forall id | id in day.placeIds ensures HasPlace(s.places, id) {
      var k :| 0 <= k < |day.placeIds| && day.placeIds[k] == id;
      var p := planned.places[k];
      assert planned in draft.days && p in planned.places;
      VisitsFromDays(draft.days, p);
      SnapshotPlaces(base, draft);
      assert TO_PLACE(p) in s.places && TO_PLACE(p).id == id;
    }
    forall k | 0 <= k < |day.segmentIds|
      ensures Joins(s.segments, day.segmentIds[k], day.placeIds[k], day.placeIds[k + 1])
    {
      var g := planned.segments[k];
      assert g == LegOf(oracle, k, planned.places[k].id, planned.places[k + 1].id, mode);
      assert g in Map(draft.days, DAY_SEGMENTS)[i];
      FlattenMember(Map(draft.days, DAY_SEGMENTS), g);
    }
    var about := (w: Weather) => w.place in IdSet(planned.places);
    forall ref | ref in day.weatherRefs ensures exists w :: w in s.weather && w.ref == ref && w.place in day.placeIds {
      var k :| 0 <= k < |day.weatherRefs| && day.weatherRefs[k] == ref;
      var w := Filter(draft.weather, about)[k];
      FilterMember(draft.weather, about, w);
      var p :| p in planned.places && p.id == w.place;
      MapMember(planned.places, PLANNING_ID, p);
    }
  }

  lemma DrawnPlacesUnique(base: Snapshot, draft: Draft)
    requires Distinct(Map(Visits(draft), PLANNING_ID))
    ensures Distinct(Map(PlanSnapshot(base, draft).places, PLACE_KEY))
  {
    assert Map(PlanSnapshot(base, draft).places, PLACE_KEY) == Map(Visits(draft), PLANNING_ID);
  }

  lemma DrawnFactsUnique(base: Snapshot, draft: Draft, legs: Legs, mode: string, outlooks: Outlooks)
    requires Drawn(draft, legs, mode, outlooks) && FreshLegs(legs, draft.repairAttempts)
    ensures UniqueFacts(PlanSnapshot(base, draft))
  {
    hide Distinct, Map, Flatten, Apart, Visits, WeatherFacts;
    DrawnPlacesUnique(base, draft);
    DrawnDaysApart(draft, legs, mode, outlooks);
    SegmentsDistinct(draft, legs, mode, outlooks);
    WeatherDistinct(draft.days, |draft.days|, outlooks);
    forall w | w in draft.weather ensures w.place == w.ref.place {
      WeatherFactOrigin(draft.days, |draft.days|, outlooks, w);
    }
  }

  lemma DrawnIsWF(base: Snapshot, draft: Draft, legs: Legs, mode: string, outlooks: Outlooks)
    requires Drawn(draft, legs, mode, outlooks) && FreshLegs(legs, draft.repairAttempts)
    ensures WF(PlanSnapshot(base, draft))
  {
    hide PlanSnapshot, Drawn, FreshLegs, UniqueFacts, DayGrounded;
    DrawnFactsUnique(base, draft, legs, mode, outlooks);
    DrawnDaysApart(draft, legs, mode, outlooks);
    DaysDisjoint(base, draft);
    DaysGrounded(base, draft, legs, mode, outlooks);
  }

  lemma DaysGrounded(base: Snapshot, draft: Draft, legs: Legs, mode: string, outlooks: Outlooks)
    requires Drawn(draft, legs, mode, outlooks)
    ensures Numbered(PlanSnapshot(base, draft).days)
    ensures forall i :: 0 <= i < |PlanSnapshot(base, draft).days| ==>
              DayGrounded(PlanSnapshot(base, draft), PlanSnapshot(base, draft).days[i])
  {
    var s := PlanSnapshot(base, draft);
    forall i | 0 <= i < |s.days| ensures s.days[i].number == i + 1 && DayGrounded(s, s.days[i]) {
      SnapshotDay(base, draft, i);
      DayIsGrounded(base, draft, i, legs(draft.repairAttempts, i).legs, mode);
    }
  }

  lemma DaysDisjoint(base: Snapshot, draft: Draft)
    requires Apart(draft.days)
    ensures Disjoint(PlanSnapshot(base, draft).days)
  {
    var days := PlanSnapshot(base, draft).days;
    forall i | 0 <= i < |days| ensures days[i].placeIds == Map(draft.days[i].places, PLANNING_ID) {
      SnapshotDay(base, draft, i);
    }
  }

  /** Every feasible plan, committed, is a well-formed itinerary. */
  lemma CommittedPlanIsWF(
    snapshot: Snapshot, stored: seq<StoredPlace>, naming: Naming, base: Snapshot, places: seq<PlanningPlace>,
    d: Distance, legs: Legs, outlooks: Outlooks, draft: Draft, arranged: Schedule, dropped: multiset<PlanningPlace>)
    requires PlannedFromInput(snapshot, stored, naming, base, places, d, legs, outlooks, draft, arranged, dropped)
    requires Injective(naming) && KeyedByCandidate(stored) && FreshLegs(legs, draft.repairAttempts)
    ensures WF(PlanSnapshot(base, draft))
  {
    LoadedIdsDistinct(snapshot, stored, naming, base, places);
    PromiseIsDrawn(base.requirements, places, d, legs, outlooks, draft, arranged, dropped);
    DrawnIsWF(base, draft, legs, ModeOf(base.requirements), outlooks);
  }
}
