/** End to end: what a feasible plan, once committed, means for editing and for publication. */
module PlanTheorems {
  import opened Sequences
  import opened RequirementData
  import opened SnapshotData
  import opened PlannerData
  import opened Arranging
  import opened Planner
  import opened Planning
  import opened PlanPersistence
  import opened FinalChecks

  /** Everything a feasible plan schedules, day after day. */
  function Visits(draft: Draft): seq<PlanningPlace> {
    Flatten(Map(draft.days, DAY_PLACES))
  }

  ghost predicate SameContents(days: seq<PlannedDay>, arranged: Schedule) {
    && |days| == |arranged|
    && forall i :: 0 <= i < |days| ==> multiset(days[i].places) == multiset(arranged[i])
  }

  lemma {:induction false} SameVisits(days: seq<PlannedDay>, arranged: Schedule)
    requires SameContents(days, arranged)
    ensures multiset(Flatten(Map(days, DAY_PLACES))) == multiset(Flatten(arranged))
  {
    if days != [] {
      assert Map(days, DAY_PLACES) == [days[0].places] + Map(days[1..], DAY_PLACES);
      SameVisits(days[1..], arranged[1..]);
    }
  }

  lemma VisitsFromDays(days: seq<PlannedDay>, p: PlanningPlace)
    ensures p in Flatten(Map(days, DAY_PLACES)) <==> exists day :: day in days && p in day.places
  {
    FlattenMember(Map(days, DAY_PLACES), p);
    if p in Flatten(Map(days, DAY_PLACES)) {
      var i :| 0 <= i < |days| && p in Map(days, DAY_PLACES)[i];
      assert days[i] in days && p in days[i].places;
    }
    if day :| day in days && p in day.places {
      var i :| 0 <= i < |days| && days[i] == day;
      assert p in Map(days, DAY_PLACES)[i];
    }
  }

  lemma PromiseVisits(
    r: Requirements, places: seq<PlanningPlace>, d: Distance, legs: Legs, outlooks: Outlooks,
    draft: Draft, arranged: Schedule, dropped: multiset<PlanningPlace>)
    requires KnownIntensity(IntensityOf(r))
    requires PlanPromise(r, places, d, legs, outlooks, draft, arranged, dropped)
    ensures multiset(Visits(draft)) + dropped == multiset(places)
    ensures forall p :: p in dropped ==> p.priority == Accepted
  {
    assert SameContents(draft.days, arranged) by {
      forall i | 0 <= i < |draft.days| ensures multiset(draft.days[i].places) == multiset(arranged[i]) {
        assert Routed(draft.days[i], i + 1, r, arranged[i], CapacityTemplate(IntensityOf(r)), d);
      }
    }
    SameVisits(draft.days, arranged);
  }

  /** A planned place that is not merely accepted is always visited. */
  lemma KeptUnlessAccepted(
    places: seq<PlanningPlace>, visits: seq<PlanningPlace>, dropped: multiset<PlanningPlace>, p: PlanningPlace)
    requires multiset(visits) + dropped == multiset(places)
    requires forall q :: q in dropped ==> q.priority == Accepted
    requires p in places && p.priority != Accepted
    ensures p in visits
  {
    assert p in multiset(places);
    assert p !in dropped;
    assert p in multiset(visits) + dropped;
    assert p in multiset(visits);
  }

  lemma VisitIsPlanned(
    places: seq<PlanningPlace>, visits: seq<PlanningPlace>, dropped: multiset<PlanningPlace>, p: PlanningPlace)
    requires multiset(visits) + dropped == multiset(places)
    requires p in visits
    ensures p in places
  {
    assert p in multiset(visits);
    assert p in multiset(places);
  }

  // ---- publication ----------------------------------------------------------------------------

  lemma SnapshotDay(base: Snapshot, draft: Draft, i: nat)
    requires i < |draft.days|
    ensures |PlanSnapshot(base, draft).days| == |draft.days|
    ensures PlanSnapshot(base, draft).days[i] == ToDay(draft.days[i], draft.weather)
  {
  }

  lemma PlannedPlaceIsVisit(base: Snapshot, draft: Draft, day: Day, id: Id)
    requires day in PlanSnapshot(base, draft).days && id in day.placeIds
    ensures exists p :: p in Visits(draft) && p.id == id
  {
    var days := PlanSnapshot(base, draft).days;
    var i :| 0 <= i < |days| && days[i] == day;
    SnapshotDay(base, draft, i);
    var k :| 0 <= k < |day.placeIds| && day.placeIds[k] == id;
    var p := draft.days[i].places[k];
    assert draft.days[i] in draft.days && p in draft.days[i].places;
    VisitsFromDays(draft.days, p);
  }

  lemma VisitIsOnDay(base: Snapshot, draft: Draft, p: PlanningPlace)
    requires p in Visits(draft)
    ensures exists day :: day in PlanSnapshot(base, draft).days && p.id in day.placeIds
  {
    var days := PlanSnapshot(base, draft).days;
    VisitsFromDays(draft.days, p);
    var day :| day in draft.days && p in day.places;
    var i :| 0 <= i < |draft.days| && draft.days[i] == day;
    SnapshotDay(base, draft, i);
    MapMember(day.places, PLANNING_ID, p);
    assert days[i] in days && p.id in days[i].placeIds;
  }

  lemma SnapshotPlaces(base: Snapshot, draft: Draft)
    ensures forall p :: p in Visits(draft) ==> TO_PLACE(p) in PlanSnapshot(base, draft).places
    ensures forall q :: q in PlanSnapshot(base, draft).places ==> exists p :: p in Visits(draft) && q == TO_PLACE(p)
  {
    forall p | p in Visits(draft) ensures TO_PLACE(p) in PlanSnapshot(base, draft).places {
      MapMember(Visits(draft), TO_PLACE, p);
    }
    forall q | q in PlanSnapshot(base, draft).places ensures exists p :: p in Visits(draft) && q == TO_PLACE(p) {
      var i :| 0 <= i < |PlanSnapshot(base, draft).places| && PlanSnapshot(base, draft).places[i] == q;
      assert Visits(draft)[i] in Visits(draft);
    }
  }

  lemma SnapshotSegments(base: Snapshot, draft: Draft)
    ensures Backed(PlanSnapshot(base, draft))
  {
    var s := PlanSnapshot(base, draft);
    forall day, id | day in s.days && id in day.segmentIds ensures exists g :: g in s.segments && g.id == id {
      var i :| 0 <= i < |s.days| && s.days[i] == day;
      SnapshotDay(base, draft, i);
      var k :| 0 <= k < |day.segmentIds| && day.segmentIds[k] == id;
      var g := draft.days[i].segments[k];
      FlattenMember(Map(draft.days, DAY_SEGMENTS), g);
      assert g in Map(draft.days, DAY_SEGMENTS)[i];
    }
  }

  /** All hypotheses of a plan made from loaded input. */
  ghost predicate PlannedFromInput(
    snapshot: Snapshot, stored: seq<StoredPlace>, naming: Naming, base: Snapshot, places: seq<PlanningPlace>,
    d: Distance, legs: Legs, outlooks: Outlooks, draft: Draft, arranged: Schedule, dropped: multiset<PlanningPlace>)
  {
    && InputPromise(snapshot, stored, naming, base, places)
    && KnownIntensity(IntensityOf(base.requirements))
    && PlanPromise(base.requirements, places, d, legs, outlooks, draft, arranged, dropped)
  }

  lemma MustVisitsScheduled(
    snapshot: Snapshot, stored: seq<StoredPlace>, naming: Naming, base: Snapshot, places: seq<PlanningPlace>,
    visits: seq<PlanningPlace>, dropped: multiset<PlanningPlace>, id: Id)
    requires InputPromise(snapshot, stored, naming, base, places)
    requires Plannable(base.requirements, places)
    requires multiset(visits) + dropped == multiset(places)
    requires forall q :: q in dropped ==> q.priority == Accepted
    requires id in IdsOf(base.requirements, MustVisitIds)
    ensures exists p :: p in visits && p.id == id
  {
    assert id in IdSet(places);
    var i :| 0 <= i < |places| && places[i].id == id;
    assert id in IdSetOf(base.requirements, MustVisitIds);
    assert places[i].priority == MustVisit;
    KeptUnlessAccepted(places, visits, dropped, places[i]);
  }

  lemma NoPlannedPlaceExcluded(
    snapshot: Snapshot, stored: seq<StoredPlace>, naming: Naming, base: Snapshot, places: seq<PlanningPlace>)
    requires InputPromise(snapshot, stored, naming, base, places)
    ensures NoneIn(places, IdsOf(base.requirements, ExcludedIds))
  {
    ExclusionsKept(snapshot, ByProviderId(Filter(stored, IS_SELECTED)), naming, base);
  }

  ghost predicate NoneIn(places: seq<PlanningPlace>, excluded: seq<Id>) {
    forall i :: 0 <= i < |places| ==> places[i].id !in excluded
  }

  ghost predicate Permitted(s: Snapshot, id: Id) {
    HasPlace(s.places, id) && id !in IdsOf(s.requirements, ExcludedIds)
  }

  lemma ScheduledIsAllowed(
    base: Snapshot, places: seq<PlanningPlace>, draft: Draft, dropped: multiset<PlanningPlace>, day: Day, id: Id)
    requires NoneIn(places, IdsOf(base.requirements, ExcludedIds))
    requires multiset(Visits(draft)) + dropped == multiset(places)
    requires day in PlanSnapshot(base, draft).days && id in day.placeIds
    ensures Permitted(PlanSnapshot(base, draft), id)
  {
    PlannedPlaceIsVisit(base, draft, day, id);
    var p :| p in Visits(draft) && p.id == id;
    SnapshotPlaces(base, draft);
    assert TO_PLACE(p) in PlanSnapshot(base, draft).places && TO_PLACE(p).id == id;
    VisitIsPlanned(places, Visits(draft), dropped, p);
  }

  lemma MustVisitIsOnDay(
    snapshot: Snapshot, stored: seq<StoredPlace>, naming: Naming, base: Snapshot, places: seq<PlanningPlace>,
    draft: Draft, dropped: multiset<PlanningPlace>, id: Id)
    requires InputPromise(snapshot, stored, naming, base, places)
    requires Plannable(base.requirements, places)
    requires multiset(Visits(draft)) + dropped == multiset(places)
    requires forall q :: q in dropped ==> q.priority == Accepted
    requires id in IdsOf(base.requirements, MustVisitIds)
    ensures exists day :: day in PlanSnapshot(base, draft).days && id in day.placeIds
  {
    MustVisitsScheduled(snapshot, stored, naming, base, places, Visits(draft), dropped, id);
    var p :| p in Visits(draft) && p.id == id;
    VisitIsOnDay(base, draft, p);
  }

  /** Every scheduled place has a fact and is not excluded. */
  ghost predicate Allowed(s: Snapshot) {
    forall day, id :: day in s.days && id in day.placeIds ==> Permitted(s, id)
  }

  ghost predicate MustsVisited(s: Snapshot) {
    forall id :: id in IdsOf(s.requirements, MustVisitIds) ==> exists day :: day in s.days && id in day.placeIds
  }

  ghost predicate Counted(s: Snapshot) {
    s.days != [] && (NumberOf(s.requirements, Days).Some? ==> |s.days| == NumberOf(s.requirements, Days).value)
  }

  lemma ConservedPlanIsAllowed(
    base: Snapshot, places: seq<PlanningPlace>, draft: Draft, dropped: multiset<PlanningPlace>)
    requires NoneIn(places, IdsOf(base.requirements, ExcludedIds))
    requires multiset(Visits(draft)) + dropped == multiset(places)
    ensures Allowed(PlanSnapshot(base, draft))
  {
    var s := PlanSnapshot(base, draft);
    forall day, id | day in s.days && id in day.placeIds ensures Permitted(s, id) {
      ScheduledIsAllowed(base, places, draft, dropped, day, id);
    }
  }

  lemma ConservedPlanVisitsMusts(
    snapshot: Snapshot, stored: seq<StoredPlace>, naming: Naming, base: Snapshot, places: seq<PlanningPlace>,
    draft: Draft, dropped: multiset<PlanningPlace>)
    requires InputPromise(snapshot, stored, naming, base, places)
    requires Plannable(base.requirements, places)
    requires multiset(Visits(draft)) + dropped == multiset(places)
    requires forall q :: q in dropped ==> q.priority == Accepted
    ensures MustsVisited(PlanSnapshot(base, draft))
  {
    var s := PlanSnapshot(base, draft);
    forall id | id in IdsOf(s.requirements, MustVisitIds) ensures exists day :: day in s.days && id in day.placeIds {
      MustVisitIsOnDay(snapshot, stored, naming, base, places, draft, dropped, id);
    }
  }

  /**
   * A committed plan passes every publication check, except that a scheduled place whose own fact is
   * still only proposed is reported, and nothing else is.
   */
  lemma CommittedPlanIsPublishable(
    snapshot: Snapshot, stored: seq<StoredPlace>, naming: Naming, base: Snapshot, places: seq<PlanningPlace>,
    d: Distance, legs: Legs, outlooks: Outlooks, draft: Draft, arranged: Schedule, dropped: multiset<PlanningPlace>)
    requires PlannedFromInput(snapshot, stored, naming, base, places, d, legs, outlooks, draft, arranged, dropped)
    ensures ValidateFinal(PlanSnapshot(base, draft)) == [] <==>
            forall p :: p in Visits(draft) ==> p.candidate.status != Proposed
  {
    PromiseVisits(base.requirements, places, d, legs, outlooks, draft, arranged, dropped);
    NoPlannedPlaceExcluded(snapshot, stored, naming, base, places);
    ConservedPlanIsAllowed(base, places, draft, dropped);
    ConservedPlanVisitsMusts(snapshot, stored, naming, base, places, draft, dropped);
    PublishableUnlessProposed(base, draft);
  }

  ghost predicate Backed(s: Snapshot) {
    forall day, id :: day in s.days && id in day.segmentIds ==> exists g :: g in s.segments && g.id == id
  }

  lemma SoundIsPublishable(s: Snapshot)
    requires Counted(s) && Allowed(s) && MustsVisited(s) && Backed(s)
    ensures Publishable(s) <==> forall p :: p in s.places ==> p.status != Proposed
  {
    forall day, id | day in s.days && id in day.placeIds
      ensures HasPlace(s.places, id) && id !in IdsOf(s.requirements, ExcludedIds)
    {
      assert Permitted(s, id);
    }
  }

  lemma PublishableUnlessProposed(base: Snapshot, draft: Draft)
    requires Counted(PlanSnapshot(base, draft))
    requires Allowed(PlanSnapshot(base, draft)) && MustsVisited(PlanSnapshot(base, draft))
    ensures ValidateFinal(PlanSnapshot(base, draft)) == [] <==>
            forall p :: p in Visits(draft) ==> p.candidate.status != Proposed
  {
    SnapshotSegments(base, draft);
    SoundIsPublishable(PlanSnapshot(base, draft));
    ProposedPlaces(base, draft);
    NoIssueIffPublishable(PlanSnapshot(base, draft));
  }

  lemma ProposedPlaces(base: Snapshot, draft: Draft)
    ensures (forall q :: q in PlanSnapshot(base, draft).places ==> q.status != Proposed) <==>
            forall p :: p in Visits(draft) ==> p.candidate.status != Proposed
  {
    SnapshotPlaces(base, draft);
    if forall q :: q in PlanSnapshot(base, draft).places ==> q.status != Proposed {
      forall p | p in Visits(draft) ensures p.candidate.status != Proposed {
        assert TO_PLACE(p) in PlanSnapshot(base, draft).places;
      }
    }
  }
}
