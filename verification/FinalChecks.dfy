/** `validate_final_snapshot`: the integrity checks a snapshot must pass before it is published. */
module FinalChecks {
  import opened Sequences
  import opened RequirementData
  import opened SnapshotData

  datatype Issue =
    | EmptyItinerary
    | DayCountMismatch(expected: int, actual: nat)
    | DanglingPlace(ids: seq<Id>)
    | DanglingSegment(segments: seq<Id>)
    | MustVisitMissing(missing: seq<Id>)
    | ExcludedPlaceIncluded(included: seq<Id>)
    | ProposedFacts(proposed: seq<Id>)

  function PlaceIds(s: Snapshot): set<Id> {
    set p | p in s.places :: p.id
  }

  function SegmentIds(s: Snapshot): set<Id> {
    set g | g in s.segments :: g.id
  }

  function PlannedIds(s: Snapshot): set<Id> {
    set day, id | day in s.days && id in day.placeIds :: id
  }

  function DanglingSegmentIds(s: Snapshot): set<Id> {
    set day, id | day in s.days && id in day.segmentIds && id !in SegmentIds(s) :: id
  }

  function ProposedIds(s: Snapshot): set<Id> {
    set p | p in s.places && p.status == Proposed :: p.id
  }

  function AsSet<T>(s: seq<T>): set<T> {
    set x | x in s
  }

  function IfAny(ids: set<Id>, issue: seq<Id> -> Issue): seq<Issue> {
    if ids == {} then [] else [issue(SortedIds(ids))]
  }

  /** The issues in the order in which `validate_final_snapshot` collects them. */
  function ValidateFinal(s: Snapshot): seq<Issue> {
    var expected := NumberOf(s.requirements, Days);
    var planned := PlannedIds(s);
    (if s.days == [] then [EmptyItinerary] else [])
    + (if expected.Some? && |s.days| != expected.value then [DayCountMismatch(expected.value, |s.days|)] else [])
    + IfAny(planned - PlaceIds(s), ids => DanglingPlace(ids))
    + IfAny(DanglingSegmentIds(s), ids => DanglingSegment(ids))
    + IfAny(AsSet(IdsOf(s.requirements, MustVisitIds)) - planned, ids => MustVisitMissing(ids))
    + IfAny(AsSet(IdsOf(s.requirements, ExcludedIds)) * planned, ids => ExcludedPlaceIncluded(ids))
    + IfAny(ProposedIds(s), ids => ProposedFacts(ids))
  }

  /** What a published itinerary guarantees. */
  ghost predicate Publishable(s: Snapshot) {
    && s.days != []
    && (NumberOf(s.requirements, Days).Some? ==> |s.days| == NumberOf(s.requirements, Days).value)
    && (forall day, id :: day in s.days && id in day.placeIds ==> HasPlace(s.places, id))
    && (forall day, id :: day in s.days && id in day.segmentIds ==> exists g :: g in s.segments && g.id == id)
    && (forall id :: id in IdsOf(s.requirements, MustVisitIds) ==> exists day :: day in s.days && id in day.placeIds)
    && (forall day, id :: day in s.days && id in day.placeIds ==> id !in IdsOf(s.requirements, ExcludedIds))
    && (forall p :: p in s.places ==> p.status != Proposed)
  }

  lemma NoIssueIffPublishable(s: Snapshot)
    ensures ValidateFinal(s) == [] <==> Publishable(s)
  {
    hide PlannedIds, PlaceIds, DanglingSegmentIds, AsSet, ProposedIds, IdsOf, HasPlace;
    var planned := PlannedIds(s);
    assert planned - PlaceIds(s) == {} <==>
           forall day, id :: day in s.days && id in day.placeIds ==> HasPlace(s.places, id) by {
      NoDanglingPlace(s);
    }
    assert DanglingSegmentIds(s) == {} <==>
           forall day, id :: day in s.days && id in day.segmentIds ==> exists g :: g in s.segments && g.id == id by {
      NoDanglingSegment(s);
    }
    assert AsSet(IdsOf(s.requirements, MustVisitIds)) - planned == {} <==>
           forall id ::
             id in IdsOf(s.requirements, MustVisitIds) ==> exists day :: day in s.days && id in day.placeIds by {
      NoMissingMust(s);
    }
    assert AsSet(IdsOf(s.requirements, ExcludedIds)) * planned == {} <==>
           forall day, id :: day in s.days && id in day.placeIds ==> id !in IdsOf(s.requirements, ExcludedIds) by {
      NoneExcluded(s);
    }
    assert ProposedIds(s) == {} <==> forall p :: p in s.places ==> p.status != Proposed by {
      NoneProposed(s);
    }
  }

  lemma NoneProposed(s: Snapshot)
    ensures ProposedIds(s) == {} <==> forall p :: p in s.places ==> p.status != Proposed
  {
    forall p | p in s.places && p.status == Proposed ensures p.id in ProposedIds(s) {}
  }

  lemma NoDanglingPlace(s: Snapshot)
    ensures PlannedIds(s) - PlaceIds(s) == {} <==>
            forall day, id :: day in s.days && id in day.placeIds ==> HasPlace(s.places, id)
  {
    forall day, id | day in s.days && id in day.placeIds ensures id in PlannedIds(s) {}
    forall id ensures id in PlaceIds(s) <==> HasPlace(s.places, id) {}
    if PlannedIds(s) - PlaceIds(s) == {} {
      forall day, id | day in s.days && id in day.placeIds ensures HasPlace(s.places, id) {
        assert id !in PlannedIds(s) - PlaceIds(s);
      }
    }
  }

  lemma NoDanglingSegment(s: Snapshot)
    ensures DanglingSegmentIds(s) == {} <==>
            forall day, id :: day in s.days && id in day.segmentIds ==> exists g :: g in s.segments && g.id == id
  {
    if DanglingSegmentIds(s) == {} {
      forall day, id | day in s.days && id in day.segmentIds ensures exists g :: g in s.segments && g.id == id {
        assert id !in DanglingSegmentIds(s);
        assert id in SegmentIds(s);
      }
    }
  }

  lemma NoMissingMust(s: Snapshot)
    ensures AsSet(IdsOf(s.requirements, MustVisitIds)) - PlannedIds(s) == {} <==>
            forall id :: id in IdsOf(s.requirements, MustVisitIds) ==> exists day :: day in s.days && id in day.placeIds
  {
    var missing := AsSet(IdsOf(s.requirements, MustVisitIds)) - PlannedIds(s);
    if missing == {} {
      forall id | id in IdsOf(s.requirements, MustVisitIds) ensures exists day :: day in s.days && id in day.placeIds {
        assert id !in missing;
      }
    }
  }

  lemma NoneExcluded(s: Snapshot)
    ensures AsSet(IdsOf(s.requirements, ExcludedIds)) * PlannedIds(s) == {} <==>
            forall day, id :: day in s.days && id in day.placeIds ==> id !in IdsOf(s.requirements, ExcludedIds)
  {
    var included := AsSet(IdsOf(s.requirements, ExcludedIds)) * PlannedIds(s);
    if included == {} {
      forall day, id | day in s.days && id in day.placeIds ensures id !in IdsOf(s.requirements, ExcludedIds) {
        assert id in PlannedIds(s);
        assert id !in included;
      }
    }
  }
}
