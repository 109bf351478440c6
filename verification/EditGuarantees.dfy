/** Exactly when an edit is delivered, and what edits that need no confirmation can never do. */
module EditGuarantees {
  import opened Wrappers
  import opened RequirementData
  import opened SnapshotData
  import opened Providers
  import opened Editing
  import opened Recompute
  import opened EditPipeline
  import opened EditShapes
  import opened EditTheorems

  // ---- the pipeline never moves places --------------------------------------------------------

  /** `out` has the places, requirements and day contents of `shape`; only facts were renewed. */
  ghost predicate Carries(out: Snapshot, shape: Shape, touched: set<nat>) {
    && out.places == shape.places && out.requirements == shape.requirements
    && |out.days| == |shape.days|
    && forall i :: 0 <= i < |out.days| ==>
         && out.days[i].placeIds == shape.days[i].placeIds && out.days[i].number == shape.days[i].number
         && (shape.days[i].number !in touched ==> out.days[i] == shape.days[i])
  }

  lemma RenewedCarries(
    s: Snapshot, shape: Shape, dropped: seq<Id>, touched: set<nat>, legs: DayLegs, forecasts: Forecasts)
    ensures Carries(Renewed(s, shape, dropped, touched, legs, forecasts), shape, touched)
  {
  }

  /** The shape an edit went through, with everything later lemmas need to know about it. */
  ghost predicate WentThrough(
    s: Snapshot, intent: Intent, res: Resolution, out: Snapshot, number: nat, touched: set<nat>, shape: Shape)
  {
    Reshape(s, intent, res, number) == Ok(shape) && Carries(out, shape, touched)
  }

  lemma EditedWentThrough(
    s: Snapshot, intent: Intent, res: Resolution, legs: DayLegs, forecasts: Forecasts)
    returns (shape: Shape)
    requires Edited(s, intent, res, legs, forecasts).Ok?
    ensures var impact := ImpactOf(s, intent, res);
      WentThrough(s, intent, res, Edited(s, intent, res, legs, forecasts).value,
                  TargetDay(impact), Touched(impact.days), shape)
  {
    var impact := ImpactOf(s, intent, res);
    shape := Reshape(s, intent, res, TargetDay(impact)).value;
    RecomputedIsRenewed(s, shape, impact, Touched(impact.days), legs, forecasts);
    RenewedCarries(s, shape, impact.segments, Touched(impact.days), legs, forecasts);
  }

  /** The day an operation works on, and the days counted as affected. */
  ghost predicate Aimed(s: Snapshot, intent: Intent, res: Resolution, number: nat, touched: set<nat>) {
    && (res.days != [] ==> number == res.days[0] && touched == {number} && 1 <= number <= |s.days|)
    && (res.days == [] && intent.operation == AddPlace ==> touched == {number} && (s.days != [] ==> number == |s.days|))
    && (res.days == [] && intent.operation != AddPlace ==> number == 1 && touched == {})
  }

  lemma PointEditIsAimed(s: Snapshot, intent: Intent, res: Resolution)
    requires WF(s) && ValidIntent(intent) && Settled(s, intent, res) && intent.operation != ChangeDays
    ensures Aimed(s, intent, res, TargetDay(ImpactOf(s, intent, res)), Touched(ImpactOf(s, intent, res).days))
  {
    hide WF, ImpactOf;
    ImpactDays(s, intent, res);
    AffectedByPointEdit(s, intent, res);
  }

  lemma AffectedByPointEdit(s: Snapshot, intent: Intent, res: Resolution)
    requires WF(s) && ValidIntent(intent) && Settled(s, intent, res) && intent.operation != ChangeDays
    ensures var affected := AffectedList(s, intent, res);
      if res.days != [] then affected == [res.days[0]] && 1 <= res.days[0] <= |s.days|
      else if intent.operation == AddPlace then affected == (if s.days != [] then [|s.days|] else [1])
      else affected == []
  {
    if res.days != [] {
      assert res.days == [res.days[0]] && res.days[0] in res.days;
    }
  }

  lemma SamePlacesSameDisjoint(a: seq<Day>, b: seq<Day>)
    requires |a| == |b| && forall i :: 0 <= i < |a| ==> a[i].placeIds == b[i].placeIds
    ensures Disjoint(a) <==> Disjoint(b)
    ensures forall x :: OnSomeDay(a, x) <==> OnSomeDay(b, x)
  {
    forall x ensures OnSomeDay(a, x) <==> OnSomeDay(b, x) {
      if OnSomeDay(a, x) {
        var i :| 0 <= i < |a| && x in a[i].placeIds;
        assert x in b[i].placeIds;
      }
      if OnSomeDay(b, x) {
        var i :| 0 <= i < |b| && x in b[i].placeIds;
        assert x in a[i].placeIds;
      }
    }
  }

  /** A place scheduled twice by the operation stays scheduled twice. */
  lemma OverlapNotDelivered(s: Snapshot, intent: Intent, res: Resolution, legs: DayLegs, forecasts: Forecasts)
    requires var shape := Reshape(s, intent, res, TargetDay(ImpactOf(s, intent, res)));
      shape.Ok? ==> !Disjoint(shape.value.days)
    ensures Edited(s, intent, res, legs, forecasts).Ok? ==>
        !Disjoint(Edited(s, intent, res, legs, forecasts).value.days)
    ensures !Delivered(s, intent, res, legs, forecasts)
  {
    if Edited(s, intent, res, legs, forecasts).Ok? {
      var shape := EditedWentThrough(s, intent, res, legs, forecasts);
      SamePlacesSameDisjoint(Edited(s, intent, res, legs, forecasts).value.days, shape.days);
    }
  }

  // ---- the edits that are not delivered -------------------------------------------------------

  lemma AppendOverlaps(s: Snapshot, places: seq<Place>, days: seq<Day>, p: Place, number: nat)
    requires Numbered(days) && Disjoint(days) && 1 <= number <= |days| && OnSomeDay(days, p.id)
    ensures Added(s, places, days, p, number).Ok? && !Disjoint(Added(s, places, days, p, number).value.days)
  {
    AddedToDay(s, places, days, p, number);
    AppendIsDisjoint(days, number - 1, p.id);
  }

  lemma AddOverlaps(s: Snapshot, intent: Intent, res: Resolution, number: nat, touched: set<nat>)
    requires WF(s) && ValidIntent(intent) && intent.operation == AddPlace && Aimed(s, intent, res, number, touched)
    requires s.days == [] || OnSomeDay(s.days, intent.replacement.value.id)
    ensures var shape := Reshape(s, intent, res, number); shape.Ok? ==> !Disjoint(shape.value.days)
  {
    if s.days == [] {
      AddedToDay(s, PlaceTable(s.places), s.days, intent.replacement.value, number);
    } else {
      AppendOverlaps(s, PlaceTable(s.places), s.days, intent.replacement.value, number);
    }
  }

  lemma RemovalKeepsOthers(days: seq<Day>, target: Id, x: Id)
    requires Disjoint(days) && Numbered(days) && x != target && OnSomeDay(days, x)
    ensures Disjoint(DropFromDays(days, target)) && Numbered(DropFromDays(days, target))
    ensures OnSomeDay(DropFromDays(days, target), x)
  {
    DropIsDisjoint(days, target);
  }

  lemma ReplaceOverlaps(s: Snapshot, intent: Intent, res: Resolution, number: nat, touched: set<nat>)
    requires WF(s) && ValidIntent(intent) && intent.operation == ReplacePlace && Aimed(s, intent, res, number, touched)
    requires res.days != [] && res.places != []
    requires intent.replacement.value.id != res.places[0] && OnSomeDay(s.days, intent.replacement.value.id)
    ensures var shape := Reshape(s, intent, res, number); shape.Ok? ==> !Disjoint(shape.value.days)
  {
    hide DropFromDays, DropPlace, PlaceTable, Added, Reordered, OnSomeDay, UniqueFacts, DayGrounded;
    RemovalKeepsOthers(s.days, res.places[0], intent.replacement.value.id);
    AppendOverlaps(s, DropPlace(PlaceTable(s.places), res.places[0]), DropFromDays(s.days, res.places[0]),
                   intent.replacement.value, number);
  }

  lemma ReplaceExtendsDayOne(s: Snapshot, intent: Intent, res: Resolution, out: Snapshot, shape: Shape)
    requires WF(s) && ValidIntent(intent) && intent.operation == ReplacePlace
    requires res.places != [] && (forall i :: 0 <= i < |s.days| ==> res.places[0] !in s.days[i].placeIds)
    requires WentThrough(s, intent, res, out, 1, {}, shape)
    ensures s.days != [] && out.days != [] && Numbered(out.days)
    ensures |out.days[0].placeIds| > |s.days[0].placeIds|
  {
    var days := DropFromDays(s.days, res.places[0]);
    FindNumbered(days, 1);
    if s.days != [] {
      DropElsewhere(s.days, res.places[0], 0);
    }
  }

  /** Replacing a place that is on no day, without naming a day, extends day 1, and the guard rejects that. */
  lemma ReplaceUnscheduled(s: Snapshot, intent: Intent, res: Resolution, legs: DayLegs, forecasts: Forecasts)
    requires WF(s) && ValidIntent(intent) && Settled(s, intent, res) && intent.operation == ReplacePlace
    requires res.days == []
    ensures var r := Edited(s, intent, res, legs, forecasts);
      r.Ok? ==>
        && s.days != [] && r.value.days != [] && |r.value.days[0].placeIds| > |s.days[0].placeIds|
        && !DaysUnchanged(s, r.value, ImpactOf(s, intent, res).days)
  {
    PointEditIsAimed(s, intent, res);
    if Edited(s, intent, res, legs, forecasts).Ok? {
      var out := Edited(s, intent, res, legs, forecasts).value;
      var shape := EditedWentThrough(s, intent, res, legs, forecasts);
      assert res.places[0] in res.places;
      ReplaceExtendsDayOne(s, intent, res, out, shape);
      LongerDayShows(s, out, ImpactOf(s, intent, res).days);
    }
  }

  lemma LongerDayShows(s: Snapshot, out: Snapshot, affected: seq<nat>)
    requires Numbered(s.days) && Numbered(out.days) && s.days != [] && out.days != []
    requires |out.days[0].placeIds| > |s.days[0].placeIds|
    requires Touched(affected) == {}
    ensures !DaysUnchanged(s, out, affected)
  {
    assert 1 in affected ==> 1 in Touched(affected);
    ViewAtNumbered(s, 1);
    ViewAtNumbered(out, 1);
    NumbersOfDays(s.days);
    assert 1 in NumbersOf(s.days);
    assert 1 in NumbersOf(s.days) + NumbersOf(out.days);
    assert ViewAt(s, 1).value.day == s.days[0] && ViewAt(out, 1).value.day == out.days[0];
  }

  lemma InapplicableEditIsNotDelivered(s: Snapshot, intent: Intent, legs: DayLegs, forecasts: Forecasts)
    requires WF(s) && ValidIntent(intent) && Resolve(s, intent).resolved
    requires !Applicable(s, intent, Resolve(s, intent))
    ensures !Delivered(s, intent, Resolve(s, intent), legs, forecasts)
  {
    var res := Resolve(s, intent);
    ResolveIsSettled(s, intent);
    PointEditIsAimed(s, intent, res);
    var impact := ImpactOf(s, intent, res);
    if intent.operation == AddPlace {
      AddOverlaps(s, intent, res, TargetDay(impact), Touched(impact.days));
      OverlapNotDelivered(s, intent, res, legs, forecasts);
    } else if res.days == [] {
      ReplaceUnscheduled(s, intent, res, legs, forecasts);
    } else {
      ReplaceOverlaps(s, intent, res, TargetDay(impact), Touched(impact.days));
      OverlapNotDelivered(s, intent, res, legs, forecasts);
    }
  }

  /**
   * For every well-formed itinerary, resolved intent and provider behaviour: the pipeline delivers a
   * well-formed itinerary that passes the guard if and only if the edit is applicable.
   */
  lemma DeliveredIffApplicable(s: Snapshot, intent: Intent, legs: DayLegs, forecasts: Forecasts)
    requires WF(s) && ValidIntent(intent) && Resolve(s, intent).resolved && FreshSegments(s, legs)
    ensures Delivered(s, intent, Resolve(s, intent), legs, forecasts)
       <==> Applicable(s, intent, Resolve(s, intent))
  {
    if Applicable(s, intent, Resolve(s, intent)) {
      ApplicableEditIsDelivered(s, intent, legs, forecasts);
    } else {
      InapplicableEditIsNotDelivered(s, intent, legs, forecasts);
    }
  }

  // ---- edits without confirmation -------------------------------------------------------------

  /** The places on some day after the operation. */
  ghost predicate StillVisited(s: Snapshot, intent: Intent, res: Resolution, id: Id) {
    || (intent.operation in {AddPlace, ReplacePlace} && intent.replacement.Some? && id == intent.replacement.value.id)
    || (OnSomeDay(s.days, id) && !(intent.operation in {RemovePlace, ReplacePlace} && id in res.places))
  }

  lemma AppendVisits(days: seq<Day>, i: nat, id: Id)
    requires i < |days|
    ensures forall x :: OnSomeDay(Appended(days, i, id), x) <==> OnSomeDay(days, x) || x == id
  {
    var after := Appended(days, i, id);
    assert id in after[i].placeIds;
    forall x | OnSomeDay(days, x) ensures OnSomeDay(after, x) {
      var j :| 0 <= j < |days| && x in days[j].placeIds;
      assert x in after[j].placeIds;
    }
    forall x | OnSomeDay(after, x) && x != id ensures OnSomeDay(days, x) {
      var j :| 0 <= j < |after| && x in after[j].placeIds;
      assert x in days[j].placeIds;
    }
  }

  lemma ReorderVisits(days: seq<Day>, i: nat, order: seq<Id>)
    requires i < |days| && multiset(order) == multiset(days[i].placeIds)
    ensures forall x :: OnSomeDay(Replaced(days, i, order), x) <==> OnSomeDay(days, x)
  {
    forall x ensures x in order <==> x in days[i].placeIds {
      assert x in order <==> x in multiset(order);
      assert x in days[i].placeIds <==> x in multiset(days[i].placeIds);
    }
    var after := Replaced(days, i, order);
    forall x ensures OnSomeDay(after, x) <==> OnSomeDay(days, x) {
      if OnSomeDay(after, x) {
        var j :| 0 <= j < |after| && x in after[j].placeIds;
        assert x in days[j].placeIds;
      }
      if OnSomeDay(days, x) {
        var j :| 0 <= j < |days| && x in days[j].placeIds;
        assert x in after[j].placeIds;
      }
    }
  }

  /** Same number of days and requirements, and exactly the expected places visited. */
  ghost predicate VisitsExpected(s: Snapshot, intent: Intent, res: Resolution, shape: Shape) {
    && |shape.days| == |s.days| && shape.requirements == s.requirements
    && forall id :: OnSomeDay(shape.days, id) <==> StillVisited(s, intent, res, id)
  }

  lemma AddedVisits(s: Snapshot, places: seq<Place>, days: seq<Day>, p: Place, number: nat)
    requires Added(s, places, days, p, number).Ok?
    ensures var shape := Added(s, places, days, p, number).value;
      && |shape.days| == |days| && shape.requirements == s.requirements
      && forall id :: OnSomeDay(shape.days, id) <==> OnSomeDay(days, id) || id == p.id
  {
    hide PutPlace, OnSomeDay;
    AppendVisits(days, FindDay(days, number).value, p.id);
  }

  lemma AddVisits(s: Snapshot, intent: Intent, res: Resolution, number: nat, shape: Shape)
    requires intent.operation == AddPlace && Reshape(s, intent, res, number) == Ok(shape)
    ensures VisitsExpected(s, intent, res, shape)
  {
    hide Added, PlaceTable, OnSomeDay;
    if intent.replacement.Some? {
      AddedVisits(s, PlaceTable(s.places), s.days, intent.replacement.value, number);
    }
  }

  lemma RemoveVisits(s: Snapshot, intent: Intent, res: Resolution, number: nat, shape: Shape)
    requires intent.operation == RemovePlace && |res.places| == 1 && Reshape(s, intent, res, number) == Ok(shape)
    ensures VisitsExpected(s, intent, res, shape)
  {
    hide DropFromDays, DropPlace, PlaceTable, OnSomeDay;
    assert forall id :: id in res.places <==> id == res.places[0];
    DropVisits(s.days, res.places[0]);
  }

  lemma ReplaceVisits(s: Snapshot, intent: Intent, res: Resolution, number: nat, shape: Shape)
    requires intent.operation == ReplacePlace && |res.places| == 1 && Reshape(s, intent, res, number) == Ok(shape)
    ensures VisitsExpected(s, intent, res, shape)
  {
    hide DropFromDays, DropPlace, PlaceTable, Added, OnSomeDay;
    var target := res.places[0];
    assert forall id :: id in res.places <==> id == target;
    DropVisits(s.days, target);
    if intent.replacement.Some? {
      AddedVisits(s, DropPlace(PlaceTable(s.places), target), DropFromDays(s.days, target),
                  intent.replacement.value, number);
    }
  }

  lemma ReorderKeepsVisits(s: Snapshot, intent: Intent, res: Resolution, number: nat, shape: Shape)
    requires intent.operation == EditDay && Reshape(s, intent, res, number) == Ok(shape)
    ensures VisitsExpected(s, intent, res, shape)
  {
    hide FindDay, NearestOrder, PlaceTable, OnSomeDay;
    var i := FindDay(s.days, number).value;
    var ids, places := s.days[i].placeIds, PlaceTable(s.places);
    NearestOrderKeeps(ids, places);
    ReorderVisits(s.days, i, NearestOrder(ids, places).value);
  }

  /** For the operations on places, which places are visited afterwards, whatever the itinerary. */
  lemma VisitsAfter(s: Snapshot, intent: Intent, res: Resolution, number: nat, shape: Shape)
    requires |res.places| <= 1 && intent.operation != ChangeDays && Reshape(s, intent, res, number) == Ok(shape)
    ensures VisitsExpected(s, intent, res, shape)
  {
    hide VisitsExpected;
    match intent.operation {
      case AddPlace => AddVisits(s, intent, res, number, shape);
      case RemovePlace => RemoveVisits(s, intent, res, number, shape);
      case ReplacePlace => ReplaceVisits(s, intent, res, number, shape);
      case EditDay => ReorderKeepsVisits(s, intent, res, number, shape);
    }
  }

  lemma ResolvesToOnePlace(s: Snapshot, intent: Intent)
    ensures |Resolve(s, intent).places| <= 1
  {
  }

  /** No confirmation is asked for: not a day count change, at most one day, no must-visit removed. */
  ghost predicate Harmless(s: Snapshot, intent: Intent, res: Resolution, touched: set<nat>) {
    && intent.operation != ChangeDays
    && |touched| <= 1
    && (intent.operation in {RemovePlace, ReplacePlace} ==>
          forall id :: id in res.places ==> id !in IdsOf(s.requirements, MustVisitIds))
  }

  lemma NoRisk(s: Snapshot, intent: Intent, res: Resolution, affected: seq<nat>)
    requires Risks(s, intent, res, affected) == []
    ensures intent.operation != ChangeDays && |affected| <= 1
    ensures intent.operation in {RemovePlace, ReplacePlace} ==>
        forall id :: id in res.places ==> id !in IdsOf(s.requirements, MustVisitIds)
  {
    hide IdsOf;
  }

  lemma FewTouched(affected: seq<nat>)
    requires |affected| <= 1
    ensures |Touched(affected)| <= 1
  {
    assert Touched(affected) == if affected == [] then {} else {affected[0]};
  }

  lemma UnconfirmedIsHarmless(s: Snapshot, intent: Intent, res: Resolution)
    requires !ImpactOf(s, intent, res).confirm
    ensures Harmless(s, intent, res, Touched(ImpactOf(s, intent, res).days))
  {
    assert Risks(s, intent, res, AffectedList(s, intent, res)) == [];
    hide ImpactOf, Risks, AffectedList, Touched, IdsOf;
    ImpactDays(s, intent, res);
    NoRisk(s, intent, res, AffectedList(s, intent, res));
    FewTouched(AffectedList(s, intent, res));
  }

  ghost predicate KeepsMusts(s: Snapshot, out: Snapshot) {
    forall id :: id in IdsOf(s.requirements, MustVisitIds) && OnSomeDay(s.days, id) ==> OnSomeDay(out.days, id)
  }

  lemma HarmlessKeepsMusts(
    s: Snapshot, intent: Intent, res: Resolution, out: Snapshot, number: nat, touched: set<nat>, shape: Shape)
    requires |res.places| <= 1 && Harmless(s, intent, res, touched)
    requires WentThrough(s, intent, res, out, number, touched, shape)
    ensures |out.days| == |s.days| && out.requirements == s.requirements && KeepsMusts(s, out)
  {
    VisitsAfter(s, intent, res, number, shape);
    SamePlacesSameDisjoint(out.days, shape.days);
    forall id | id in IdsOf(s.requirements, MustVisitIds) && OnSomeDay(s.days, id) ensures OnSomeDay(out.days, id) {
      assert StillVisited(s, intent, res, id);
    }
  }

  /**
   * Whatever the itinerary, well formed or not, an edit that needs no confirmation keeps the number of days,
   * keeps every must-visit place on the itinerary, and counts at most one day as affected.
   */
  lemma UnconfirmedEditIsSafe(s: Snapshot, intent: Intent, legs: DayLegs, forecasts: Forecasts)
    requires !ImpactOf(s, intent, Resolve(s, intent)).confirm
    requires Edited(s, intent, Resolve(s, intent), legs, forecasts).Ok?
    ensures var out := Edited(s, intent, Resolve(s, intent), legs, forecasts).value;
      |out.days| == |s.days| && out.requirements == s.requirements && KeepsMusts(s, out)
    ensures |Touched(ImpactOf(s, intent, Resolve(s, intent)).days)| <= 1
  {
    var res := Resolve(s, intent);
    var impact := ImpactOf(s, intent, res);
    ResolvesToOnePlace(s, intent);
    UnconfirmedIsHarmless(s, intent, res);
    var shape := EditedWentThrough(s, intent, res, legs, forecasts);
    HarmlessKeepsMusts(s, intent, res, Edited(s, intent, res, legs, forecasts).value,
                       TargetDay(impact), Touched(impact.days), shape);
  }
}
