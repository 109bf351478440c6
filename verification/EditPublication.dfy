/** How edits interact with the guard on arbitrary previews and with the publication checks. */
module EditPublication {
  import opened Wrappers
  import opened Sequences
  import opened RequirementData
  import opened SnapshotData
  import opened Providers
  import opened Editing
  import opened Recompute
  import opened EditPipeline
  import opened EditShapes
  import opened EditTheorems
  import opened EditGuarantees
  import opened EditGuard
  import opened FinalChecks

  // ---- the guard on arbitrary previews --------------------------------------------------------

  lemma {:induction false} NoDayNoView(days: seq<Day>, n: nat)
    ensures LastDay(days, n).None? <==> n !in NumbersOf(days)
  {
    if days != [] {
      var k := |days| - 1;
      NoDayNoView(days[..k], n);
      assert NumbersOf(days) == NumbersOf(days[..k]) + [days[k].number] by {
        assert days == days[..k] + [days[k]];
        MapConcat(days[..k], [days[k]], DAY_NUMBER_OF);
      }
    }
  }

  /** No day other than day `n` looks different. */
  ghost predicate OnlyDayChanged(base: Snapshot, preview: Snapshot, n: nat) {
    forall m :: m != n ==> ViewAt(base, m) == ViewAt(preview, m)
  }

  /** Whatever the preview, a guarded change that counts at most one day as affected changes at most one day. */
  lemma GuardedChangeIsLocal(base: Snapshot, preview: Snapshot, affected: seq<nat>)
    requires DaysUnchanged(base, preview, affected)
    requires |Touched(affected)| <= 1
    ensures exists n: nat :: OnlyDayChanged(base, preview, n)
  {
    var touched := Touched(affected);
    var n := if affected == [] then 0 else affected[0];
    forall m | m != n ensures ViewAt(base, m) == ViewAt(preview, m) {
      NoDayNoView(base.days, m);
      NoDayNoView(preview.days, m);
      if m in affected {
        assert affected[0] in touched && m in touched;
        TwoElements(touched, affected[0], m);
      }
      assert m in NumbersOf(base.days) + NumbersOf(preview.days)
          <==> m in NumbersOf(base.days) || m in NumbersOf(preview.days) by {
        InConcat(NumbersOf(base.days), NumbersOf(preview.days), m);
      }
    }
    assert OnlyDayChanged(base, preview, n);
  }

  lemma TwoElements<T>(s: set<T>, x: T, y: T)
    requires x in s && y in s && |s| <= 1
    ensures x == y
  {
    assert |s - {x}| == |s| - 1;
    assert s - {x} == {};
  }

  // ---- publication ----------------------------------------------------------------------------

  /** The operation brings in a place. */
  predicate BringsIn(intent: Intent) {
    intent.operation in {AddPlace, ReplacePlace} && intent.replacement.Some?
  }

  /** The place an edit brings in, if any, may be published. */
  ghost predicate NewPlacePublishable(s: Snapshot, intent: Intent) {
    BringsIn(intent) ==>
      intent.replacement.value.id !in IdsOf(s.requirements, ExcludedIds) && intent.replacement.value.status != Proposed
  }

  lemma {:induction false} PlaceTableMembers(places: seq<Place>, q: Place)
    ensures q in PlaceTable(places) ==> q in places
  {
    if places != [] {
      var head, last := places[..|places| - 1], places[|places| - 1];
      PlaceTableMembers(head, q);
      PutPlaceMember(PlaceTable(head), last, q);
    }
  }

  lemma {:induction false} PlaceTableKnows(places: seq<Place>, id: Id)
    requires HasPlace(places, id)
    ensures HasPlace(PlaceTable(places), id)
  {
    var head, last := places[..|places| - 1], places[|places| - 1];
    if last.id != id {
      var q :| q in places && q.id == id;
      assert q in head;
      PlaceTableKnows(head, id);
    }
    PutPlaceKnows(PlaceTable(head), last, id);
  }

  /** Every place of the shape was there before or is brought in, and what is brought in is there. */
  lemma PlacesAfter(s: Snapshot, intent: Intent, res: Resolution, number: nat, shape: Shape, q: Place)
    requires intent.operation != ChangeDays && Reshape(s, intent, res, number) == Ok(shape)
    ensures q in shape.places ==> q in s.places || (BringsIn(intent) && q == intent.replacement.value)
    ensures BringsIn(intent) ==> intent.replacement.value in shape.places
  {
    hide FindDay, NearestOrder, PlaceTable, PutPlace, DropFromDays, HasPlace;
    PlaceTableMembers(s.places, q);
    if intent.operation in {RemovePlace, ReplacePlace} {
      FilterMember(PlaceTable(s.places), (p: Place) => p.id != res.places[0], q);
    }
    if BringsIn(intent) {
      PutPlaceMember(PlaceTable(s.places), intent.replacement.value, q);
      if intent.operation == ReplacePlace {
        PutPlaceMember(DropPlace(PlaceTable(s.places), res.places[0]), intent.replacement.value, q);
      }
    }
  }

  /** A place that is still visited still has its fact. */
  lemma FactKept(s: Snapshot, intent: Intent, res: Resolution, number: nat, shape: Shape, id: Id)
    requires |res.places| <= 1 && intent.operation != ChangeDays && Reshape(s, intent, res, number) == Ok(shape)
    requires StillVisited(s, intent, res, id) && (OnSomeDay(s.days, id) ==> HasPlace(s.places, id))
    ensures HasPlace(shape.places, id)
  {
    hide FindDay, NearestOrder, PlaceTable, PutPlace, DropPlace, DropFromDays, OnSomeDay, HasPlace;
    var table := PlaceTable(s.places);
    if HasPlace(s.places, id) {
      PlaceTableKnows(s.places, id);
    }
    if intent.operation in {RemovePlace, ReplacePlace} && HasPlace(table, id) && id != res.places[0] {
      DropPlaceKnows(table, res.places[0], id);
    }
    if BringsIn(intent) {
      var places := if intent.operation == ReplacePlace then DropPlace(table, res.places[0]) else table;
      if id == intent.replacement.value.id || HasPlace(places, id) {
        PutPlaceKnows(places, intent.replacement.value, id);
      }
    }
  }

  // ---- numbered days --------------------------------------------------------------------------

  /** No edit disturbs the numbering of the days. */
  lemma NumbersKept(s: Snapshot, intent: Intent, res: Resolution, number: nat, shape: Shape)
    requires Numbered(s.days) && Reshape(s, intent, res, number) == Ok(shape)
    ensures Numbered(shape.days)
  {
    hide NearestOrder, PlaceTable, PutPlace, DropPlace, Resize;
    if intent.operation == ChangeDays && intent.targetDays.Some? {
      ResizeDaysFacts(s.days, intent.targetDays.value);
    }
  }

  lemma EditedIsNumbered(s: Snapshot, intent: Intent, res: Resolution, legs: DayLegs, forecasts: Forecasts)
    requires Numbered(s.days) && Edited(s, intent, res, legs, forecasts).Ok?
    ensures Numbered(Edited(s, intent, res, legs, forecasts).value.days)
  {
    hide Edited, Reshape, ImpactOf;
    var shape := EditedWentThrough(s, intent, res, legs, forecasts);
    NumbersKept(s, intent, res, TargetDay(ImpactOf(s, intent, res)), shape);
  }

  // ---- segments -------------------------------------------------------------------------------

  /** Every segment a day lists is there. */
  ghost predicate SegmentsListed(s: Snapshot, day: Day) {
    forall id :: id in day.segmentIds ==> exists g :: g in s.segments && g.id == id
  }

  /** A rebuilt day lists its new legs. */
  lemma RebuiltDayIsListed(
    s: Snapshot, shape: Shape, dropped: seq<Id>, touched: set<nat>, legs: DayLegs, forecasts: Forecasts, i: nat)
    requires i < |shape.days| && shape.days[i].number in touched
    ensures var r := Renewed(s, shape, dropped, touched, legs, forecasts);
      |r.days| == |shape.days| && SegmentsListed(r, r.days[i])
  {
    hide KeptSegments, NewSegments, NewWeather, KeptWeather, PlacesOn, LegsOf;
    var r, days := Renewed(s, shape, dropped, touched, legs, forecasts), Cleared(shape.days, touched);
    var mode := ModeOf(shape.requirements);
    OwnSegmentsIncluded(days, touched, legs, mode, i);
    var own := SegmentsFor(days[i], touched, legs(i), mode);
    forall id | id in r.days[i].segmentIds ensures exists g :: g in r.segments && g.id == id {
      var k :| 0 <= k < |own| && Map(own, SEGMENT_KEY)[k] == id;
      assert own[k] in own;
      assert own[k] in r.segments && own[k].id == id;
    }
  }

  /** A day that looks the same lists what it listed. */
  lemma SameViewIsListed(s: Snapshot, r: Snapshot, i: nat)
    requires Numbered(s.days) && Numbered(r.days) && i < |r.days| && ViewAt(s, i + 1) == ViewAt(r, i + 1)
    requires forall day :: day in s.days ==> SegmentsListed(s, day)
    ensures SegmentsListed(r, r.days[i])
  {
    ViewAtNumbered(s, i + 1);
    ViewAtNumbered(r, i + 1);
    var day := r.days[i];
    assert s.days[i] == day && s.days[i] in s.days;
    FilterMembers(s.segments, ListedBy(day));
    FilterMembers(r.segments, ListedBy(day));
    forall id | id in day.segmentIds ensures exists g :: g in r.segments && g.id == id {
      var g :| g in s.segments && g.id == id;
      assert g in Filter(s.segments, ListedBy(day));
    }
  }

  /** Through the guard every day goes on listing segments that are there. */
  lemma GuardKeepsSegments(
    s: Snapshot, intent: Intent, res: Resolution, legs: DayLegs, forecasts: Forecasts, i: nat)
    requires Numbered(s.days) && PassesGuard(s, intent, res, legs, forecasts)
    requires forall day :: day in s.days ==> SegmentsListed(s, day)
    requires i < |Edited(s, intent, res, legs, forecasts).value.days|
    ensures var out := Edited(s, intent, res, legs, forecasts).value; SegmentsListed(out, out.days[i])
  {
    hide ViewAt, ImpactOf, Reshape, SegmentsListed, Renewed, Recomputed;
    var impact, out := ImpactOf(s, intent, res), Edited(s, intent, res, legs, forecasts).value;
    var shape := Reshape(s, intent, res, TargetDay(impact)).value;
    EditedIsNumbered(s, intent, res, legs, forecasts);
    RecomputedIsRenewed(s, shape, impact, Touched(impact.days), legs, forecasts);
    RenewedSize(s, shape, impact.segments, Touched(impact.days), legs, forecasts);
    NumbersKept(s, intent, res, TargetDay(impact), shape);
    if i + 1 in Touched(impact.days) {
      RebuiltDayIsListed(s, shape, impact.segments, Touched(impact.days), legs, forecasts, i);
    } else {
      assert NumbersOf(out.days)[i] == i + 1;
      InConcat(NumbersOf(s.days), NumbersOf(out.days), i + 1);
      SameViewIsListed(s, out, i);
    }
  }

  lemma GuardKeepsAllSegments(s: Snapshot, intent: Intent, res: Resolution, legs: DayLegs, forecasts: Forecasts)
    requires Numbered(s.days) && PassesGuard(s, intent, res, legs, forecasts)
    requires forall day :: day in s.days ==> SegmentsListed(s, day)
    ensures var out := Edited(s, intent, res, legs, forecasts).value;
      forall day :: day in out.days ==> SegmentsListed(out, day)
  {
    hide Numbered, DaysUnchanged, ImpactOf, SegmentsListed;
    var out := Edited(s, intent, res, legs, forecasts).value;
    forall day | day in out.days ensures SegmentsListed(out, day) {
      var i :| 0 <= i < |out.days| && out.days[i] == day;
      GuardKeepsSegments(s, intent, res, legs, forecasts, i);
    }
  }

  // ---- the checks after an edit ---------------------------------------------------------------

  /** No scheduled place is excluded, and no place is only proposed. */
  ghost predicate Clean(s: Snapshot) {
    && (forall id :: OnSomeDay(s.days, id) ==> id !in IdsOf(s.requirements, ExcludedIds))
    && (forall p :: p in s.places ==> p.status != Proposed)
  }

  /** Publication in terms of the places on some day and the segments that days list. */
  lemma PublishableParts(s: Snapshot)
    ensures Publishable(s) <==>
      && s.days != []
      && (NumberOf(s.requirements, Days).Some? ==> |s.days| == NumberOf(s.requirements, Days).value)
      && (forall id :: OnSomeDay(s.days, id) ==> HasPlace(s.places, id))
      && (forall day :: day in s.days ==> SegmentsListed(s, day))
      && (forall id :: id in IdsOf(s.requirements, MustVisitIds) ==> OnSomeDay(s.days, id))
      && Clean(s)
  {
    hide HasPlace, IdsOf, NumberOf;
    forall id ensures OnSomeDay(s.days, id) <==> exists day :: day in s.days && id in day.placeIds {
      if day :| day in s.days && id in day.placeIds {
        var i :| 0 <= i < |s.days| && s.days[i] == day;
        assert id in s.days[i].placeIds;
      }
    }
  }

  lemma CleanAfter(
    s: Snapshot, intent: Intent, res: Resolution, out: Snapshot, number: nat, touched: set<nat>, shape: Shape)
    requires |res.places| <= 1 && intent.operation != ChangeDays
    requires WentThrough(s, intent, res, out, number, touched, shape)
    requires Clean(s)
    ensures Clean(out) <==> NewPlacePublishable(s, intent)
  {
    hide Reshape, OnSomeDay, IdsOf;
    VisitsAfter(s, intent, res, number, shape);
    SamePlacesSameDisjoint(out.days, shape.days);
    forall q | q in out.places ensures q in s.places || (BringsIn(intent) && q == intent.replacement.value) {
      PlacesAfter(s, intent, res, number, shape, q);
    }
    if BringsIn(intent) {
      PlacesAfter(s, intent, res, number, shape, intent.replacement.value);
      assert StillVisited(s, intent, res, intent.replacement.value.id);
    }
  }

  lemma FactsAfter(
    s: Snapshot, intent: Intent, res: Resolution, out: Snapshot, number: nat, touched: set<nat>, shape: Shape)
    requires |res.places| <= 1 && intent.operation != ChangeDays
    requires WentThrough(s, intent, res, out, number, touched, shape)
    requires forall id :: OnSomeDay(s.days, id) ==> HasPlace(s.places, id)
    ensures forall id :: OnSomeDay(out.days, id) ==> HasPlace(out.places, id)
  {
    hide Reshape, OnSomeDay, HasPlace;
    VisitsAfter(s, intent, res, number, shape);
    SamePlacesSameDisjoint(out.days, shape.days);
    forall id | OnSomeDay(out.days, id) ensures HasPlace(out.places, id) {
      FactKept(s, intent, res, number, shape, id);
    }
  }

  /**
   * Main result: an unconfirmed edit that passes the guard, applicable or not, leaves a publishable itinerary
   * publishable exactly when the place it brings in is neither excluded nor merely proposed.
   */
  lemma GuardedEditStaysPublishable(s: Snapshot, intent: Intent, legs: DayLegs, forecasts: Forecasts)
    requires Numbered(s.days) && !ImpactOf(s, intent, Resolve(s, intent)).confirm
    requires PassesGuard(s, intent, Resolve(s, intent), legs, forecasts)
    requires ValidateFinal(s) == []
    ensures ValidateFinal(Edited(s, intent, Resolve(s, intent), legs, forecasts).value) == []
       <==> NewPlacePublishable(s, intent)
  {
    hide Numbered, DaysUnchanged, Resolve, ImpactOf, Publishable, ValidateFinal, Clean, NewPlacePublishable,
         SegmentsListed, HasPlace, OnSomeDay, Reshape, NumberOf, IdsOf;
    var res := Resolve(s, intent);
    var impact, out := ImpactOf(s, intent, res), Edited(s, intent, res, legs, forecasts).value;
    NoIssueIffPublishable(s);
    NoIssueIffPublishable(out);
    PublishableParts(s);
    PublishableParts(out);
    ResolvesToOnePlace(s, intent);
    UnconfirmedIsHarmless(s, intent, res);
    UnconfirmedEditIsSafe(s, intent, legs, forecasts);
    var shape := EditedWentThrough(s, intent, res, legs, forecasts);
    FactsAfter(s, intent, res, out, TargetDay(impact), Touched(impact.days), shape);
    CleanAfter(s, intent, res, out, TargetDay(impact), Touched(impact.days), shape);
    GuardKeepsAllSegments(s, intent, res, legs, forecasts);
  }

  /** In particular, an unconfirmed, applicable edit of a well-formed itinerary passes the guard. */
  lemma UnconfirmedEditStaysPublishable(s: Snapshot, intent: Intent, legs: DayLegs, forecasts: Forecasts)
    requires WF(s) && ValidIntent(intent) && Resolve(s, intent).resolved && FreshSegments(s, legs)
    requires Applicable(s, intent, Resolve(s, intent))
    requires !ImpactOf(s, intent, Resolve(s, intent)).confirm
    requires ValidateFinal(s) == []
    ensures Edited(s, intent, Resolve(s, intent), legs, forecasts).Ok?
    ensures ValidateFinal(Edited(s, intent, Resolve(s, intent), legs, forecasts).value) == []
       <==> NewPlacePublishable(s, intent)
  {
    hide Edited, Resolve, ImpactOf, ValidateFinal, NewPlacePublishable, DaysUnchanged;
    ApplicableEditIsDelivered(s, intent, legs, forecasts);
    GuardedEditStaysPublishable(s, intent, legs, forecasts);
  }
}
