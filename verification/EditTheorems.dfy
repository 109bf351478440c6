/** The edit pipeline end to end: when it yields a well-formed itinerary, and what it leaves alone. */
module EditTheorems {
  import opened Wrappers
  import opened Sequences
  import opened RequirementData
  import opened SnapshotData
  import opened Providers
  import opened Editing
  import opened Recompute
  import opened EditPipeline
  import opened EditShapes

  // ---- resolved references --------------------------------------------------------------------

  lemma NumbersOfDays(days: seq<Day>)
    requires Numbered(days)
    ensures forall n :: n in NumbersOf(days) <==> 1 <= n <= |days|
  {
    forall n | 1 <= n <= |days| ensures n in NumbersOf(days) {
      assert NumbersOf(days)[n - 1] == n;
    }
  }

  lemma FilterSingle<T>(s: seq<T>, i: nat, p: T -> bool)
    requires i < |s| && p(s[i]) && forall j :: 0 <= j < |s| && j != i ==> !p(s[j])
    ensures Filter(s, p) == [s[i]]
  {
    var head, tail := s[..i], s[i + 1..];
    assert s == head + ([s[i]] + tail);
    FilterConcat(head, [s[i]] + tail, p);
    FilterConcat([s[i]], tail, p);
    FilterNone(head, p);
    FilterNone(tail, p);
  }

  /** On days that share no place, a scheduled place is on exactly one day. */
  lemma DaysWithPlace(days: seq<Day>, id: Id)
    requires Numbered(days) && Disjoint(days)
    ensures forall i :: 0 <= i < |days| && id in days[i].placeIds ==> DaysWith(days, id) == [i + 1]
    ensures !OnSomeDay(days, id) ==> DaysWith(days, id) == []
  {
    var with := (day: Day) => id in day.placeIds;
    forall i | 0 <= i < |days| && id in days[i].placeIds ensures DaysWith(days, id) == [i + 1] {
      FilterSingle(days, i, with);
    }
    if !OnSomeDay(days, id) {
      FilterNone(days, with);
    }
  }

  /** What resolution guarantees about the days and the target it names. */
  ghost predicate Settled(s: Snapshot, intent: Intent, res: Resolution) {
    && (forall n :: n in res.days ==> 1 <= n <= |s.days|)
    && (intent.operation != ChangeDays ==> |res.days| <= 1)
    && (intent.operation == EditDay ==> res.days != [])
    && |res.places| <= 1
    && (intent.operation in {RemovePlace, ReplacePlace} ==> res.places != [])
    && (intent.operation != ChangeDays ==>
          forall i, id :: 0 <= i < |s.days| && id in res.places && id in s.days[i].placeIds ==> res.days == [i + 1])
  }

  lemma NamedInRange(s: Snapshot, day: Option<string>)
    requires Numbered(s.days) && NamedDays(s, day).Some?
    ensures var days := NamedDays(s, day).value;
      |days| <= 1 && (Given(day) ==> days != []) && forall n :: n in days ==> 1 <= n <= |s.days|
  {
    NumbersOfDays(s.days);
  }

  lemma ResolveIsSettled(s: Snapshot, intent: Intent)
    requires WF(s) && ValidIntent(intent) && Resolve(s, intent).resolved
    ensures Settled(s, intent, Resolve(s, intent))
  {
    assert Numbered(s.days) && Disjoint(s.days);
    hide WF, Numbered, Disjoint, NamedDays, NumbersOf, DaysWith, Mentions;
    NumbersOfDays(s.days);
    NamedInRange(s, intent.day);
    var res := Resolve(s, intent);
    if Given(intent.place) {
      var target := res.places[0];
      DaysWithPlace(s.days, target);
      DaysWithRange(s.days, target);
    }
  }

  lemma DaysWithRange(days: seq<Day>, id: Id)
    requires Numbered(days) && Disjoint(days)
    ensures |DaysWith(days, id)| <= 1
    ensures forall n :: n in DaysWith(days, id) ==> 1 <= n <= |days|
  {
    DaysWithPlace(days, id);
    if OnSomeDay(days, id) {
      var i :| 0 <= i < |days| && id in days[i].placeIds;
      assert DaysWith(days, id) == [i + 1];
    }
  }

  // ---- impact ---------------------------------------------------------------------------------

  lemma SortedSingle(n: nat)
    ensures SortedIds({n}) == [n]
  {
    assert Smallest({n}) == n && {n} - {n} == {};
  }

  lemma ImpactDays(s: Snapshot, intent: Intent, res: Resolution)
    ensures Touched(ImpactOf(s, intent, res).days) == Touched(AffectedList(s, intent, res))
    ensures AffectedList(s, intent, res) == [] ==> TargetDay(ImpactOf(s, intent, res)) == 1
    ensures |AffectedList(s, intent, res)| == 1 ==>
              TargetDay(ImpactOf(s, intent, res)) == AffectedList(s, intent, res)[0]
  {
    var affected := AffectedList(s, intent, res);
    if |affected| == 1 {
      assert Touched(affected) == {affected[0]};
      SortedSingle(affected[0]);
    }
    if affected == [] {
      assert Touched(affected) == {};
    }
  }

  lemma ImpactDrops(s: Snapshot, intent: Intent, res: Resolution)
    requires Distinct(Map(s.segments, SEGMENT_KEY))
    ensures Drops(s, ImpactOf(s, intent, res).segments, res.places, Touched(ImpactOf(s, intent, res).days))
  {
    var onDays := SegmentsOn(s.days, Touched(AffectedList(s, intent, res)));
    var hit := (g: Segment) => g.id in onDays || g.origin in res.places || g.destination in res.places;
    var dropped := Map(Filter(s.segments, hit), SEGMENT_KEY);
    ImpactDays(s, intent, res);
    forall g | g in s.segments && g.id in dropped ensures hit(g) {
      var k :| 0 <= k < |dropped| && dropped[k] == g.id;
      var h := Filter(s.segments, hit)[k];
      FilterMember(s.segments, hit, h);
      DistinctKeyUnique(s.segments, SEGMENT_KEY, g, h);
    }
  }

  // ---- the caller's condition -----------------------------------------------------------------

  /**
   * What a caller can check before an edit: there is a day to add to, a replaced place is on some day or
   * the day is named, and the new place is not already on a day (unless it replaces itself).
   */
  ghost predicate Applicable(s: Snapshot, intent: Intent, res: Resolution) {
    match intent.operation
    case AddPlace => intent.replacement.Some? && s.days != [] && !OnSomeDay(s.days, intent.replacement.value.id)
    case ReplacePlace =>
      && intent.replacement.Some? && res.places != [] && res.days != []
      && (intent.replacement.value.id == res.places[0] || !OnSomeDay(s.days, intent.replacement.value.id))
    case _ => true
  }

  lemma AddedToDay(s: Snapshot, places: seq<Place>, days: seq<Day>, p: Place, number: nat)
    requires Numbered(days)
    ensures Added(s, places, days, p, number)
         == if 1 <= number <= |days|
            then Ok(Shape(PutPlace(places, p), Appended(days, number - 1, p.id), s.requirements))
            else Err(NoSuchDay)
  {
    FindNumbered(days, number);
  }

  lemma AddIsAimed(s: Snapshot, intent: Intent, res: Resolution)
    requires Numbered(s.days) && Settled(s, intent, res) && intent.operation == AddPlace && s.days != []
    ensures var impact := ImpactOf(s, intent, res);
      1 <= TargetDay(impact) <= |s.days| && TargetDay(impact) in Touched(impact.days)
  {
    ImpactDays(s, intent, res);
    assert |AffectedList(s, intent, res)| == 1 && 1 <= AffectedList(s, intent, res)[0] <= |s.days| by {
      if res.days != [] { assert res.days[0] in res.days; }
    }
  }

  lemma AddGives(s: Snapshot, intent: Intent, res: Resolution)
    requires WF(s) && Settled(s, intent, res) && intent.operation == AddPlace && intent.replacement.Some?
    requires s.days != []
    ensures var impact, p := ImpactOf(s, intent, res), intent.replacement.value;
      && 1 <= TargetDay(impact) <= |s.days| && TargetDay(impact) in Touched(impact.days)
      && Reshape(s, intent, res, TargetDay(impact))
         == Ok(Shape(PutPlace(s.places, p), Appended(s.days, TargetDay(impact) - 1, p.id), s.requirements))
  {
    var number, p := TargetDay(ImpactOf(s, intent, res)), intent.replacement.value;
    assert Numbered(s.days) && Distinct(Map(s.places, PLACE_KEY));
    assert Reshape(s, intent, res, number) == Added(s, PlaceTable(s.places), s.days, p, number);
    hide *;
    PlaceTableIsIdentity(s.places);
    AddIsAimed(s, intent, res);
    AddedToDay(s, s.places, s.days, p, number);
  }

  lemma NothingElsewhere(days: seq<Day>, touched: set<nat>)
    ensures SameElsewhere(days, days, touched)
  {
  }

  lemma AddShape(s: Snapshot, intent: Intent, res: Resolution)
    requires WF(s) && ValidIntent(intent) && intent.operation == AddPlace && Settled(s, intent, res)
    requires Applicable(s, intent, res)
    ensures var impact := ImpactOf(s, intent, res); var shape := Reshape(s, intent, res, TargetDay(impact));
      shape.Ok? && GoodShape(s, shape.value, Touched(impact.days)) && TargetTouched(s, res.places, Touched(impact.days))
  {
    hide WF, ImpactOf, Touched, Coherent, GoodShape, TargetTouched, Reshape, OnSomeDay, Settled;
    var number := TargetDay(ImpactOf(s, intent, res));
    AddGives(s, intent, res);
    WFIsCoherent(s);
    PointEditTouches(s, intent, res);
    NothingElsewhere(s.days, Touched(ImpactOf(s, intent, res).days));
    AppendIsGood(s, s.places, s.days, number - 1, intent.replacement.value, Touched(ImpactOf(s, intent, res).days));
  }

  lemma RemoveElsewhere(s: Snapshot, res: Resolution, touched: set<nat>)
    requires WF(s) && res.places != [] && TargetTouched(s, res.places, touched)
    ensures SameElsewhere(s.days, DropFromDays(s.days, res.places[0]), touched)
  {
    var target := res.places[0];
    forall i: nat | i + 1 !in touched ensures SameAt(s.days, DropFromDays(s.days, target), i) {
      if i < |s.days| {
        assert target in res.places;
        DropElsewhere(s.days, target, i);
      }
    }
  }

  lemma PointEditTouches(s: Snapshot, intent: Intent, res: Resolution)
    requires WF(s) && ValidIntent(intent) && Settled(s, intent, res) && intent.operation != ChangeDays
    ensures TargetTouched(s, res.places, Touched(ImpactOf(s, intent, res).days))
  {
    ImpactDays(s, intent, res);
    var affected := AffectedList(s, intent, res);
    forall i, id | 0 <= i < |s.days| && id in res.places && id in s.days[i].placeIds
      ensures i + 1 in Touched(affected)
    {
      assert res.days == [i + 1];
      assert affected == res.days;
    }
  }

  lemma RemoveShape(s: Snapshot, intent: Intent, res: Resolution)
    requires WF(s) && ValidIntent(intent) && intent.operation == RemovePlace && Settled(s, intent, res)
    ensures var impact := ImpactOf(s, intent, res); var shape := Reshape(s, intent, res, TargetDay(impact));
      shape.Ok? && GoodShape(s, shape.value, Touched(impact.days))
  {
    WFIsCoherent(s);
    PlaceTableIsIdentity(s.places);
    PointEditTouches(s, intent, res);
    DropIsCoherent(s.places, s.days, res.places[0]);
    RemoveElsewhere(s, res, Touched(ImpactOf(s, intent, res).days));
  }

  lemma DropKeepsNumbers(days: seq<Day>, id: Id)
    requires Numbered(days)
    ensures Numbered(DropFromDays(days, id)) && |DropFromDays(days, id)| == |days|
  {
  }

  lemma ReplaceIsAimed(s: Snapshot, intent: Intent, res: Resolution)
    requires WF(s) && Settled(s, intent, res) && intent.operation == ReplacePlace && res.days != []
    ensures Numbered(s.days) && Distinct(Map(s.places, PLACE_KEY)) && 1 <= res.days[0] <= |s.days|
    ensures TargetDay(ImpactOf(s, intent, res)) == res.days[0] && res.days[0] in Touched(ImpactOf(s, intent, res).days)
  {
    ImpactDays(s, intent, res);
    assert res.days[0] in res.days;
  }

  lemma ReplaceGives(s: Snapshot, intent: Intent, res: Resolution)
    requires WF(s) && Settled(s, intent, res) && intent.operation == ReplacePlace && intent.replacement.Some?
    requires res.places != [] && res.days != []
    ensures 1 <= res.days[0] <= |s.days|
    ensures var target, p := res.places[0], intent.replacement.value;
      Reshape(s, intent, res, TargetDay(ImpactOf(s, intent, res)))
      == Ok(Shape(PutPlace(DropPlace(s.places, target), p),
                  Appended(DropFromDays(s.days, target), res.days[0] - 1, p.id), s.requirements))
  {
    var target, p := res.places[0], intent.replacement.value;
    assert Distinct(Map(s.places, PLACE_KEY));
    assert Reshape(s, intent, res, res.days[0])
        == Added(s, DropPlace(PlaceTable(s.places), target), DropFromDays(s.days, target), p, res.days[0]);
    hide *;
    PlaceTableIsIdentity(s.places);
    ReplaceIsAimed(s, intent, res);
    DropKeepsNumbers(s.days, target);
    AddedToDay(s, DropPlace(s.places, target), DropFromDays(s.days, target), p, res.days[0]);
  }

  lemma ReplaceShape(s: Snapshot, intent: Intent, res: Resolution)
    requires WF(s) && ValidIntent(intent) && intent.operation == ReplacePlace && Settled(s, intent, res)
    requires Applicable(s, intent, res)
    ensures var impact := ImpactOf(s, intent, res); var shape := Reshape(s, intent, res, TargetDay(impact));
      shape.Ok? && GoodShape(s, shape.value, Touched(impact.days))
  {
    hide WF, ImpactOf, Touched, GoodShape, TargetTouched, Reshape, OnSomeDay, Settled;
    PointEditTouches(s, intent, res);
    ReplaceIsAimed(s, intent, res);
    ReplaceGives(s, intent, res);
    ReplaceParts(s, res, intent.replacement.value, Touched(ImpactOf(s, intent, res).days));
  }

  lemma ReplaceParts(s: Snapshot, res: Resolution, p: Place, touched: set<nat>)
    requires WF(s) && res.places != [] && TargetTouched(s, res.places, touched)
    requires p.id == res.places[0] || !OnSomeDay(s.days, p.id)
    requires res.days != [] && 1 <= res.days[0] <= |s.days| && res.days[0] in touched
    ensures var days := DropFromDays(s.days, res.places[0]);
      GoodShape(s, Shape(PutPlace(DropPlace(s.places, res.places[0]), p), Appended(days, res.days[0] - 1, p.id),
          s.requirements), touched)
  {
    var target := res.places[0];
    RemovedParts(s, target, p);
    RemoveElsewhere(s, res, touched);
    AppendIsGood(s, DropPlace(s.places, target), DropFromDays(s.days, target), res.days[0] - 1, p, touched);
  }

  lemma RemovedParts(s: Snapshot, target: Id, p: Place)
    requires WF(s) && (p.id == target || !OnSomeDay(s.days, p.id))
    ensures Coherent(DropPlace(s.places, target), DropFromDays(s.days, target))
    ensures !OnSomeDay(DropFromDays(s.days, target), p.id)
  {
    WFIsCoherent(s);
    DropIsCoherent(s.places, s.days, target);
    DropIsDisjoint(s.days, target);
  }

  lemma AppendIsGood(s: Snapshot, places: seq<Place>, days: seq<Day>, i: nat, p: Place, touched: set<nat>)
    requires Coherent(places, days) && SameElsewhere(s.days, days, touched)
    requires i < |days| && i + 1 in touched && !OnSomeDay(days, p.id)
    ensures GoodShape(s, Shape(PutPlace(places, p), Appended(days, i, p.id), s.requirements), touched)
  {
    AppendIsCoherent(places, days, i, p);
    AppendElsewhere(s.days, days, i, p.id, touched);
  }

  lemma AppendElsewhere(before: seq<Day>, days: seq<Day>, i: nat, id: Id, touched: set<nat>)
    requires SameElsewhere(before, days, touched) && i < |days| && i + 1 in touched
    ensures SameElsewhere(before, Appended(days, i, id), touched)
  {
    forall j: nat | j + 1 !in touched ensures SameAt(before, Appended(days, i, id), j) {
      assert SameAt(before, days, j);
    }
  }

  lemma ReplacedElsewhere(days: seq<Day>, i: nat, order: seq<Id>, touched: set<nat>)
    requires i < |days| && i + 1 in touched
    ensures SameElsewhere(days, Replaced(days, i, order), touched)
  {
    forall j: nat | j + 1 !in touched ensures SameAt(days, Replaced(days, i, order), j) {
      assert j != i;
    }
  }

  lemma ReorderedShape(s: Snapshot, number: nat, touched: set<nat>)
    requires WF(s) && 1 <= number <= |s.days| && number in touched
    ensures Reordered(s, s.places, number).Ok? && GoodShape(s, Reordered(s, s.places, number).value, touched)
  {
    WFIsCoherent(s);
    FindNumbered(s.days, number);
    var i := number - 1;
    NearestOrderPermutes(s.days[i].placeIds, s.places);
    var order := NearestOrder(s.days[i].placeIds, s.places).value;
    ReplaceIsCoherent(s.places, s.days, i, order);
    ReplacedElsewhere(s.days, i, order, touched);
  }

  lemma ReorderShape(s: Snapshot, intent: Intent, res: Resolution)
    requires WF(s) && ValidIntent(intent) && intent.operation == EditDay && Settled(s, intent, res)
    ensures var impact := ImpactOf(s, intent, res); var shape := Reshape(s, intent, res, TargetDay(impact));
      shape.Ok? && GoodShape(s, shape.value, Touched(impact.days))
  {
    PlaceTableIsIdentity(s.places);
    ImpactDays(s, intent, res);
    assert res.days[0] in res.days;
    ReorderedShape(s, res.days[0], Touched(res.days));
  }

  lemma ChangeTouchesAll(s: Snapshot, intent: Intent, res: Resolution)
    requires ValidIntent(intent) && intent.operation == ChangeDays
    ensures forall n :: n !in Touched(ImpactOf(s, intent, res).days) && n >= 1 ==>
              n > |s.days| && n > intent.targetDays.value
  {
    ImpactDays(s, intent, res);
  }

  lemma ChangeShape(s: Snapshot, intent: Intent, res: Resolution)
    requires WF(s) && ValidIntent(intent) && intent.operation == ChangeDays
    ensures var impact := ImpactOf(s, intent, res); var shape := Reshape(s, intent, res, TargetDay(impact));
      shape.Ok? && GoodShape(s, shape.value, Touched(impact.days)) && TargetTouched(s, res.places, Touched(impact.days))
  {
    var touched := Touched(ImpactOf(s, intent, res).days);
    WFIsCoherent(s);
    PlaceTableIsIdentity(s.places);
    ResizeIsCoherent(s.places, s.days, intent.targetDays.value);
    ChangeTouchesAll(s, intent, res);
    assert SameElsewhere(s.days, Resize(s.days, intent.targetDays.value), touched);
  }

  /** Every applicable edit of a well-formed itinerary leaves a good shape behind. */
  lemma EditShape(s: Snapshot, intent: Intent, res: Resolution)
    requires WF(s) && ValidIntent(intent) && Settled(s, intent, res) && Applicable(s, intent, res)
    ensures var impact := ImpactOf(s, intent, res); var shape := Reshape(s, intent, res, TargetDay(impact));
      shape.Ok? && GoodShape(s, shape.value, Touched(impact.days)) && TargetTouched(s, res.places, Touched(impact.days))
  {
    match intent.operation {
      case AddPlace => AddShape(s, intent, res);
      case RemovePlace => RemoveShape(s, intent, res); PointEditTouches(s, intent, res);
      case ReplacePlace => ReplaceShape(s, intent, res); PointEditTouches(s, intent, res);
      case EditDay => ReorderShape(s, intent, res); PointEditTouches(s, intent, res);
      case ChangeDays => ChangeShape(s, intent, res);
    }
  }

  // ---- the pipeline ---------------------------------------------------------------------------

  /** Preview, then recomputation of the affected days. */
  function Edited(
    s: Snapshot, intent: Intent, res: Resolution, legs: DayLegs, forecasts: Forecasts): Result<Snapshot, EditError>
  {
    var impact := ImpactOf(s, intent, res);
    match Preview(s, intent, res, impact)
    case Err(e) => Err(e)
    case Ok(p) =>
      if CanLocate(p, Touched(impact.days)) then Ok(Recomputed(p, Touched(impact.days), legs, forecasts))
      else Err(UnknownPlace)
  }

  /** `ImpactScope()`. */
  const NO_IMPACT := Impact([], [], [], false, false, false)

  /** The summary of a plan whose references have to be clarified. */
  const CLARIFY := "\U{7F16}\U{8F91}\U{5F15}\U{7528}\U{9700}\U{8981}\U{6F84}\U{6E05}"

  /** The plan with the recomputed preview, as the edit request executes it. */
  function RecomputedPlan(
    s: Snapshot, intent: Intent, legs: DayLegs, forecasts: Forecasts): Result<EditPlan, EditError>
  {
    var res := Resolve(s, intent);
    if !res.resolved then Ok(EditPlan(res, NO_IMPACT, None, [], CLARIFY))
    else
      match Edited(s, intent, res, legs, forecasts)
      case Err(e) => Err(e)
      case Ok(out) => Ok(EditPlan(res, ImpactOf(s, intent, res), Some(out), RisksOf(s, intent, res), Summary(intent)))
  }

  method PlanEdit(
    s: Snapshot, intent: Intent, legs: DayLegs, forecasts: Forecasts)
    returns (plan: Result<EditPlan, EditError>)
    ensures plan == RecomputedPlan(s, intent, legs, forecasts)
  {
    var res := Resolve(s, intent);
    if !res.resolved {
      return Ok(EditPlan(res, NO_IMPACT, None, [], CLARIFY));
    }
    var impact, risks := ImpactOf(s, intent, res), RisksOf(s, intent, res);
    var preview := BuildPreview(s, intent, res, impact);
    if preview.Err? {
      return Err(preview.error);
    }
    var recomputed := RecomputeDays(preview.value, Touched(impact.days), legs, forecasts);
    match recomputed {
      case Err(e) => plan := Err(e);
      case Ok(out) => plan := Ok(EditPlan(res, impact, Some(out), risks, Summary(intent)));
    }
  }

  /** The result is well formed and the guard lets it through. */
  ghost predicate Delivered(s: Snapshot, intent: Intent, res: Resolution, legs: DayLegs, forecasts: Forecasts) {
    var r := Edited(s, intent, res, legs, forecasts);
    r.Ok? && WF(r.value) && DaysUnchanged(s, r.value, ImpactOf(s, intent, res).days)
  }

  lemma EditedIsRenewed(s: Snapshot, intent: Intent, res: Resolution, legs: DayLegs, forecasts: Forecasts, shape: Shape)
    requires Reshape(s, intent, res, TargetDay(ImpactOf(s, intent, res))) == Ok(shape)
    requires Backed(shape.places, shape.days)
    ensures var impact := ImpactOf(s, intent, res);
      Edited(s, intent, res, legs, forecasts)
      == Ok(Renewed(s, shape, impact.segments, Touched(impact.days), legs, forecasts))
  {
    var impact := ImpactOf(s, intent, res);
    BackedIsLocatable(s, shape, impact);
    RecomputedIsRenewed(s, shape, impact, Touched(impact.days), legs, forecasts);
  }

  /** Soundness: an applicable edit yields a well-formed itinerary and leaves every other day alone. */
  lemma ApplicableEditIsDelivered(s: Snapshot, intent: Intent, legs: DayLegs, forecasts: Forecasts)
    requires WF(s) && ValidIntent(intent) && Resolve(s, intent).resolved && FreshSegments(s, legs)
    requires Applicable(s, intent, Resolve(s, intent))
    ensures Delivered(s, intent, Resolve(s, intent), legs, forecasts)
  {
    var res := Resolve(s, intent);
    var impact := ImpactOf(s, intent, res);
    var touched := Touched(impact.days);
    ResolveIsSettled(s, intent);
    EditShape(s, intent, res);
    var shape := Reshape(s, intent, res, TargetDay(impact)).value;
    ImpactDrops(s, intent, res);
    EditedIsRenewed(s, intent, res, legs, forecasts, shape);
    RenewedIsWF(s, shape, impact.segments, res.places, touched, legs, forecasts);
    forall n | n !in touched
      ensures ViewAt(s, n) == ViewAt(Renewed(s, shape, impact.segments, touched, legs, forecasts), n)
    {
      RenewedKeepsViews(s, shape, impact.segments, res.places, touched, legs, forecasts, n);
    }
  }
}
