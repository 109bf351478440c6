/** Exactly which edits the guard on untouched days lets through, including those that schedule a place twice. */
module EditGuard {
  import opened Wrappers
  import opened Sequences
  import opened RequirementData
  import opened SnapshotData
  import opened Providers
  import opened Editing
  import opened Recompute
  import opened EditPipeline
  import opened EditShapes
  import opened EditTheorems
  import opened EditGuarantees

  // ---- the condition --------------------------------------------------------------------------

  function NotAbout(id: Id): Weather -> bool {
    (w: Weather) => w.place != id
  }

  /** The weather facts a day refers to, in snapshot order. */
  function WeatherOfRefs(s: Snapshot, day: Day): seq<Weather> {
    Filter(s.weather, ReferredBy(day))
  }

  /** All that is said about place `id` is the refreshed fact, and it comes last. */
  ghost predicate SurvivesRefresh(view: seq<Weather>, id: Id, refreshed: Option<Weather>) {
    forall k :: 0 <= k < |view| && view[k].place == id ==> k == |view| - 1 && refreshed == Some(view[k])
  }

  /** The fact a recomputation draws for `id` when it becomes the only place of `day`, and so its anchor. */
  function AnchorFact(day: Day, id: Id, forecast: Option<ForecastFact>): Option<Weather> {
    if day.placeIds == [] && day.date.Some? then Some(FactOf(id, day.date.value, forecast)) else None
  }

  /** The weather day `j` shows survives a refresh of what is said about place `id`. */
  ghost predicate KeepsWeather(s: Snapshot, j: nat, id: Id, refreshed: Option<Weather>) {
    j < |s.days| ==> SurvivesRefresh(WeatherOfRefs(s, s.days[j]), id, refreshed)
  }

  /** Every day but day `i` keeps its weather when that of place `id` is dropped and drawn again for day `i`. */
  ghost predicate OthersKeepWeather(s: Snapshot, i: nat, id: Id, refreshed: Option<Weather>) {
    forall j: nat {:trigger KeepsWeather(s, j, id, refreshed)} :: j != i ==> KeepsWeather(s, j, id, refreshed)
  }

  /** The same, when place `id` is added to day `i` of `days`. */
  ghost predicate RefreshIsHarmless(s: Snapshot, days: seq<Day>, i: nat, id: Id, forecasts: Forecasts)
    requires i < |days|
  {
    OthersKeepWeather(s, i, id, AnchorFact(days[i], id, forecasts(i)))
  }

  /** The day a place is added to: the named one, otherwise the last one. */
  function AddressedDay(s: Snapshot, res: Resolution): nat {
    if res.days != [] then res.days[0] else |s.days|
  }

  /**
   * What the guard comes down to: there is a day to add to or to replace on, and no other day's weather list speaks of
   * the incoming place, except where the recomputation restores what it says.
   */
  ghost predicate Passes(s: Snapshot, intent: Intent, res: Resolution, forecasts: Forecasts) {
    match intent.operation
    case AddPlace =>
      && intent.replacement.Some? && 1 <= AddressedDay(s, res) <= |s.days|
      && RefreshIsHarmless(s, s.days, AddressedDay(s, res) - 1, intent.replacement.value.id, forecasts)
    case ReplacePlace =>
      && intent.replacement.Some? && res.places != [] && res.days != [] && 1 <= res.days[0] <= |s.days|
      && RefreshIsHarmless(s, DropFromDays(s.days, res.places[0]), res.days[0] - 1,
                           intent.replacement.value.id, forecasts)
    case _ => true
  }

  // ---- refreshing one place's weather ---------------------------------------------------------

  function Refreshed(view: seq<Weather>, id: Id, added: seq<Weather>): seq<Weather> {
    Filter(view, NotAbout(id)) + added
  }

  /** Dropping the facts about `id` and adding none keeps a list exactly when it held none. */
  lemma DroppedOnly(view: seq<Weather>, id: Id)
    ensures Refreshed(view, id, []) == view <==> forall k :: 0 <= k < |view| ==> view[k].place != id
  {
    var others := NotAbout(id);
    if forall k :: 0 <= k < |view| ==> view[k].place != id {
      FilterAll(view, others);
    } else {
      var k :| 0 <= k < |view| && view[k].place == id;
      FilterMember(view, others, view[k]);
      assert view[k] !in Refreshed(view, id, []);
    }
  }

  /** Dropping them and adding one keeps the list exactly when that one stood last and was all there was. */
  lemma DroppedAndAdded(view: seq<Weather>, id: Id, w: Weather)
    requires w.place == id
    ensures Refreshed(view, id, [w]) == view <==>
              view != [] && view[|view| - 1] == w && forall k :: 0 <= k < |view| - 1 ==> view[k].place != id
  {
    var others := NotAbout(id);
    if view != [] {
      var n := |view| - 1;
      var front := view[..n];
      assert view == front + [view[n]];
      FilterConcat(front, [view[n]], others);
      DroppedOnly(front, id);
      if view[n] == w {
        assert Filter([w], others) == [];
        assert Refreshed(view, id, [w]) == Filter(front, others) + [w];
        assert Refreshed(view, id, [w]) == view <==> Filter(front, others) == front by {
          assert (Filter(front, others) + [w])[..|Filter(front, others)|] == Filter(front, others);
        }
      } else {
        assert Refreshed(view, id, [w])[|Refreshed(view, id, [w])| - 1] == w;
      }
    }
  }

  /** The refreshed list is the old one exactly when it survives the refresh. */
  lemma RefreshKeeps(view: seq<Weather>, id: Id, refreshed: Option<Weather>, added: seq<Weather>)
    requires added == [] || (refreshed.Some? && added == [refreshed.value] && refreshed.value.place == id)
    requires added == [] && refreshed.Some? ==> refreshed.value !in view
    requires added != [] ==> exists k :: 0 <= k < |view| && view[k].place == id
    ensures Refreshed(view, id, added) == view <==> SurvivesRefresh(view, id, refreshed)
  {
    if added == [] {
      DroppedOnly(view, id);
      forall k | 0 <= k < |view| ensures refreshed != Some(view[k]) {
        assert view[k] in view;
      }
    } else {
      DroppedAndAdded(view, id, refreshed.value);
    }
  }

  // ---- what another day shows after a place was added -----------------------------------------

  lemma {:induction false} AccumulateOnly<T>(n: nat, part: nat -> seq<T>, i: nat)
    requires forall j :: 0 <= j < n && j != i ==> part(j) == []
    ensures Accumulate(n, part) == if i < n then part(i) else []
  {
    if n > 0 {
      AccumulateOnly(n - 1, part, i);
    }
  }

  /** Only the affected day gets a new weather fact. */
  lemma NewWeatherOfDay(days: seq<Day>, i: nat, forecasts: Forecasts)
    requires Numbered(days) && i < |days|
    ensures NewWeather(days, {i + 1}, forecasts) == WeatherFor(days[i], {i + 1}, forecasts(i))
  {
    var part := WeatherPart(days, {i + 1}, forecasts);
    forall j: nat | j < |days| && j != i ensures part(j) == [] {
      assert days[j].number == j + 1;
      assert part(j) == WeatherFor(days[j], {i + 1}, forecasts(j));
    }
    AccumulateOnly(|days|, part, i);
  }

  /** `days` with place `id` added to day `i`, which is the only day where `days` differs from `s`. */
  ghost predicate Adds(s: Snapshot, days: seq<Day>, i: nat, id: Id, shape: Shape) {
    && Numbered(days) && i < |days| && |days| == |s.days|
    && SameElsewhere(s.days, days, {i + 1})
    && (forall x :: x in days[i].placeIds ==> x in s.days[i].placeIds)
    && days[i].date == s.days[i].date && days[i].number == s.days[i].number
    && shape.days == Appended(days, i, id)
  }

  lemma AddsElsewhere(s: Snapshot, days: seq<Day>, i: nat, id: Id, shape: Shape)
    requires Adds(s, days, i, id, shape)
    ensures Framed(s, shape, {i + 1})
    ensures forall x :: x in PlacesOn(shape.days, {i + 1}) <==> x in days[i].placeIds || x == id
  {
    AppendElsewhere(s.days, days, i, id, {i + 1});
    assert shape.days[i].placeIds == days[i].placeIds + [id] && shape.days[i].number == i + 1;
    forall x: Id ensures x in PlacesOn(shape.days, {i + 1}) <==> x in days[i].placeIds || x == id {
      assert x in shape.days[i].placeIds <==> x in days[i].placeIds || x == id;
      if x in PlacesOn(shape.days, {i + 1}) {
        var day :| day in shape.days && day.number in {i + 1} && x in day.placeIds;
        var j :| 0 <= j < |shape.days| && shape.days[j] == day;
        assert shape.days[j].number == j + 1 && j == i;
      } else {
        assert shape.days[i] in shape.days;
      }
    }
  }

  /** The weather fact, if any, drawn for the day the place was added to. */
  lemma DrawnFact(s: Snapshot, days: seq<Day>, i: nat, id: Id, shape: Shape, forecasts: Forecasts)
    requires Adds(s, days, i, id, shape)
    ensures var anchor := if days[i].placeIds == [] then id else days[i].placeIds[0];
      NewWeather(Cleared(shape.days, {i + 1}), {i + 1}, forecasts)
      == if days[i].date.Some? then [FactOf(anchor, days[i].date.value, forecasts(i))] else []
  {
    var cleared := Cleared(shape.days, {i + 1});
    forall j | 0 <= j < |cleared| ensures cleared[j].number == j + 1 {
      assert shape.days[j].number == days[j].number;
    }
    NewWeatherOfDay(cleared, i, forecasts);
  }

  /** The facts another day keeps: those not about the added place. */
  lemma KeptForDay(s: Snapshot, days: seq<Day>, i: nat, id: Id, shape: Shape, j: nat)
    requires WF(s) && Adds(s, days, i, id, shape) && j < |s.days| && j != i
    ensures Filter(KeptWeather(s, PlacesOn(shape.days, {i + 1})), ReferredBy(s.days[j]))
         == Filter(WeatherOfRefs(s, s.days[j]), NotAbout(id))
  {
    var onDays := PlacesOn(shape.days, {i + 1});
    var mine := ReferredBy(s.days[j]);
    var kept := (w: Weather) => w.place !in onDays;
    AddsElsewhere(s, days, i, id, shape);
    FiltersCommute(s.weather, kept, mine);
    forall w | w in Filter(s.weather, mine) ensures kept(w) <==> w.place != id {
      FilterMember(s.weather, mine, w);
      WeatherOfDay(s, j, w);
      assert w.place !in s.days[i].placeIds;
    }
    FilterSame(Filter(s.weather, mine), kept, NotAbout(id));
  }

  lemma {:induction false} FiltersCommute<T>(s: seq<T>, p: T -> bool, q: T -> bool)
    ensures Filter(Filter(s, p), q) == Filter(Filter(s, q), p)
  {
    if s != [] {
      var head, tail := s[0], s[1..];
      FiltersCommute(tail, p, q);
      FilterConcat([head], Filter(tail, p), q);
      FilterConcat([head], Filter(tail, q), p);
      assert Filter(s, p) == if p(head) then [head] + Filter(tail, p) else Filter(tail, p);
      assert Filter(s, q) == if q(head) then [head] + Filter(tail, q) else Filter(tail, q);
    }
  }

  /** What is drawn for the day shows on another day only if it is about the added place and that day refers to it. */
  lemma DrawnForDay(s: Snapshot, days: seq<Day>, i: nat, id: Id, shape: Shape, forecasts: Forecasts, j: nat)
    requires WF(s) && Adds(s, days, i, id, shape) && j < |s.days| && j != i
    ensures var refreshed := AnchorFact(days[i], id, forecasts(i));
      Filter(NewWeather(Cleared(shape.days, {i + 1}), {i + 1}, forecasts), ReferredBy(s.days[j]))
      == if refreshed.Some? && refreshed.value.ref in s.days[j].weatherRefs then [refreshed.value] else []
  {
    DrawnFact(s, days, i, id, shape, forecasts);
    if days[i].date.Some? && days[i].placeIds != [] {
      var anchor := days[i].placeIds[0];
      assert anchor in s.days[i].placeIds;
      RefsAreLocal(s, j, WeatherRef(anchor, days[i].date.value));
    }
  }

  /** A day that refers to a fact about a place shows one. */
  lemma ReferredFactShows(s: Snapshot, j: nat, ref: WeatherRef)
    requires WF(s) && j < |s.days| && ref in s.days[j].weatherRefs
    ensures var view := WeatherOfRefs(s, s.days[j]); exists k :: 0 <= k < |view| && view[k].place == ref.place
  {
    assert DayGrounded(s, s.days[j]);
    var w :| w in s.weather && w.ref == ref && w.place in s.days[j].placeIds;
    FilterMember(s.weather, ReferredBy(s.days[j]), w);
    var view := WeatherOfRefs(s, s.days[j]);
    var k :| 0 <= k < |view| && view[k] == w;
    assert view[k].place == ref.place;
  }

  /** What another day shows after the refresh. */
  lemma RefreshedForDay(s: Snapshot, days: seq<Day>, i: nat, id: Id, shape: Shape, forecasts: Forecasts, j: nat)
    returns (added: seq<Weather>)
    requires WF(s) && Adds(s, days, i, id, shape) && j < |s.days| && j != i
    ensures var refreshed := AnchorFact(days[i], id, forecasts(i));
      added == if refreshed.Some? && refreshed.value.ref in s.days[j].weatherRefs then [refreshed.value] else []
    ensures Filter(KeptWeather(s, PlacesOn(shape.days, {i + 1}))
                   + NewWeather(Cleared(shape.days, {i + 1}), {i + 1}, forecasts), ReferredBy(s.days[j]))
         == Refreshed(WeatherOfRefs(s, s.days[j]), id, added)
  {
    var kept := KeptWeather(s, PlacesOn(shape.days, {i + 1}));
    var drawn := NewWeather(Cleared(shape.days, {i + 1}), {i + 1}, forecasts);
    FilterConcat(kept, drawn, ReferredBy(s.days[j]));
    KeptForDay(s, days, i, id, shape, j);
    DrawnForDay(s, days, i, id, shape, forecasts, j);
    added := Filter(drawn, ReferredBy(s.days[j]));
  }

  /** A refresh restores another day's list exactly when that list survives it. */
  lemma RefreshedAsBefore(s: Snapshot, j: nat, id: Id, refreshed: Option<Weather>, added: seq<Weather>)
    requires WF(s) && j < |s.days|
    requires refreshed.Some? ==> refreshed.value.place == id && refreshed.value.ref.place == id
    requires added == if refreshed.Some? && refreshed.value.ref in s.days[j].weatherRefs then [refreshed.value] else []
    ensures Refreshed(WeatherOfRefs(s, s.days[j]), id, added) == WeatherOfRefs(s, s.days[j])
       <==> SurvivesRefresh(WeatherOfRefs(s, s.days[j]), id, refreshed)
  {
    if added != [] {
      ReferredFactShows(s, j, refreshed.value.ref);
    } else if refreshed.Some? {
      FilterMember(s.weather, ReferredBy(s.days[j]), refreshed.value);
    }
    RefreshKeeps(WeatherOfRefs(s, s.days[j]), id, refreshed, added);
  }

  /** The weather another day shows is unchanged exactly when it survives the refresh. */
  lemma WeatherViewKept(
    s: Snapshot, days: seq<Day>, i: nat, id: Id, shape: Shape,
    dropped: seq<Id>, legs: DayLegs, forecasts: Forecasts, j: nat)
    requires WF(s) && Adds(s, days, i, id, shape) && j < |s.days| && j != i
    ensures WeatherOfRefs(Renewed(s, shape, dropped, {i + 1}, legs, forecasts), s.days[j])
            == WeatherOfRefs(s, s.days[j])
       <==> SurvivesRefresh(WeatherOfRefs(s, s.days[j]), id, AnchorFact(days[i], id, forecasts(i)))
  {
    var added := RefreshedForDay(s, days, i, id, shape, forecasts, j);
    RefreshedAsBefore(s, j, id, AnchorFact(days[i], id, forecasts(i)), added);
  }

  // ---- the guard ------------------------------------------------------------------------------

  lemma DayKept(
    s: Snapshot, days: seq<Day>, i: nat, id: Id, shape: Shape,
    dropped: seq<Id>, legs: DayLegs, forecasts: Forecasts, j: nat)
    requires WF(s) && Adds(s, days, i, id, shape) && j < |s.days| && j != i
    ensures var r := Renewed(s, shape, dropped, {i + 1}, legs, forecasts);
      Numbered(r.days) && |r.days| == |s.days| && r.days[j] == s.days[j]
  {
    hide WF, Renewed;
    AddsElsewhere(s, days, i, id, shape);
    RenewedNumbered(s, shape, dropped, {i + 1}, legs, forecasts);
    RenewedDay(s, shape, dropped, {i + 1}, legs, forecasts, j);
  }

  /** Day number `j + 1` looks the same. */
  ghost predicate LooksSame(s: Snapshot, r: Snapshot, j: nat) {
    ViewAt(s, j + 1) == ViewAt(r, j + 1)
  }

  /** Day `j` is the same record with the same segments. */
  ghost predicate SameButWeather(s: Snapshot, r: Snapshot, j: nat) {
    && Numbered(s.days) && Numbered(r.days) && j < |s.days| == |r.days| && r.days[j] == s.days[j]
    && ViewOf(r, s.days[j]).segments == ViewOf(s, s.days[j]).segments
  }

  lemma RenewedSegments(
    s: Snapshot, shape: Shape, dropped: seq<Id>, touched: set<nat>, legs: DayLegs, forecasts: Forecasts)
    ensures Renewed(s, shape, dropped, touched, legs, forecasts).segments
         == KeptSegments(s, dropped)
            + NewSegments(Cleared(shape.days, touched), touched, legs, ModeOf(shape.requirements))
  {
  }

  lemma SameRecord(s: Snapshot, r: Snapshot, j: nat)
    requires Numbered(s.days) && Numbered(r.days) && j < |s.days| == |r.days| && r.days[j] == s.days[j]
    requires Filter(r.segments, ListedBy(s.days[j])) == Filter(s.segments, ListedBy(s.days[j]))
    ensures SameButWeather(s, r, j)
  {
  }

  lemma ViewsAgreeIff(s: Snapshot, r: Snapshot, j: nat)
    requires SameButWeather(s, r, j)
    ensures LooksSame(s, r, j) <==> WeatherOfRefs(r, s.days[j]) == WeatherOfRefs(s, s.days[j])
  {
    ViewAtNumbered(s, j + 1);
    ViewAtNumbered(r, j + 1);
  }

  lemma DayAndSegmentsKept(
    s: Snapshot, days: seq<Day>, i: nat, id: Id, shape: Shape, dropped: seq<Id>, targets: seq<Id>, touched: set<nat>,
    legs: DayLegs, forecasts: Forecasts, j: nat)
    requires WF(s) && Adds(s, days, i, id, shape) && FreshSegments(s, legs) && touched == {i + 1}
    requires TargetTouched(s, targets, touched) && Drops(s, dropped, targets, touched)
    requires j < |s.days| && j != i
    ensures SameButWeather(s, Renewed(s, shape, dropped, touched, legs, forecasts), j)
  {
    hide Adds, FreshSegments, TargetTouched, Drops;
    assert Numbered(s.days);
    hide *;
    var r, after := Renewed(s, shape, dropped, touched, legs, forecasts), Cleared(shape.days, touched);
    RenewedSegments(s, shape, dropped, touched, legs, forecasts);
    DayKept(s, days, i, id, shape, dropped, legs, forecasts, j);
    UntouchedSegmentView(s, after, dropped, targets, touched, legs, ModeOf(shape.requirements), j);
    SameRecord(s, r, j);
  }

  /** Another day looks the same exactly when its weather survives. */
  lemma DayViewKept(
    s: Snapshot, days: seq<Day>, i: nat, id: Id, shape: Shape, dropped: seq<Id>, targets: seq<Id>, touched: set<nat>,
    legs: DayLegs, forecasts: Forecasts, j: nat)
    requires WF(s) && Adds(s, days, i, id, shape) && FreshSegments(s, legs) && touched == {i + 1}
    requires TargetTouched(s, targets, touched) && Drops(s, dropped, targets, touched)
    requires j < |s.days| && j != i
    ensures LooksSame(s, Renewed(s, shape, dropped, touched, legs, forecasts), j)
       <==> KeepsWeather(s, j, id, AnchorFact(days[i], id, forecasts(i)))
  {
    DayAndSegmentsKept(s, days, i, id, shape, dropped, targets, touched, legs, forecasts, j);
    ViewsAgreeIff(s, Renewed(s, shape, dropped, touched, legs, forecasts), j);
    WeatherViewKept(s, days, i, id, shape, dropped, legs, forecasts, j);
  }

  /** With days numbered 1..n the guard compares every position but the affected one. */
  lemma UnchangedByPosition(s: Snapshot, r: Snapshot, affected: seq<nat>, i: nat)
    requires Numbered(s.days) && Numbered(r.days) && |r.days| == |s.days| && Touched(affected) == {i + 1}
    ensures DaysUnchanged(s, r, affected) <==>
              forall j: nat {:trigger LooksSame(s, r, j)} :: j < |s.days| && j != i ==> LooksSame(s, r, j)
  {
    NumbersOfDays(s.days);
    NumbersOfDays(r.days);
    forall n ensures n in affected <==> n == i + 1 {
      assert n in affected <==> n in Touched(affected);
    }
    forall n ensures n in NumbersOf(s.days) + NumbersOf(r.days) <==> 1 <= n <= |s.days| {
      InConcat(NumbersOf(s.days), NumbersOf(r.days), n);
    }
    if DaysUnchanged(s, r, affected) {
      forall j: nat {:trigger LooksSame(s, r, j)} | j < |s.days| && j != i ensures LooksSame(s, r, j) {
        assert j + 1 in NumbersOf(s.days) + NumbersOf(r.days) && j + 1 !in affected;
      }
    } else {
      var n :| n in NumbersOf(s.days) + NumbersOf(r.days) && n !in affected && ViewAt(s, n) != ViewAt(r, n);
      assert !LooksSame(s, r, n - 1);
    }
  }

  lemma UnchangedIffWeatherKept(
    s: Snapshot, r: Snapshot, affected: seq<nat>, i: nat, id: Id, refreshed: Option<Weather>)
    requires Numbered(s.days) && Numbered(r.days) && |r.days| == |s.days| && Touched(affected) == {i + 1}
    requires forall j: nat {:trigger LooksSame(s, r, j)} ::
        j < |s.days| && j != i ==> (LooksSame(s, r, j) <==> KeepsWeather(s, j, id, refreshed))
    ensures DaysUnchanged(s, r, affected) <==> OthersKeepWeather(s, i, id, refreshed)
  {
    UnchangedByPosition(s, r, affected, i);
    if !OthersKeepWeather(s, i, id, refreshed) {
      var j: nat :| j != i && !KeepsWeather(s, j, id, refreshed);
      assert !LooksSame(s, r, j);
    }
  }

  lemma RenewedIsComparable(
    s: Snapshot, days: seq<Day>, i: nat, id: Id, shape: Shape, dropped: seq<Id>,
    touched: set<nat>, legs: DayLegs, forecasts: Forecasts)
    requires Adds(s, days, i, id, shape) && touched == {i + 1}
    ensures var r := Renewed(s, shape, dropped, touched, legs, forecasts); Numbered(r.days) && |r.days| == |s.days|
  {
    AddsElsewhere(s, days, i, id, shape);
    RenewedNumbered(s, shape, dropped, touched, legs, forecasts);
  }

  /** The guard compares the other days, and those differ only in the weather of the added place. */
  lemma OthersUnchangedIff(
    s: Snapshot, days: seq<Day>, i: nat, id: Id, shape: Shape, dropped: seq<Id>, targets: seq<Id>, legs: DayLegs,
    forecasts: Forecasts, affected: seq<nat>)
    requires WF(s) && Adds(s, days, i, id, shape) && FreshSegments(s, legs) && Touched(affected) == {i + 1}
    requires TargetTouched(s, targets, Touched(affected)) && Drops(s, dropped, targets, Touched(affected))
    ensures DaysUnchanged(s, Renewed(s, shape, dropped, Touched(affected), legs, forecasts), affected)
       <==> RefreshIsHarmless(s, days, i, id, forecasts)
  {
    var r := Renewed(s, shape, dropped, Touched(affected), legs, forecasts);
    RenewedIsComparable(s, days, i, id, shape, dropped, Touched(affected), legs, forecasts);
    var refreshed := AnchorFact(days[i], id, forecasts(i));
    forall j: nat {:trigger LooksSame(s, r, j)} | j < |s.days| && j != i
      ensures LooksSame(s, r, j) <==> KeepsWeather(s, j, id, refreshed)
    {
      DayViewKept(s, days, i, id, shape, dropped, targets, Touched(affected), legs, forecasts, j);
    }
    UnchangedIffWeatherKept(s, r, affected, i, id, refreshed);
  }

  // ---- the operations -------------------------------------------------------------------------

  /** The edit goes through and the guard accepts it. */
  ghost predicate PassesGuard(s: Snapshot, intent: Intent, res: Resolution, legs: DayLegs, forecasts: Forecasts) {
    var r := Edited(s, intent, res, legs, forecasts);
    r.Ok? && DaysUnchanged(s, r.value, ImpactOf(s, intent, res).days)
  }

  lemma AppendBacked(places: seq<Place>, days: seq<Day>, i: nat, p: Place)
    requires Backed(places, days) && i < |days|
    ensures Backed(PutPlace(places, p), Appended(days, i, p.id))
  {
    var after := Appended(days, i, p.id);
    forall j, id | 0 <= j < |after| && id in after[j].placeIds ensures HasPlace(PutPlace(places, p), id) {
      assert id == p.id || id in days[j].placeIds;
      PutPlaceKnows(places, p, id);
    }
  }

  /** An edit that adds its place to day `i` of `days` passes exactly when the refresh is harmless. */
  lemma AddingPassesIff(
    s: Snapshot, intent: Intent, res: Resolution, places: seq<Place>,
    days: seq<Day>, i: nat, legs: DayLegs, forecasts: Forecasts)
    requires WF(s) && FreshSegments(s, legs) && intent.replacement.Some?
    requires Touched(ImpactOf(s, intent, res).days) == {i + 1} && TargetTouched(s, res.places, {i + 1})
    requires i < |days| && Backed(places, days)
    requires var shape := Shape(PutPlace(places, intent.replacement.value),
                                Appended(days, i, intent.replacement.value.id), s.requirements);
      && Reshape(s, intent, res, TargetDay(ImpactOf(s, intent, res))) == Ok(shape)
      && Adds(s, days, i, intent.replacement.value.id, shape)
    ensures PassesGuard(s, intent, res, legs, forecasts)
       <==> RefreshIsHarmless(s, days, i, intent.replacement.value.id, forecasts)
  {
    var impact := ImpactOf(s, intent, res);
    var shape := Reshape(s, intent, res, TargetDay(impact)).value;
    AppendBacked(places, days, i, intent.replacement.value);
    EditedIsRenewed(s, intent, res, legs, forecasts, shape);
    ImpactDrops(s, intent, res);
    OthersUnchangedIff(s, days, i, intent.replacement.value.id, shape,
                       impact.segments, res.places, legs, forecasts, impact.days);
  }

  /** The day an addition works on is the addressed one, if there is any day. */
  lemma AddIsAimed(s: Snapshot, intent: Intent, res: Resolution)
    requires WF(s) && ValidIntent(intent) && Settled(s, intent, res) && intent.operation == AddPlace
    ensures var number := TargetDay(ImpactOf(s, intent, res));
      if 1 <= AddressedDay(s, res) <= |s.days|
      then number == AddressedDay(s, res) && Touched(ImpactOf(s, intent, res).days) == {number}
      else !(1 <= number <= |s.days|)
    ensures Reshape(s, intent, res, TargetDay(ImpactOf(s, intent, res)))
         == Added(s, PlaceTable(s.places), s.days, intent.replacement.value, TargetDay(ImpactOf(s, intent, res)))
  {
    hide WF, ImpactOf, Added, Reordered, DropFromDays;
    PointEditIsAimed(s, intent, res);
  }

  lemma PlainAdds(s: Snapshot, i: nat, id: Id, shape: Shape)
    requires WF(s) && i < |s.days| && shape.days == Appended(s.days, i, id)
    ensures Adds(s, s.days, i, id, shape)
  {
  }

  /** An addition to a day there is. */
  lemma AddHerePassesIff(s: Snapshot, intent: Intent, res: Resolution, i: nat, legs: DayLegs, forecasts: Forecasts)
    requires WF(s) && ValidIntent(intent) && Settled(s, intent, res) && FreshSegments(s, legs)
    requires intent.operation == AddPlace && i < |s.days| && i + 1 == AddressedDay(s, res)
    ensures PassesGuard(s, intent, res, legs, forecasts)
       <==> RefreshIsHarmless(s, s.days, i, intent.replacement.value.id, forecasts)
  {
    var p := intent.replacement.value;
    hide *;
    AddIsAimed(s, intent, res);
    WFIsCoherent(s);
    PlaceTableIsIdentity(s.places);
    AddedToDay(s, s.places, s.days, p, i + 1);
    PlainAdds(s, i, p.id, Shape(PutPlace(s.places, p), Appended(s.days, i, p.id), s.requirements));
    PointEditTouches(s, intent, res);
    AddingPassesIff(s, intent, res, s.places, s.days, i, legs, forecasts);
  }

  /** An addition without a day to add to. */
  lemma AddNowhereFails(s: Snapshot, intent: Intent, res: Resolution, legs: DayLegs, forecasts: Forecasts)
    requires WF(s) && ValidIntent(intent) && Settled(s, intent, res)
    requires intent.operation == AddPlace && !(1 <= AddressedDay(s, res) <= |s.days|)
    ensures !PassesGuard(s, intent, res, legs, forecasts)
  {
    hide ImpactOf, Added;
    AddIsAimed(s, intent, res);
    AddedToDay(s, PlaceTable(s.places), s.days, intent.replacement.value, TargetDay(ImpactOf(s, intent, res)));
  }

  lemma AddPassesIff(s: Snapshot, intent: Intent, res: Resolution, legs: DayLegs, forecasts: Forecasts)
    requires WF(s) && ValidIntent(intent) && Settled(s, intent, res) && FreshSegments(s, legs)
    requires intent.operation == AddPlace
    ensures PassesGuard(s, intent, res, legs, forecasts) <==> Passes(s, intent, res, forecasts)
  {
    hide PassesGuard, RefreshIsHarmless, WF;
    if 1 <= AddressedDay(s, res) <= |s.days| {
      AddHerePassesIff(s, intent, res, AddressedDay(s, res) - 1, legs, forecasts);
    } else {
      AddNowhereFails(s, intent, res, legs, forecasts);
    }
  }

  lemma DropAdds(s: Snapshot, target: Id, i: nat, id: Id, shape: Shape)
    requires WF(s) && i < |s.days| && shape.days == Appended(DropFromDays(s.days, target), i, id)
    requires forall j :: 0 <= j < |s.days| && target in s.days[j].placeIds ==> j == i
    ensures Adds(s, DropFromDays(s.days, target), i, id, shape)
  {
    var days := DropFromDays(s.days, target);
    forall j: nat | j + 1 !in {i + 1} ensures SameAt(s.days, days, j) {
      if j < |s.days| {
        DropElsewhere(s.days, target, j);
      }
    }
    WithoutMembers(s.days[i].placeIds, target);
  }

  /** The parts of a replacement, in the terms of `AddingPassesIff`. */
  lemma ReplacementAdds(s: Snapshot, target: Id, p: Place, i: nat)
    requires WF(s) && i < |s.days|
    requires forall j :: 0 <= j < |s.days| && target in s.days[j].placeIds ==> j == i
    ensures Backed(DropPlace(s.places, target), DropFromDays(s.days, target))
    ensures var shape := Shape(PutPlace(DropPlace(s.places, target), p),
                               Appended(DropFromDays(s.days, target), i, p.id), s.requirements);
      && Added(s, DropPlace(PlaceTable(s.places), target), DropFromDays(s.days, target), p, i + 1) == Ok(shape)
      && Adds(s, DropFromDays(s.days, target), i, p.id, shape)
  {
    WFIsCoherent(s);
    PlaceTableIsIdentity(s.places);
    DropIsCoherent(s.places, s.days, target);
    AddedToDay(s, DropPlace(s.places, target), DropFromDays(s.days, target), p, i + 1);
    var dropped := DropFromDays(s.days, target);
    DropAdds(s, target, i, p.id,
             Shape(PutPlace(DropPlace(s.places, target), p), Appended(dropped, i, p.id), s.requirements));
  }

  /** A replacement that works on day `i`, the only day its old place may be on. */
  ghost predicate ReplacesOn(s: Snapshot, intent: Intent, res: Resolution, i: nat) {
    && intent.operation == ReplacePlace && intent.replacement.Some? && res.places != []
    && i < |s.days| && res.days == [i + 1]
    && (forall j :: 0 <= j < |s.days| && res.places[0] in s.days[j].placeIds ==> j == i)
    && TargetDay(ImpactOf(s, intent, res)) == i + 1 && Touched(ImpactOf(s, intent, res).days) == {i + 1}
    && TargetTouched(s, res.places, {i + 1})
  }

  lemma ReplacementIsAimed(s: Snapshot, intent: Intent, res: Resolution)
    requires WF(s) && ValidIntent(intent) && Settled(s, intent, res)
    requires intent.operation == ReplacePlace && res.days != []
    ensures res.days[0] >= 1 && ReplacesOn(s, intent, res, res.days[0] - 1)
  {
    PointEditIsAimed(s, intent, res);
    PointEditTouches(s, intent, res);
    assert res.places[0] in res.places;
  }

  lemma ReplacementReshapes(s: Snapshot, intent: Intent, res: Resolution, i: nat)
    requires ReplacesOn(s, intent, res, i)
    ensures Reshape(s, intent, res, TargetDay(ImpactOf(s, intent, res)))
         == Added(s, DropPlace(PlaceTable(s.places), res.places[0]), DropFromDays(s.days, res.places[0]),
                  intent.replacement.value, i + 1)
  {
    hide ImpactOf, Added, DropPlace, PlaceTable, DropFromDays;
  }

  lemma ReplacementPassesIff(s: Snapshot, intent: Intent, res: Resolution, i: nat, legs: DayLegs, forecasts: Forecasts)
    requires WF(s) && FreshSegments(s, legs) && ReplacesOn(s, intent, res, i)
    ensures PassesGuard(s, intent, res, legs, forecasts)
       <==> RefreshIsHarmless(s, DropFromDays(s.days, res.places[0]), i, intent.replacement.value.id, forecasts)
  {
    hide WF, FreshSegments, Reshape, Added, ImpactOf, PassesGuard, RefreshIsHarmless, Backed, Adds, TargetTouched;
    var target := res.places[0];
    ReplacementReshapes(s, intent, res, i);
    ReplacementAdds(s, target, intent.replacement.value, i);
    AddingPassesIff(s, intent, res, DropPlace(s.places, target), DropFromDays(s.days, target), i, legs, forecasts);
  }

  lemma ReplacePassesIff(s: Snapshot, intent: Intent, res: Resolution, legs: DayLegs, forecasts: Forecasts)
    requires WF(s) && ValidIntent(intent) && Settled(s, intent, res) && FreshSegments(s, legs)
    requires intent.operation == ReplacePlace && res.days != []
    ensures PassesGuard(s, intent, res, legs, forecasts) <==> Passes(s, intent, res, forecasts)
  {
    hide WF, PassesGuard, RefreshIsHarmless, FreshSegments, ImpactOf, TargetTouched, DropFromDays;
    ReplacementIsAimed(s, intent, res);
    ReplacementPassesIff(s, intent, res, res.days[0] - 1, legs, forecasts);
  }

  /**
   * Main result: for every well-formed itinerary, resolved intent and provider behaviour, an edit goes through and
   * passes the guard if and only if there is a day to work on and no other day loses weather about the incoming place.
   */
  lemma GuardPassesIff(s: Snapshot, intent: Intent, legs: DayLegs, forecasts: Forecasts)
    requires WF(s) && ValidIntent(intent) && Resolve(s, intent).resolved && FreshSegments(s, legs)
    ensures PassesGuard(s, intent, Resolve(s, intent), legs, forecasts)
       <==> Passes(s, intent, Resolve(s, intent), forecasts)
  {
    var res := Resolve(s, intent);
    ResolveIsSettled(s, intent);
    if intent.operation == AddPlace {
      AddPassesIff(s, intent, res, legs, forecasts);
    } else if intent.operation == ReplacePlace {
      if res.days == [] {
        ReplaceUnscheduled(s, intent, res, legs, forecasts);
      } else {
        ReplacePassesIff(s, intent, res, legs, forecasts);
      }
    } else {
      ApplicableEditIsDelivered(s, intent, legs, forecasts);
    }
  }

  /** Among the edits that pass the guard, exactly the applicable ones give a well-formed itinerary. */
  lemma PassedIsWFIffApplicable(s: Snapshot, intent: Intent, legs: DayLegs, forecasts: Forecasts)
    requires WF(s) && ValidIntent(intent) && Resolve(s, intent).resolved && FreshSegments(s, legs)
    requires PassesGuard(s, intent, Resolve(s, intent), legs, forecasts)
    ensures WF(Edited(s, intent, Resolve(s, intent), legs, forecasts).value)
       <==> Applicable(s, intent, Resolve(s, intent))
  {
    DeliveredIffApplicable(s, intent, legs, forecasts);
  }

  /** Only the day a place is on refers to weather about it. */
  lemma NothingSaidElsewhere(s: Snapshot, i: nat, j: nat, id: Id)
    requires WF(s) && i < |s.days| && j < |s.days| && i != j && id in s.days[i].placeIds
    ensures SurvivesRefresh(WeatherOfRefs(s, s.days[j]), id, None)
  {
    var view := WeatherOfRefs(s, s.days[j]);
    forall k | 0 <= k < |view| ensures view[k].place != id {
      FilterMember(s.weather, ReferredBy(s.days[j]), view[k]);
      WeatherOfDay(s, j, view[k]);
    }
  }

  /** The place to add is already on the day it is to be added to. */
  ghost predicate AlreadyThere(s: Snapshot, intent: Intent, res: Resolution) {
    && intent.operation == AddPlace && intent.replacement.Some?
    && 1 <= AddressedDay(s, res) <= |s.days|
    && intent.replacement.value.id in s.days[AddressedDay(s, res) - 1].placeIds
  }

  lemma AlreadyTherePasses(s: Snapshot, intent: Intent, res: Resolution, forecasts: Forecasts)
    requires WF(s) && AlreadyThere(s, intent, res)
    ensures Passes(s, intent, res, forecasts)
  {
    var i, id := AddressedDay(s, res) - 1, intent.replacement.value.id;
    forall j: nat | j != i ensures KeepsWeather(s, j, id, None) {
      if j < |s.days| {
        NothingSaidElsewhere(s, i, j, id);
      }
    }
  }

  lemma AlreadyThereOverlaps(s: Snapshot, intent: Intent, res: Resolution, legs: DayLegs, forecasts: Forecasts)
    requires WF(s) && ValidIntent(intent) && Settled(s, intent, res) && AlreadyThere(s, intent, res)
    ensures Edited(s, intent, res, legs, forecasts).Ok? ==>
        !Disjoint(Edited(s, intent, res, legs, forecasts).value.days)
  {
    PointEditIsAimed(s, intent, res);
    AddOverlaps(s, intent, res, TargetDay(ImpactOf(s, intent, res)), Touched(ImpactOf(s, intent, res).days));
    OverlapNotDelivered(s, intent, res, legs, forecasts);
  }

  /** Adding a place to the day it is already on goes through, passes the guard and schedules the place twice. */
  lemma AddedTwice(s: Snapshot, intent: Intent, legs: DayLegs, forecasts: Forecasts)
    requires WF(s) && ValidIntent(intent) && Resolve(s, intent).resolved && FreshSegments(s, legs)
    requires AlreadyThere(s, intent, Resolve(s, intent))
    ensures PassesGuard(s, intent, Resolve(s, intent), legs, forecasts)
    ensures !Disjoint(Edited(s, intent, Resolve(s, intent), legs, forecasts).value.days)
  {
    AlreadyTherePasses(s, intent, Resolve(s, intent), forecasts);
    GuardPassesIff(s, intent, legs, forecasts);
    ResolveIsSettled(s, intent);
    AlreadyThereOverlaps(s, intent, Resolve(s, intent), legs, forecasts);
  }
}
