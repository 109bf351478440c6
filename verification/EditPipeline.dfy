/**
 * Invalidation followed by recomputation, for any reshaped itinerary: the result is well formed and every
 * untouched day keeps its record, its segments and its weather.
 */
module EditPipeline {
  import opened Wrappers
  import opened Sequences
  import opened RequirementData
  import opened SnapshotData
  import opened Providers
  import opened Editing
  import opened Recompute

  /** The days outside `touched` are the same days, at the same positions. */
  ghost predicate SameElsewhere(a: seq<Day>, b: seq<Day>, touched: set<nat>) {
    forall i: nat {:trigger SameAt(a, b, i)} :: i + 1 !in touched ==> SameAt(a, b, i)
  }

  ghost predicate SameAt(a: seq<Day>, b: seq<Day>, i: nat) {
    (i < |a| <==> i < |b|) && (i < |a| ==> a[i] == b[i])
  }

  ghost predicate Backed(places: seq<Place>, days: seq<Day>) {
    forall i, id :: 0 <= i < |days| && id in days[i].placeIds ==> HasPlace(places, id)
  }

  /** The days are numbered, and those outside `touched` are the days of `s`. */
  ghost predicate Framed(s: Snapshot, shape: Shape, touched: set<nat>) {
    Numbered(shape.days) && SameElsewhere(s.days, shape.days, touched)
  }

  /** What an operation must leave behind before facts are invalidated and recomputed. */
  ghost predicate GoodShape(s: Snapshot, shape: Shape, touched: set<nat>) {
    && Distinct(Map(shape.places, PLACE_KEY))
    && Disjoint(shape.days)
    && Backed(shape.places, shape.days)
    && Framed(s, shape, touched)
  }

  /** A referenced place is scheduled on touched days only. */
  ghost predicate TargetTouched(s: Snapshot, targets: seq<Id>, touched: set<nat>) {
    forall i, id :: 0 <= i < |s.days| && id in targets && id in s.days[i].placeIds ==> i + 1 in touched
  }

  /** The segments an impact drops: those of touched days and those at a referenced place. */
  ghost predicate Drops(s: Snapshot, dropped: seq<Id>, targets: seq<Id>, touched: set<nat>) {
    forall g :: g in s.segments && g.id in dropped ==>
      g.id in SegmentsOn(s.days, touched) || g.origin in targets || g.destination in targets
  }

  /** `uuid4` over one recomputation: never an existing segment id, never the same twice. */
  ghost predicate FreshSegments(s: Snapshot, legs: DayLegs) {
    && NeverRepeats(legs)
    && (forall i, k, g :: g in s.segments ==> g.id != legs(i).segmentId(k))
  }

  // ---- what survives invalidation -------------------------------------------------------------

  lemma SegmentOfDay(s: Snapshot, i: nat, g: Segment)
    requires WF(s) && i < |s.days| && g in s.segments && g.id in s.days[i].segmentIds
    ensures g.origin in s.days[i].placeIds && g.destination in s.days[i].placeIds
  {
    var day := s.days[i];
    assert DayGrounded(s, day);
    var k :| 0 <= k < |day.segmentIds| && day.segmentIds[k] == g.id;
    assert Joins(s.segments, day.segmentIds[k], day.placeIds[k], day.placeIds[k + 1]);
    var h :| h in s.segments && h.id == g.id && h.origin == day.placeIds[k] && h.destination == day.placeIds[k + 1];
    DistinctKeyUnique(s.segments, SEGMENT_KEY, g, h);
  }

  lemma WeatherOfDay(s: Snapshot, i: nat, w: Weather)
    requires WF(s) && i < |s.days| && w in s.weather && w.ref in s.days[i].weatherRefs
    ensures w.place in s.days[i].placeIds
  {
    assert DayGrounded(s, s.days[i]);
    var v :| v in s.weather && v.ref == w.ref && v.place in s.days[i].placeIds;
    DistinctKeyUnique(s.weather, WEATHER_KEY, w, v);
  }

  lemma UntouchedSegmentSurvives(s: Snapshot, dropped: seq<Id>, targets: seq<Id>, touched: set<nat>, i: nat, g: Segment)
    requires WF(s) && TargetTouched(s, targets, touched) && Drops(s, dropped, targets, touched)
    requires i < |s.days| && i + 1 !in touched
    requires g in s.segments && g.id in s.days[i].segmentIds
    ensures g.id !in dropped
  {
    SegmentOfDay(s, i, g);
    forall day | day in s.days && day.number in touched ensures g.id !in day.segmentIds {
      var j :| 0 <= j < |s.days| && s.days[j] == day;
      if g.id in day.segmentIds {
        SegmentOnOneDay(s, i, j, g);
      }
    }
    assert g.id !in SegmentsOn(s.days, touched);
  }

  lemma SegmentOnOneDay(s: Snapshot, i: nat, j: nat, g: Segment)
    requires WF(s) && i < |s.days| && j < |s.days|
    requires g in s.segments && g.id in s.days[i].segmentIds && g.id in s.days[j].segmentIds
    ensures i == j
  {
    SegmentOfDay(s, i, g);
    SegmentOfDay(s, j, g);
  }

  lemma UntouchedWeatherSurvives(s: Snapshot, shape: Shape, touched: set<nat>, i: nat, w: Weather)
    requires WF(s) && GoodShape(s, shape, touched)
    requires i < |s.days| && i + 1 !in touched
    requires w in s.weather && w.ref in s.days[i].weatherRefs
    ensures w.place !in PlacesOn(shape.days, touched)
  {
    WeatherOfDay(s, i, w);
    assert SameAt(s.days, shape.days, i);
    forall day | day in shape.days && day.number in touched ensures w.place !in day.placeIds {
      var j :| 0 <= j < |shape.days| && shape.days[j] == day;
      assert j != i;
    }
  }

  // ---- the recomputed snapshot ----------------------------------------------------------------

  function KeptSegments(s: Snapshot, dropped: seq<Id>): seq<Segment> {
    Filter(s.segments, (g: Segment) => g.id !in dropped)
  }

  function KeptWeather(s: Snapshot, onDays: set<Id>): seq<Weather> {
    Filter(s.weather, (w: Weather) => w.place !in onDays)
  }

  /** The snapshot after invalidation and recomputation, part by part. */
  function Renewed(
    s: Snapshot, shape: Shape, dropped: seq<Id>, touched: set<nat>, legs: DayLegs, forecasts: Forecasts): Snapshot
  {
    var mode := ModeOf(shape.requirements);
    var days := Cleared(shape.days, touched);
    s.(requirements := shape.requirements,
       places := shape.places,
       days := UpdatedDays(days, |days|, touched, legs, mode),
       segments := KeptSegments(s, dropped) + NewSegments(days, touched, legs, mode),
       weather := KeptWeather(s, PlacesOn(shape.days, touched)) + NewWeather(days, touched, forecasts))
  }

  lemma ClearedHasNoFacts(days: seq<Day>, touched: set<nat>)
    ensures SegmentsOn(Cleared(days, touched), touched) == {}
    ensures WeatherOn(Cleared(days, touched), touched) == {}
  {
    var cleared := Cleared(days, touched);
    forall day | day in cleared && day.number in touched ensures day.segmentIds == [] && day.weatherRefs == [] {
      var i :| 0 <= i < |cleared| && cleared[i] == day;
    }
  }

  lemma RecomputedIsRenewed(
    s: Snapshot, shape: Shape, impact: Impact, touched: set<nat>, legs: DayLegs, forecasts: Forecasts)
    requires touched == Touched(impact.days)
    ensures Recomputed(Invalidated(s, shape, impact), touched, legs, forecasts)
         == Renewed(s, shape, impact.segments, touched, legs, forecasts)
  {
    var p := Invalidated(s, shape, impact);
    ClearedHasNoFacts(shape.days, touched);
    var noSegments, noWeather := SegmentsOn(p.days, touched), WeatherOn(p.days, touched);
    FilterAll(p.segments, (g: Segment) => g.id !in noSegments);
    FilterAll(p.weather, (w: Weather) => w.ref !in noWeather);
  }

  lemma BackedIsLocatable(s: Snapshot, shape: Shape, impact: Impact)
    requires Backed(shape.places, shape.days)
    ensures CanLocate(Invalidated(s, shape, impact), Touched(impact.days))
  {
    var p := Invalidated(s, shape, impact);
    forall day | day in p.days && day.number in Touched(impact.days) ensures Locatable(p, day) {
      var i :| 0 <= i < |p.days| && p.days[i] == day;
      assert day.placeIds == shape.days[i].placeIds;
      forall id | id in day.placeIds ensures Knows(p.places, id) {
        assert HasPlace(shape.places, id);
      }
    }
  }

  // ---- unique facts ---------------------------------------------------------------------------

  ghost predicate NeverRepeats(legs: DayLegs) {
    forall i, k, j, l :: legs(i).segmentId(k) == legs(j).segmentId(l) ==> i == j && k == l
  }

  lemma SegmentIssued(day: Day, touched: set<nat>, oracle: LegOracle, mode: string, k: nat)
    requires k < |SegmentsFor(day, touched, oracle, mode)|
    ensures SegmentsFor(day, touched, oracle, mode)[k].id == oracle.segmentId(k)
  {
  }

  lemma NewSegmentIssued(days: seq<Day>, touched: set<nat>, legs: DayLegs, mode: string, g: Segment)
    requires g in NewSegments(days, touched, legs, mode)
    ensures exists i: nat, k: nat :: g.id == legs(i).segmentId(k)
  {
    var part := SegmentPart(days, touched, legs, mode);
    AccumulateOrigin(|days|, part, g);
    var i :| 0 <= i < |days| && g in part(i);
    var k :| 0 <= k < |part(i)| && part(i)[k] == g;
    SegmentIssued(days[i], touched, legs(i), mode, k);
  }

  lemma NewSegmentsDistinct(days: seq<Day>, touched: set<nat>, legs: DayLegs, mode: string)
    requires NeverRepeats(legs)
    ensures Distinct(Map(NewSegments(days, touched, legs, mode), SEGMENT_KEY))
  {
    var part := SegmentPart(days, touched, legs, mode);
    forall i | 0 <= i < |days| ensures Distinct(Map(part(i), SEGMENT_KEY)) {
      OwnSegmentsDistinct(days[i], touched, legs, i, mode);
    }
    forall i, j | 0 <= i < j < |days| ensures KeysApart(part(i), part(j), SEGMENT_KEY) {
      OwnSegmentsApart(days[i], days[j], touched, legs, i, j, mode);
    }
    AccumulateKeysDistinct(|days|, part, SEGMENT_KEY);
  }

  lemma OwnSegmentsDistinct(day: Day, touched: set<nat>, legs: DayLegs, i: nat, mode: string)
    requires NeverRepeats(legs)
    ensures Distinct(Map(SegmentsFor(day, touched, legs(i), mode), SEGMENT_KEY))
  {
    var own := SegmentsFor(day, touched, legs(i), mode);
    forall a, b | 0 <= a < b < |own| ensures own[a].id != own[b].id {
      SegmentIssued(day, touched, legs(i), mode, a);
      SegmentIssued(day, touched, legs(i), mode, b);
    }
  }

  lemma OwnSegmentsApart(day: Day, other: Day, touched: set<nat>, legs: DayLegs, i: nat, j: nat, mode: string)
    requires NeverRepeats(legs) && i != j
    ensures KeysApart(SegmentsFor(day, touched, legs(i), mode), SegmentsFor(other, touched, legs(j), mode), SEGMENT_KEY)
  {
    var own, others := SegmentsFor(day, touched, legs(i), mode), SegmentsFor(other, touched, legs(j), mode);
    forall a, b | 0 <= a < |own| && 0 <= b < |others| ensures own[a].id != others[b].id {
      SegmentIssued(day, touched, legs(i), mode, a);
      SegmentIssued(other, touched, legs(j), mode, b);
    }
  }

  lemma RenewedSegmentsDistinct(
    s: Snapshot, days: seq<Day>, dropped: seq<Id>, touched: set<nat>, legs: DayLegs, mode: string)
    requires Distinct(Map(s.segments, SEGMENT_KEY)) && FreshSegments(s, legs)
    ensures Distinct(Map(KeptSegments(s, dropped) + NewSegments(days, touched, legs, mode), SEGMENT_KEY))
  {
    var kept, added := KeptSegments(s, dropped), NewSegments(days, touched, legs, mode);
    FilterKeysDistinct(s.segments, (g: Segment) => g.id !in dropped, SEGMENT_KEY);
    NewSegmentsDistinct(days, touched, legs, mode);
    forall i, j | 0 <= i < |kept| && 0 <= j < |added| ensures kept[i].id != added[j].id {
      FilterMember(s.segments, (g: Segment) => g.id !in dropped, kept[i]);
      NewSegmentIssued(days, touched, legs, mode, added[j]);
    }
    DistinctKeysConcat(kept, added, SEGMENT_KEY);
  }

  /** A new weather fact is about the first place of a touched day. */
  lemma NewWeatherOrigin(days: seq<Day>, touched: set<nat>, forecasts: Forecasts, w: Weather)
    requires w in NewWeather(days, touched, forecasts)
    ensures w.place == w.ref.place
    ensures exists i :: 0 <= i < |days| && days[i].number in touched && w.place in days[i].placeIds
  {
    var part := WeatherPart(days, touched, forecasts);
    AccumulateOrigin(|days|, part, w);
    var i :| 0 <= i < |days| && w in part(i);
    FactsForDay(days[i], touched, forecasts(i));
  }

  lemma FactsForDay(day: Day, touched: set<nat>, forecast: Option<ForecastFact>)
    ensures Distinct(Map(WeatherFor(day, touched, forecast), WEATHER_KEY))
    ensures forall w :: w in WeatherFor(day, touched, forecast) ==>
              day.number in touched && w.place in day.placeIds && w.place == w.ref.place
  {
  }

  lemma NewWeatherDistinct(days: seq<Day>, touched: set<nat>, forecasts: Forecasts)
    requires Disjoint(days)
    ensures Distinct(Map(NewWeather(days, touched, forecasts), WEATHER_KEY))
  {
    var part := WeatherPart(days, touched, forecasts);
    forall i | 0 <= i < |days| ensures Distinct(Map(part(i), WEATHER_KEY)) {
      FactsForDay(days[i], touched, forecasts(i));
    }
    forall i, j | 0 <= i < j < |days| ensures KeysApart(part(i), part(j), WEATHER_KEY) {
      OwnWeatherApart(days, touched, forecasts, i, j);
    }
    AccumulateKeysDistinct(|days|, part, WEATHER_KEY);
  }

  lemma OwnWeatherApart(days: seq<Day>, touched: set<nat>, forecasts: Forecasts, i: nat, j: nat)
    requires Disjoint(days) && i < j < |days|
    ensures KeysApart(WeatherFor(days[i], touched, forecasts(i)),
                      WeatherFor(days[j], touched, forecasts(j)), WEATHER_KEY)
  {
    var own, others := WeatherFor(days[i], touched, forecasts(i)), WeatherFor(days[j], touched, forecasts(j));
    forall a, b | 0 <= a < |own| && 0 <= b < |others| ensures own[a].ref != others[b].ref {
      assert own[a].ref.place in days[i].placeIds && others[b].ref.place in days[j].placeIds;
    }
  }

  lemma RenewedWeatherDistinct(s: Snapshot, days: seq<Day>, touched: set<nat>, forecasts: Forecasts)
    requires Distinct(Map(s.weather, WEATHER_KEY)) && (forall w :: w in s.weather ==> w.place == w.ref.place)
    requires Disjoint(days)
    ensures Distinct(Map(KeptWeather(s, PlacesOn(days, touched)) + NewWeather(days, touched, forecasts), WEATHER_KEY))
  {
    var onDays := PlacesOn(days, touched);
    var kept, added := KeptWeather(s, onDays), NewWeather(days, touched, forecasts);
    FilterKeysDistinct(s.weather, (w: Weather) => w.place !in onDays, WEATHER_KEY);
    NewWeatherDistinct(days, touched, forecasts);
    forall a, b | 0 <= a < |kept| && 0 <= b < |added| ensures kept[a].ref != added[b].ref {
      FilterMember(s.weather, (w: Weather) => w.place !in onDays, kept[a]);
      NewWeatherOnDays(days, touched, forecasts, added[b]);
    }
    DistinctKeysConcat(kept, added, WEATHER_KEY);
  }

  lemma NewWeatherOnDays(days: seq<Day>, touched: set<nat>, forecasts: Forecasts, w: Weather)
    requires w in NewWeather(days, touched, forecasts)
    ensures w.ref.place in PlacesOn(days, touched)
  {
    NewWeatherOrigin(days, touched, forecasts, w);
    var i :| 0 <= i < |days| && days[i].number in touched && w.place in days[i].placeIds;
    assert days[i] in days;
  }

  // ---- every day of the result ----------------------------------------------------------------

  lemma RenewedDay(
    s: Snapshot, shape: Shape, dropped: seq<Id>, touched: set<nat>, legs: DayLegs, forecasts: Forecasts, i: nat)
    requires Framed(s, shape, touched) && i < |shape.days|
    ensures var r := Renewed(s, shape, dropped, touched, legs, forecasts);
      && |r.days| == |shape.days|
      && r.days[i].number == i + 1
      && r.days[i].placeIds == shape.days[i].placeIds
      && (i + 1 in touched ==>
            r.days[i] == Rebuilt(Cleared(shape.days, touched)[i], legs(i), ModeOf(shape.requirements)))
      && (i + 1 !in touched ==> i < |s.days| && r.days[i] == s.days[i] == shape.days[i])
  {
    hide NewSegments, NewWeather, KeptSegments, KeptWeather, PlacesOn;
    assert shape.days[i].number == i + 1;
    if i + 1 !in touched {
      assert SameAt(s.days, shape.days, i);
    }
  }

  lemma UntouchedGrounded(
    s: Snapshot, shape: Shape, dropped: seq<Id>, targets: seq<Id>,
    touched: set<nat>, legs: DayLegs, forecasts: Forecasts, i: nat)
    requires WF(s) && GoodShape(s, shape, touched)
    requires TargetTouched(s, targets, touched) && Drops(s, dropped, targets, touched)
    requires i < |shape.days| && i + 1 !in touched
    ensures DayGrounded(Renewed(s, shape, dropped, touched, legs, forecasts), shape.days[i])
  {
    var r := Renewed(s, shape, dropped, touched, legs, forecasts);
    assert SameAt(s.days, shape.days, i);
    var day := s.days[i];
    assert DayGrounded(s, day);
    assert Connected(r.segments, day) by { SegmentsStayJoined(s, r, dropped, targets, touched, i); }
    assert Forecast(r.weather, day) by { ForecastStays(s, shape, r, touched, i); }
  }

  lemma SegmentsStayJoined(s: Snapshot, r: Snapshot, dropped: seq<Id>, targets: seq<Id>, touched: set<nat>, i: nat)
    requires WF(s) && TargetTouched(s, targets, touched) && Drops(s, dropped, targets, touched)
    requires i < |s.days| && i + 1 !in touched
    requires forall g :: g in KeptSegments(s, dropped) ==> g in r.segments
    ensures Connected(r.segments, s.days[i])
  {
    var day := s.days[i];
    assert DayGrounded(s, day);
    forall k | 0 <= k < |day.segmentIds|
      ensures Joins(r.segments, day.segmentIds[k], day.placeIds[k], day.placeIds[k + 1])
    {
      assert Joins(s.segments, day.segmentIds[k], day.placeIds[k], day.placeIds[k + 1]);
      var g :| g in s.segments && g.id == day.segmentIds[k] && g.origin == day.placeIds[k]
               && g.destination == day.placeIds[k + 1];
      UntouchedSegmentSurvives(s, dropped, targets, touched, i, g);
      FilterMember(s.segments, (g: Segment) => g.id !in dropped, g);
    }
  }

  lemma ForecastStays(s: Snapshot, shape: Shape, r: Snapshot, touched: set<nat>, i: nat)
    requires WF(s) && GoodShape(s, shape, touched)
    requires i < |s.days| && i + 1 !in touched
    requires forall w :: w in KeptWeather(s, PlacesOn(shape.days, touched)) ==> w in r.weather
    ensures Forecast(r.weather, s.days[i])
  {
    var day := s.days[i];
    var onDays := PlacesOn(shape.days, touched);
    assert DayGrounded(s, day);
    forall ref | ref in day.weatherRefs ensures exists w :: w in r.weather && w.ref == ref && w.place in day.placeIds {
      var w :| w in s.weather && w.ref == ref && w.place in day.placeIds;
      UntouchedWeatherSurvives(s, shape, touched, i, w);
      FilterMember(s.weather, (w: Weather) => w.place !in onDays, w);
    }
  }

  lemma TouchedConnected(
    s: Snapshot, shape: Shape, dropped: seq<Id>, touched: set<nat>, legs: DayLegs, forecasts: Forecasts, i: nat)
    requires GoodShape(s, shape, touched)
    requires i < |shape.days| && i + 1 in touched
    ensures var r := Renewed(s, shape, dropped, touched, legs, forecasts); Connected(r.segments, r.days[i])
  {
    var r := Renewed(s, shape, dropped, touched, legs, forecasts);
    var mode := ModeOf(shape.requirements);
    var days := Cleared(shape.days, touched);
    RenewedDay(s, shape, dropped, touched, legs, forecasts, i);
    var day := r.days[i];
    var own := LegsOf(day.placeIds, legs(i), mode);
    assert own == SegmentsFor(days[i], touched, legs(i), mode);
    OwnSegmentsIncluded(days, touched, legs, mode, i);
    OwnLegsConnect(r.segments, day, legs(i), mode);
  }

  lemma OwnSegmentsIncluded(days: seq<Day>, touched: set<nat>, legs: DayLegs, mode: string, i: nat)
    requires i < |days|
    ensures forall g ::
        g in SegmentsFor(days[i], touched, legs(i), mode) ==> g in NewSegments(days, touched, legs, mode)
  {
    var part := SegmentPart(days, touched, legs, mode);
    forall g | g in SegmentsFor(days[i], touched, legs(i), mode) ensures g in NewSegments(days, touched, legs, mode) {
      AccumulateMember(|days|, part, i, g);
    }
  }

  /** A day that lists exactly the ids of its own legs is connected by them. */
  lemma OwnLegsConnect(segments: seq<Segment>, day: Day, oracle: LegOracle, mode: string)
    requires day.segmentIds == Map(LegsOf(day.placeIds, oracle, mode), SEGMENT_KEY)
    requires forall g :: g in LegsOf(day.placeIds, oracle, mode) ==> g in segments
    ensures Connected(segments, day)
  {
    var own := LegsOf(day.placeIds, oracle, mode);
    forall k | 0 <= k < |own| ensures Joins(segments, own[k].id, day.placeIds[k], day.placeIds[k + 1]) {
      assert own[k] in own;
    }
  }

  lemma TouchedForecast(
    s: Snapshot, shape: Shape, dropped: seq<Id>, touched: set<nat>, legs: DayLegs, forecasts: Forecasts, i: nat)
    requires GoodShape(s, shape, touched)
    requires i < |shape.days| && i + 1 in touched
    ensures var r := Renewed(s, shape, dropped, touched, legs, forecasts); Forecast(r.weather, r.days[i])
  {
    var r := Renewed(s, shape, dropped, touched, legs, forecasts);
    var days := Cleared(shape.days, touched);
    RenewedDay(s, shape, dropped, touched, legs, forecasts, i);
    var day := r.days[i];
    if Anchored(day) {
      var w := FactOf(day.placeIds[0], day.date.value, forecasts(i));
      assert WeatherFor(days[i], touched, forecasts(i)) == [w];
      AccumulateMember(|days|, WeatherPart(days, touched, forecasts), i, w);
      assert w in r.weather && w.place in day.placeIds;
      assert day.weatherRefs == [w.ref];
    }
  }

  lemma TouchedGrounded(
    s: Snapshot, shape: Shape, dropped: seq<Id>, touched: set<nat>, legs: DayLegs, forecasts: Forecasts, i: nat)
    requires GoodShape(s, shape, touched)
    requires i < |shape.days| && i + 1 in touched
    ensures var r := Renewed(s, shape, dropped, touched, legs, forecasts); DayGrounded(r, r.days[i])
  {
    RenewedDay(s, shape, dropped, touched, legs, forecasts, i);
    TouchedConnected(s, shape, dropped, touched, legs, forecasts, i);
    TouchedForecast(s, shape, dropped, touched, legs, forecasts, i);
  }

  /** The renewed snapshot is well formed. */
  lemma RenewedIsWF(
    s: Snapshot, shape: Shape, dropped: seq<Id>, targets: seq<Id>,
    touched: set<nat>, legs: DayLegs, forecasts: Forecasts)
    requires WF(s) && GoodShape(s, shape, touched) && FreshSegments(s, legs)
    requires TargetTouched(s, targets, touched) && Drops(s, dropped, targets, touched)
    ensures WF(Renewed(s, shape, dropped, touched, legs, forecasts))
  {
    var r := Renewed(s, shape, dropped, touched, legs, forecasts);
    assert UniqueFacts(r) by { RenewedFactsUnique(s, shape, dropped, touched, legs, forecasts); }
    forall i | 0 <= i < |r.days| ensures r.days[i].number == i + 1 && DayGrounded(r, r.days[i]) {
      RenewedDay(s, shape, dropped, touched, legs, forecasts, i);
      if i + 1 in touched {
        TouchedGrounded(s, shape, dropped, touched, legs, forecasts, i);
      } else {
        UntouchedGrounded(s, shape, dropped, targets, touched, legs, forecasts, i);
      }
    }
    assert Disjoint(r.days) by { RenewedDisjoint(s, shape, dropped, touched, legs, forecasts); }
  }

  lemma RenewedDisjoint(
    s: Snapshot, shape: Shape, dropped: seq<Id>, touched: set<nat>, legs: DayLegs, forecasts: Forecasts)
    requires GoodShape(s, shape, touched)
    ensures Disjoint(Renewed(s, shape, dropped, touched, legs, forecasts).days)
  {
    var days := Renewed(s, shape, dropped, touched, legs, forecasts).days;
    forall i | 0 <= i < |days| ensures days[i].placeIds == shape.days[i].placeIds {
      RenewedDay(s, shape, dropped, touched, legs, forecasts, i);
    }
  }

  lemma RenewedFactsUnique(
    s: Snapshot, shape: Shape, dropped: seq<Id>, touched: set<nat>, legs: DayLegs, forecasts: Forecasts)
    requires WF(s) && GoodShape(s, shape, touched) && FreshSegments(s, legs)
    ensures UniqueFacts(Renewed(s, shape, dropped, touched, legs, forecasts))
  {
    var r := Renewed(s, shape, dropped, touched, legs, forecasts);
    var days := Cleared(shape.days, touched);
    RenewedSegmentsDistinct(s, days, dropped, touched, legs, ModeOf(shape.requirements));
    ClearedKeepsPlaces(shape.days, touched);
    RenewedWeatherDistinct(s, days, touched, forecasts);
    forall w | w in r.weather ensures w.place == w.ref.place {
      var onDays := PlacesOn(shape.days, touched);
      if w in KeptWeather(s, onDays) {
        FilterMember(s.weather, (w: Weather) => w.place !in onDays, w);
      } else {
        NewWeatherOrigin(days, touched, forecasts, w);
      }
    }
  }

  lemma ClearedKeepsPlaces(days: seq<Day>, touched: set<nat>)
    ensures PlacesOn(Cleared(days, touched), touched) == PlacesOn(days, touched)
    ensures Disjoint(days) ==> Disjoint(Cleared(days, touched))
  {
    var cleared := Cleared(days, touched);
    forall i | 0 <= i < |days| ensures cleared[i].placeIds == days[i].placeIds && cleared[i].number == days[i].number {}
    forall id ensures id in PlacesOn(cleared, touched) <==> id in PlacesOn(days, touched) {
      if id in PlacesOn(cleared, touched) {
        var day :| day in cleared && day.number in touched && id in day.placeIds;
        var i :| 0 <= i < |cleared| && cleared[i] == day;
        assert days[i] in days;
      }
      if id in PlacesOn(days, touched) {
        var day :| day in days && day.number in touched && id in day.placeIds;
        var i :| 0 <= i < |days| && days[i] == day;
        assert cleared[i] in cleared;
      }
    }
  }

  // ---- untouched days look the same -----------------------------------------------------------

  lemma UntouchedSegmentView(
    s: Snapshot, days: seq<Day>, dropped: seq<Id>, targets: seq<Id>,
    touched: set<nat>, legs: DayLegs, mode: string, i: nat)
    requires WF(s) && TargetTouched(s, targets, touched) && Drops(s, dropped, targets, touched)
    requires FreshSegments(s, legs)
    requires i < |s.days| && i + 1 !in touched
    ensures Filter(KeptSegments(s, dropped) + NewSegments(days, touched, legs, mode), ListedBy(s.days[i]))
         == Filter(s.segments, ListedBy(s.days[i]))
  {
    var day := s.days[i];
    var ids := day.segmentIds;
    var mine := ListedBy(day);
    var added := NewSegments(days, touched, legs, mode);
    FilterConcat(KeptSegments(s, dropped), added, mine);
    forall g | g in s.segments && mine(g) ensures g.id !in dropped {
      UntouchedSegmentSurvives(s, dropped, targets, touched, i, g);
    }
    FilterThrough(s.segments, (g: Segment) => g.id !in dropped, mine);
    forall g | g in added ensures !mine(g) {
      NewSegmentIssued(days, touched, legs, mode, g);
      assert DayGrounded(s, day);
      forall k | 0 <= k < |ids| ensures ids[k] != g.id {
        assert Joins(s.segments, ids[k], day.placeIds[k], day.placeIds[k + 1]);
      }
    }
    FilterNone(added, mine);
  }

  lemma UntouchedWeatherView(s: Snapshot, shape: Shape, touched: set<nat>, forecasts: Forecasts, i: nat)
    requires WF(s) && GoodShape(s, shape, touched)
    requires i < |s.days| && i + 1 !in touched
    ensures var days := Cleared(shape.days, touched);
      Filter(KeptWeather(s, PlacesOn(shape.days, touched)) + NewWeather(days, touched, forecasts),
             ReferredBy(s.days[i]))
      == Filter(s.weather, ReferredBy(s.days[i]))
  {
    var day := s.days[i];
    var onDays := PlacesOn(shape.days, touched);
    var mine := ReferredBy(day);
    var days := Cleared(shape.days, touched);
    var added := NewWeather(days, touched, forecasts);
    FilterConcat(KeptWeather(s, onDays), added, mine);
    forall w | w in s.weather && mine(w) ensures w.place !in onDays {
      UntouchedWeatherSurvives(s, shape, touched, i, w);
    }
    FilterThrough(s.weather, (w: Weather) => w.place !in onDays, mine);
    forall w | w in added ensures !mine(w) {
      NewFactIsElsewhere(s, shape, touched, forecasts, i, w);
    }
    FilterNone(added, mine);
  }

  lemma NewFactIsElsewhere(s: Snapshot, shape: Shape, touched: set<nat>, forecasts: Forecasts, i: nat, w: Weather)
    requires WF(s) && GoodShape(s, shape, touched)
    requires i < |s.days| && i + 1 !in touched
    requires var days := Cleared(shape.days, touched); w in NewWeather(days, touched, forecasts)
    ensures w.ref !in s.days[i].weatherRefs
  {
    var days := Cleared(shape.days, touched);
    NewWeatherOrigin(days, touched, forecasts, w);
    var j :| 0 <= j < |days| && days[j].number in touched && w.place in days[j].placeIds;
    var place := w.ref.place;
    assert place in shape.days[j].placeIds && shape.days[j].number == j + 1;
    assert SameAt(s.days, shape.days, i);
    assert place !in s.days[i].placeIds;
    RefsAreLocal(s, i, w.ref);
  }

  lemma RefsAreLocal(s: Snapshot, i: nat, ref: WeatherRef)
    requires WF(s) && i < |s.days|
    ensures ref in s.days[i].weatherRefs ==> ref.place in s.days[i].placeIds
  {
    assert DayGrounded(s, s.days[i]);
  }

  /** Looking a day up by number, when days are numbered 1..n. */
  lemma ViewAtNumbered(s: Snapshot, n: nat)
    requires Numbered(s.days)
    ensures ViewAt(s, n) == if 1 <= n <= |s.days| then Some(ViewOf(s, s.days[n - 1])) else None
  {
    LastDayOf(s.days, n);
  }

  lemma {:induction false} LastDayOf(days: seq<Day>, n: nat)
    requires Numbered(days)
    ensures LastDay(days, n) == if 1 <= n <= |days| then Some(days[n - 1]) else None
  {
    if days != [] {
      LastDayOf(days[..|days| - 1], n);
    }
  }

  /** Day `i` of `s` has the same segments and weather in `r`. */
  ghost predicate KeepsFacts(s: Snapshot, r: Snapshot, i: nat) {
    i < |s.days| ==> ViewOf(r, s.days[i]) == ViewOf(s, s.days[i])
  }

  lemma RenewedKeepsView(
    s: Snapshot, shape: Shape, dropped: seq<Id>, targets: seq<Id>,
    touched: set<nat>, legs: DayLegs, forecasts: Forecasts, i: nat)
    requires WF(s) && GoodShape(s, shape, touched) && FreshSegments(s, legs)
    requires TargetTouched(s, targets, touched) && Drops(s, dropped, targets, touched)
    requires i < |s.days| && i + 1 !in touched
    ensures KeepsFacts(s, Renewed(s, shape, dropped, touched, legs, forecasts), i)
  {
    UntouchedSegmentView(s, Cleared(shape.days, touched), dropped, targets,
                         touched, legs, ModeOf(shape.requirements), i);
    UntouchedWeatherView(s, shape, touched, forecasts, i);
  }

  lemma RenewedSize(
    s: Snapshot, shape: Shape, dropped: seq<Id>, touched: set<nat>, legs: DayLegs, forecasts: Forecasts)
    ensures |Renewed(s, shape, dropped, touched, legs, forecasts).days| == |shape.days|
  {
  }

  lemma RenewedNumbered(
    s: Snapshot, shape: Shape, dropped: seq<Id>, touched: set<nat>, legs: DayLegs, forecasts: Forecasts)
    requires Framed(s, shape, touched)
    ensures Numbered(Renewed(s, shape, dropped, touched, legs, forecasts).days)
  {
    var days := Renewed(s, shape, dropped, touched, legs, forecasts).days;
    forall i | 0 <= i < |days| ensures days[i].number == i + 1 {
      RenewedDay(s, shape, dropped, touched, legs, forecasts, i);
    }
  }

  lemma DayElsewhere(s: Snapshot, shape: Shape, touched: set<nat>, i: nat)
    requires Framed(s, shape, touched) && i + 1 !in touched
    ensures SameAt(s.days, shape.days, i)
  {
  }

  /** Day `n` exists in both snapshots or in neither, and is the same with the same facts. */
  ghost predicate ShowsSame(s: Snapshot, r: Snapshot, n: nat) {
    && (n <= |s.days| <==> n <= |r.days|)
    && (1 <= n <= |s.days| ==> r.days[n - 1] == s.days[n - 1] && KeepsFacts(s, r, n - 1))
  }

  lemma SameView(s: Snapshot, r: Snapshot, n: nat)
    requires Numbered(s.days) && Numbered(r.days) && ShowsSame(s, r, n)
    ensures ViewAt(s, n) == ViewAt(r, n)
  {
    ViewAtNumbered(s, n);
    ViewAtNumbered(r, n);
  }

  /** The frame: any day number outside `touched` shows the same day before and after. */
  lemma RenewedKeepsViews(
    s: Snapshot, shape: Shape, dropped: seq<Id>, targets: seq<Id>,
    touched: set<nat>, legs: DayLegs, forecasts: Forecasts, n: nat)
    requires WF(s) && GoodShape(s, shape, touched) && FreshSegments(s, legs)
    requires TargetTouched(s, targets, touched) && Drops(s, dropped, targets, touched)
    requires n !in touched
    ensures ViewAt(s, n) == ViewAt(Renewed(s, shape, dropped, touched, legs, forecasts), n)
  {
    RenewedNumbered(s, shape, dropped, touched, legs, forecasts);
    RenewedShowsSame(s, shape, dropped, targets, touched, legs, forecasts, n);
    SameView(s, Renewed(s, shape, dropped, touched, legs, forecasts), n);
  }

  lemma RenewedShowsSame(
    s: Snapshot, shape: Shape, dropped: seq<Id>, targets: seq<Id>,
    touched: set<nat>, legs: DayLegs, forecasts: Forecasts, n: nat)
    requires WF(s) && GoodShape(s, shape, touched) && FreshSegments(s, legs)
    requires TargetTouched(s, targets, touched) && Drops(s, dropped, targets, touched)
    requires n !in touched
    ensures ShowsSame(s, Renewed(s, shape, dropped, touched, legs, forecasts), n)
  {
    hide WF, FreshSegments, Renewed, Drops, TargetTouched;
    RenewedSameDay(s, shape, dropped, touched, legs, forecasts, n);
    if 1 <= n <= |s.days| {
      RenewedKeepsView(s, shape, dropped, targets, touched, legs, forecasts, n - 1);
    }
  }

  lemma RenewedSameDay(
    s: Snapshot, shape: Shape, dropped: seq<Id>, touched: set<nat>, legs: DayLegs, forecasts: Forecasts, n: nat)
    requires Framed(s, shape, touched) && n !in touched
    ensures var r := Renewed(s, shape, dropped, touched, legs, forecasts);
      && (n <= |s.days| <==> n <= |r.days|)
      && (1 <= n <= |s.days| ==> r.days[n - 1] == s.days[n - 1])
  {
    hide SameElsewhere, Numbered, Renewed;
    RenewedSize(s, shape, dropped, touched, legs, forecasts);
    if n >= 1 {
      DayElsewhere(s, shape, touched, n - 1);
      if n <= |s.days| {
        RenewedDay(s, shape, dropped, touched, legs, forecasts, n - 1);
      }
    }
  }
}
