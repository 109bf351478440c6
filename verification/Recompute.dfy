/** `AffectedScopeRecomputer.recompute`: fresh segments and weather for the affected days only. */
module Recompute {
  import opened Wrappers
  import opened Sequences
  import opened RequirementData
  import opened SnapshotData
  import opened Providers
  import opened Editing

  /** Leg answers for the day at each position. */
  type DayLegs = nat -> LegOracle

  function LegsOf(ids: seq<Id>, oracle: LegOracle, mode: string): (r: seq<Segment>)
    ensures |r| == (if ids == [] then 0 else |ids| - 1)
    ensures forall k :: 0 <= k < |r| ==> r[k] == LegOf(oracle, k, ids[k], ids[k + 1], mode)
  {
    seq(if ids == [] then 0 else |ids| - 1,
        k requires 0 <= k < (if ids == [] then 0 else |ids| - 1) => LegOf(oracle, k, ids[k], ids[k + 1], mode))
  }

  predicate Anchored(day: Day) {
    day.placeIds != [] && day.date.Some?
  }

  function Rebuilt(day: Day, oracle: LegOracle, mode: string): Day {
    day.(segmentIds := Map(LegsOf(day.placeIds, oracle, mode), SEGMENT_KEY),
         weatherRefs := if Anchored(day) then [WeatherRef(day.placeIds[0], day.date.value)] else [])
  }

  function UpdatedDay(day: Day, touched: set<nat>, oracle: LegOracle, mode: string): Day {
    if day.number in touched then Rebuilt(day, oracle, mode) else day
  }

  function SegmentsFor(day: Day, touched: set<nat>, oracle: LegOracle, mode: string): seq<Segment> {
    if day.number in touched then LegsOf(day.placeIds, oracle, mode) else []
  }

  function WeatherFor(day: Day, touched: set<nat>, forecast: Option<ForecastFact>): seq<Weather> {
    if day.number in touched && Anchored(day) then [FactOf(day.placeIds[0], day.date.value, forecast)] else []
  }

  function UpdatedDays(days: seq<Day>, n: nat, touched: set<nat>, legs: DayLegs, mode: string): (r: seq<Day>)
    requires n <= |days|
    ensures |r| == n
    ensures forall i :: 0 <= i < n ==> r[i] == UpdatedDay(days[i], touched, legs(i), mode)
  {
    if n == 0 then []
    else UpdatedDays(days, n - 1, touched, legs, mode) + [UpdatedDay(days[n - 1], touched, legs(n - 1), mode)]
  }

  function SegmentPart(days: seq<Day>, touched: set<nat>, legs: DayLegs, mode: string): nat -> seq<Segment> {
    (i: nat) => if i < |days| then SegmentsFor(days[i], touched, legs(i), mode) else []
  }

  function WeatherPart(days: seq<Day>, touched: set<nat>, forecasts: Forecasts): nat -> seq<Weather> {
    (i: nat) => if i < |days| then WeatherFor(days[i], touched, forecasts(i)) else []
  }

  /** The new segments of the touched days, day by day. */
  function NewSegments(days: seq<Day>, touched: set<nat>, legs: DayLegs, mode: string): seq<Segment> {
    Accumulate(|days|, SegmentPart(days, touched, legs, mode))
  }

  function NewWeather(days: seq<Day>, touched: set<nat>, forecasts: Forecasts): seq<Weather> {
    Accumulate(|days|, WeatherPart(days, touched, forecasts))
  }

  /** The places whose coordinates the recomputation of a day looks up. */
  predicate LooksUp(day: Day, id: Id) {
    id in day.placeIds && (|day.placeIds| >= 2 || day.date.Some?)
  }

  predicate Locatable(s: Snapshot, day: Day) {
    forall id :: id in day.placeIds && LooksUp(day, id) ==> Knows(s.places, id)
  }

  predicate CanLocate(s: Snapshot, touched: set<nat>) {
    forall day :: day in s.days && day.number in touched ==> Locatable(s, day)
  }

  function WeatherOn(days: seq<Day>, touched: set<nat>): set<WeatherRef> {
    set day, ref | day in days && day.number in touched && ref in day.weatherRefs :: ref
  }

  /** The recomputed snapshot, when every place involved has a fact. */
  function Recomputed(s: Snapshot, touched: set<nat>, legs: DayLegs, forecasts: Forecasts): Snapshot {
    var mode := ModeOf(s.requirements);
    var oldSegments := SegmentsOn(s.days, touched);
    var oldWeather := WeatherOn(s.days, touched);
    s.(days := UpdatedDays(s.days, |s.days|, touched, legs, mode),
       segments := Filter(s.segments, (g: Segment) => g.id !in oldSegments)
                   + NewSegments(s.days, touched, legs, mode),
       weather := Filter(s.weather, (w: Weather) => w.ref !in oldWeather)
                  + NewWeather(s.days, touched, forecasts))
  }

  method RecomputeDays(s: Snapshot, touched: set<nat>, legs: DayLegs, forecasts: Forecasts)
    returns (r: Result<Snapshot, EditError>)
    ensures r == if CanLocate(s, touched) then Ok(Recomputed(s, touched, legs, forecasts)) else Err(UnknownPlace)
  {
    var oldSegments := SegmentsOn(s.days, touched);
    var oldWeather := WeatherOn(s.days, touched);
    var preservedSegments := Filter(s.segments, (g: Segment) => g.id !in oldSegments);
    var preservedWeather := Filter(s.weather, (w: Weather) => w.ref !in oldWeather);
    var located, updatedDays, newSegments, newWeather := RebuildDays(s, touched, legs, forecasts);
    if !located {
      return Err(UnknownPlace);
    }
    return Ok(s.(days := updatedDays, segments := preservedSegments + newSegments,
                 weather := preservedWeather + newWeather));
  }

  /** The loop over the days; it stops at the first day with a place that has no fact. */
  method RebuildDays(s: Snapshot, touched: set<nat>, legs: DayLegs, forecasts: Forecasts)
    returns (located: bool, updatedDays: seq<Day>, newSegments: seq<Segment>, newWeather: seq<Weather>)
    ensures located <==> CanLocate(s, touched)
    ensures located ==> updatedDays == UpdatedDays(s.days, |s.days|, touched, legs, ModeOf(s.requirements))
    ensures located ==> newSegments == NewSegments(s.days, touched, legs, ModeOf(s.requirements))
    ensures located ==> newWeather == NewWeather(s.days, touched, forecasts)
  {
    updatedDays, newSegments, newWeather := [], [], [];
    var mode := ModeOf(s.requirements);
    for i := 0 to |s.days|
      invariant LocatableUpTo(s, touched, i)
      invariant RebuiltUpTo(s, touched, legs, forecasts, mode, i, updatedDays, newSegments, newWeather)
    {
      var day := s.days[i];
      if day.number in touched && !Locatable(s, day) {
        NotLocatable(s, touched, i);
        return false, updatedDays, newSegments, newWeather;
      }
      var updated, segments, weather := RecomputeDay(day, touched, legs(i), forecasts(i), mode);
      RebuiltOneMore(s, touched, legs, forecasts, mode, i, updatedDays, newSegments, newWeather);
      updatedDays := updatedDays + [updated];
      newSegments := newSegments + segments;
      newWeather := newWeather + weather;
    }
    located := true;
    AllLocatable(s, touched);
  }

  /** What the loop has collected after `n` days. */
  ghost predicate RebuiltUpTo(
    s: Snapshot, touched: set<nat>, legs: DayLegs, forecasts: Forecasts, mode: string, n: nat,
    days: seq<Day>, segments: seq<Segment>, weather: seq<Weather>)
    requires n <= |s.days|
  {
    && days == UpdatedDays(s.days, n, touched, legs, mode)
    && segments == Accumulate(n, SegmentPart(s.days, touched, legs, mode))
    && weather == Accumulate(n, WeatherPart(s.days, touched, forecasts))
  }

  lemma RebuiltOneMore(
    s: Snapshot, touched: set<nat>, legs: DayLegs, forecasts: Forecasts, mode: string, i: nat,
    days: seq<Day>, segments: seq<Segment>, weather: seq<Weather>)
    requires i < |s.days| && RebuiltUpTo(s, touched, legs, forecasts, mode, i, days, segments, weather)
    ensures RebuiltUpTo(s, touched, legs, forecasts, mode, i + 1,
                        days + [UpdatedDay(s.days[i], touched, legs(i), mode)],
                        segments + SegmentsFor(s.days[i], touched, legs(i), mode),
                        weather + WeatherFor(s.days[i], touched, forecasts(i)))
  {
    assert SegmentPart(s.days, touched, legs, mode)(i) == SegmentsFor(s.days[i], touched, legs(i), mode);
    assert WeatherPart(s.days, touched, forecasts)(i) == WeatherFor(s.days[i], touched, forecasts(i));
  }

  ghost predicate LocatableUpTo(s: Snapshot, touched: set<nat>, n: nat)
    requires n <= |s.days|
  {
    forall j :: 0 <= j < n && s.days[j].number in touched ==> Locatable(s, s.days[j])
  }

  lemma NotLocatable(s: Snapshot, touched: set<nat>, i: nat)
    requires i < |s.days| && s.days[i].number in touched && !Locatable(s, s.days[i])
    ensures !CanLocate(s, touched)
  {
    assert s.days[i] in s.days;
  }

  lemma AllLocatable(s: Snapshot, touched: set<nat>)
    requires LocatableUpTo(s, touched, |s.days|)
    ensures CanLocate(s, touched)
  {
  }

  method RecomputeDay(day: Day, touched: set<nat>, oracle: LegOracle, forecast: Option<ForecastFact>, mode: string)
    returns (updated: Day, segments: seq<Segment>, weather: seq<Weather>)
    ensures updated == UpdatedDay(day, touched, oracle, mode)
    ensures segments == SegmentsFor(day, touched, oracle, mode)
    ensures weather == WeatherFor(day, touched, forecast)
  {
    if day.number !in touched {
      return day, [], [];
    }
    segments := BuildLegs(day.placeIds, oracle, mode);
    weather := [];
    var refs: seq<WeatherRef> := [];
    if Anchored(day) {
      var fact := FactOf(day.placeIds[0], day.date.value, forecast);
      weather := [fact];
      refs := [fact.ref];
    }
    updated := day.(segmentIds := Map(segments, SEGMENT_KEY), weatherRefs := refs);
  }

  method BuildLegs(ids: seq<Id>, oracle: LegOracle, mode: string) returns (segments: seq<Segment>)
    ensures segments == LegsOf(ids, oracle, mode)
  {
    segments := [];
    for k := 0 to if ids == [] then 0 else |ids| - 1
      invariant |segments| == k
      invariant forall j :: 0 <= j < k ==> segments[j] == LegOf(oracle, j, ids[j], ids[j + 1], mode)
    {
      segments := segments + [LegOf(oracle, k, ids[k], ids[k + 1], mode)];
    }
  }
}
