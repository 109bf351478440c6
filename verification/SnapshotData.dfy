/** Immutable itinerary snapshots and their well-formedness. */
module SnapshotData {
  import opened Wrappers
  import opened Sequences
  import opened RequirementData

  datatype FactStatus = Verified | Unverified | Stale | Unavailable | InConflict | Proposed

  datatype Place = Place(
    id: Id, provider: string, providerPlaceId: string, name: string, address: string, district: string,
    longitude: real, latitude: real, coordinateSystem: string, rawCategory: string, category: string,
    semanticType: string, status: FactStatus)

  datatype Segment = Segment(
    id: Id, origin: Id, destination: Id, mode: string,
    distance: Option<nat>, duration: Option<nat>, provider: Option<string>, status: FactStatus)

  /** The text `weather:<place id>:<date>`. */
  datatype WeatherRef = WeatherRef(place: Id, date: int)

  datatype Weather = Weather(ref: WeatherRef, place: Id, status: FactStatus, payload: Option<string>)

  datatype Day = Day(
    number: nat, date: Option<int>, placeIds: seq<Id>, segmentIds: seq<Id>,
    weatherRefs: seq<WeatherRef>, notes: seq<string>)

  datatype Enrichment = Enrichment(place: Id, guide: string)

  /** A weather warning for the surroundings of a place. */
  datatype Alert = Alert(place: Id, text: string)

  datatype Snapshot = Snapshot(
    requirements: Requirements, places: seq<Place>, days: seq<Day>, segments: seq<Segment>,
    weather: seq<Weather>, enrichments: seq<Enrichment>, warnings: seq<Alert>)

  /** `RouteBookSnapshotV1()`: the snapshot of a freshly created routebook. */
  const EMPTY_SNAPSHOT := Snapshot(NoRequirements(), [], [], [], [], [], [])

  const PLACE_KEY: Place -> Id := (p: Place) => p.id
  const SEGMENT_KEY: Segment -> Id := (s: Segment) => s.id
  const WEATHER_KEY: Weather -> WeatherRef := (w: Weather) => w.ref

  ghost predicate HasPlace(places: seq<Place>, id: Id) {
    exists p :: p in places && p.id == id
  }

  /** Segment `id` of `segments` leads from `origin` to `destination`. */
  ghost predicate Joins(segments: seq<Segment>, id: Id, origin: Id, destination: Id) {
    exists s :: s in segments && s.id == id && s.origin == origin && s.destination == destination
  }

  /** One segment per consecutive pair of places, in order. */
  ghost predicate Connected(segments: seq<Segment>, day: Day) {
    && |day.segmentIds| == (if day.placeIds == [] then 0 else |day.placeIds| - 1)
    && forall k :: 0 <= k < |day.segmentIds| ==>
         Joins(segments, day.segmentIds[k], day.placeIds[k], day.placeIds[k + 1])
  }

  /** Every weather reference of the day is a fact about one of its places. */
  ghost predicate Forecast(weather: seq<Weather>, day: Day) {
    forall ref :: ref in day.weatherRefs ==>
      exists w :: w in weather && w.ref == ref && w.place in day.placeIds
  }

  ghost predicate Numbered(days: seq<Day>) {
    forall i :: 0 <= i < |days| ==> days[i].number == i + 1
  }

  /** No place is visited twice, on one day or on two. */
  ghost predicate Disjoint(days: seq<Day>) {
    && (forall i :: 0 <= i < |days| ==> Distinct(days[i].placeIds))
    && forall i, j, x :: 0 <= i < |days| && 0 <= j < |days| && x in days[i].placeIds && x in days[j].placeIds ==> i == j
  }

  ghost predicate UniqueFacts(s: Snapshot) {
    && Distinct(Map(s.places, PLACE_KEY))
    && Distinct(Map(s.segments, SEGMENT_KEY))
    && Distinct(Map(s.weather, WEATHER_KEY))
    && forall w :: w in s.weather ==> w.place == w.ref.place
  }

  ghost predicate DayGrounded(s: Snapshot, day: Day) {
    && (forall id :: id in day.placeIds ==> HasPlace(s.places, id))
    && Connected(s.segments, day)
    && Forecast(s.weather, day)
  }

  /**
   * Well-formed itinerary: unique facts, days numbered 1..n that share no place, and each day's
   * places, segments and weather all backed by facts.  Facts no day refers to are allowed.
   */
  ghost predicate WF(s: Snapshot) {
    && UniqueFacts(s)
    && Numbered(s.days)
    && Disjoint(s.days)
    && forall i :: 0 <= i < |s.days| ==> DayGrounded(s, s.days[i])
  }
}
