/** Answers of the route and weather providers, as seen by the planner and by the edit recomputation. */
module Providers {
  import opened Wrappers
  import opened RequirementData
  import opened SnapshotData

  /** A successful answer of the route provider; no answer stands for a provider error. */
  datatype RouteFact = RouteFact(distance: nat, duration: nat, provider: string, status: FactStatus)

  /** What `uuid4` and the route provider answer for the successive legs of one day. */
  datatype LegOracle = LegOracle(segmentId: nat -> Id, route: nat -> Option<RouteFact>)

  /** The forecast found for a date, if the weather provider answered with one. */
  datatype ForecastFact = ForecastFact(status: FactStatus, payload: string)

  /** Forecasts by day position. */
  type Forecasts = nat -> Option<ForecastFact>

  /** The segment recorded for one leg: the provider's fact, or an unverified segment without figures. */
  function LegOf(oracle: LegOracle, k: nat, origin: Id, destination: Id, mode: string): Segment {
    match oracle.route(k)
    case Some(fact) =>
      Segment(oracle.segmentId(k), origin, destination, mode,
              Some(fact.distance), Some(fact.duration), Some(fact.provider), fact.status)
    case None =>
      Segment(oracle.segmentId(k), origin, destination, mode, None, None, None, Unverified)
  }

  /** The weather fact recorded for an anchor place on a date. */
  function FactOf(anchor: Id, date: int, forecast: Option<ForecastFact>): Weather {
    var ref := WeatherRef(anchor, date);
    match forecast
    case None => Weather(ref, anchor, Unavailable, None)
    case Some(f) => Weather(ref, anchor, f.status, Some(f.payload))
  }
}
