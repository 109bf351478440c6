/** Inputs, capacities, drafts and conflicts of the itinerary planner. */
module PlannerData {
  import opened Wrappers
  import opened RequirementData
  import opened SnapshotData
  import opened Providers

  datatype Priority = MustVisit | Accepted | AutoAdopted

  datatype Candidate = Candidate(
    provider: string, providerPlaceId: string, name: string, address: string, city: string,
    district: string, longitude: real, latitude: real, rawCategory: string, category: string, semanticType: string,
    status: FactStatus)

  datatype PlanningPlace = PlanningPlace(id: Id, candidate: Candidate, priority: Priority, activityMinutes: nat)

  datatype Capacity = Capacity(
    maximumPlaces: nat, maximumActivity: nat, maximumTransport: nat, maximumSegment: nat)

  datatype PlannedDay = PlannedDay(
    number: nat, date: Option<int>, places: seq<PlanningPlace>, segments: seq<Segment>, capacity: Capacity,
    notes: seq<string>)

  datatype ConflictCode =
    | UnresolvedMustVisit | PlaceCountOutOfRange | InvalidPlaceFact | MustVisitMissing | ExcludedPlacePresent
    | CapacityExceeded | RouteLimitExceeded | CrossDistrictExcess | SuburbanMixed | CategoryRepetition
    | RepairExhausted

  datatype Conflict = Conflict(code: ConflictCode, day: Option<nat>, placeIds: seq<Id>, repairable: bool)

  datatype Draft = Draft(
    days: seq<PlannedDay>, weather: seq<Weather>, warnings: seq<Alert>, repairAttempts: nat, degraded: bool)

  /** What routing one day hears: its legs, and the note on the forecast for its date, if there is one. */
  datatype DayAnswers = DayAnswers(legs: LegOracle, notes: seq<string>)

  /** What the weather provider answers for one day: the forecast for its date, if any, and the warnings in force. */
  datatype Outlook = Outlook(forecast: Option<ForecastFact>, alerts: seq<string>)

  /** Outlooks by day position. */
  type Outlooks = nat -> Outlook

  datatype PlanningResult = PlanningResult(feasible: bool, draft: Option<Draft>, conflicts: seq<Conflict>)

  const PLANNING_ID: PlanningPlace -> Id := (p: PlanningPlace) => p.id

  predicate KnownIntensity(intensity: string) {
    intensity == "relaxed" || intensity == "moderate" || intensity == "compact"
  }

  function CapacityTemplate(intensity: string): (c: Capacity)
    requires KnownIntensity(intensity)
    ensures c.maximumPlaces >= 1
  {
    if intensity == "relaxed" then Capacity(2, 420, 120, 75)
    else if intensity == "moderate" then Capacity(3, 540, 180, 100)
    else Capacity(4, 660, 240, 120)
  }

  /** `intensity.value or "moderate"`. */
  function IntensityOf(r: Requirements): string {
    match TextOf(r, Intensity)
    case Some(text) => if text == "" then "moderate" else text
    case None => "moderate"
  }
}
