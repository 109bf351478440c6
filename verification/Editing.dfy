/** The edit planner: reference resolution, impact, preview and the guard on untouched days. */
module Editing {
  import opened Wrappers
  import opened Sequences
  import opened TextTools
  import opened RequirementData
  import opened SnapshotData
  import opened GreedyRoute

  datatype Operation = AddPlace | RemovePlace | ReplacePlace | EditDay | ChangeDays

  datatype Intent = Intent(
    operation: Operation, day: Option<string>, place: Option<string>,
    replacement: Option<Place>, targetDays: Option<nat>)

  /** The text is there and not empty. */
  predicate Given(text: Option<string>) {
    text.Some? && text.value != ""
  }

  /** The model validator of `EditIntent`, with its bounds on `target_days`. */
  predicate ValidIntent(intent: Intent) {
    && (intent.operation in {RemovePlace, ReplacePlace} ==> Given(intent.place))
    && (intent.operation in {AddPlace, ReplacePlace} ==> intent.replacement.Some?)
    && (intent.operation == EditDay ==> Given(intent.day))
    && (intent.operation == ChangeDays ==> intent.targetDays.Some?)
    && (intent.targetDays.Some? ==> 1 <= intent.targetDays.value <= 7)
  }

  datatype Resolution = Resolution(resolved: bool, days: seq<nat>, places: seq<Id>)

  const UNRESOLVED := Resolution(false, [], [])

  datatype Risk = RemoveMustVisit | MultiDayChange | ChangeTotalDays | MajorRouteChange

  datatype Impact = Impact(
    days: seq<nat>, places: seq<Id>, segments: seq<Id>, weatherChanged: bool, majorRoute: bool, confirm: bool)

  /** What the editor makes of an intent; the operation's fingerprint covers all of it. */
  datatype EditPlan = EditPlan(
    resolution: Resolution, impact: Impact, preview: Option<Snapshot>, risks: seq<Risk>, summary: string)

  datatype EditError = NoSuchDay | NoTargetPlace | UnknownPlace

  // ---- references -----------------------------------------------------------------------------

  function Digit(n: nat): char
    requires n < 10
  {
    "0123456789"[n]
  }

  /** Python's `str` of a natural number. */
  function Decimal(n: nat): string {
    if n < 10 then [Digit(n)] else Decimal(n / 10) + [Digit(n % 10)]
  }

  /** The text of an id, standing for the canonical text of the UUID. */
  function IdText(id: Id): string {
    Decimal(id)
  }

  predicate Mentions(reference: string, place: Place) {
    Contains(place.name, reference) || IdText(place.id) == reference
  }

  const DAY_NUMBER_OF: Day -> nat := (day: Day) => day.number

  function NumbersOf(days: seq<Day>): seq<nat> {
    Map(days, DAY_NUMBER_OF)
  }

  function DaysWith(days: seq<Day>, id: Id): seq<nat> {
    NumbersOf(Filter(days, (day: Day) => id in day.placeIds))
  }

  /** The Chinese numerals of `CHINESE_DAY_NUMBERS`, in order. */
  const NUMERALS := "\U{4E00}\U{4E8C}\U{4E09}\U{56DB}\U{4E94}\U{516D}\U{4E03}"

  const DAY_MARK := '\U{5929}'

  /** Texts that mean some day without naming it: this date, this one day, that very day. */
  const UNNAMED_DAYS := {"\U{8FD9}\U{4E2A}\U{65E5}\U{671F}", "\U{8FD9}\U{4E00}\U{5929}", "\U{5F53}\U{5929}"}

  /** The day number a digit from 1 to 7 or a Chinese numeral stands for. */
  function DayDigit(c: char): Option<nat> {
    if '1' <= c <= '7' then Some(c as int - '0' as int)
    else Position(NUMERALS, c)
  }

  /** One more than the first index of `c`. */
  function Position(s: string, c: char): Option<nat> {
    if s == "" then None
    else if s[0] == c then Some(1)
    else
      match Position(s[1..], c)
      case Some(n) => Some(n + 1)
      case None => None
  }

  /** The first digit that is followed by the word for day, as the regular expression of `_parse_day` finds it. */
  function FindDayNumber(text: string): Option<nat> {
    if |text| < 2 then None
    else if DayDigit(text[0]).Some? && text[1] == DAY_MARK then DayDigit(text[0])
    else FindDayNumber(text[1..])
  }

  /** `_parse_day`. */
  function ParseDay(text: string): Option<nat> {
    if Strip(text) in UNNAMED_DAYS then None else FindDayNumber(Strip(text))
  }

  /**
   * The days a day reference names: none without one, and nothing for a text that is not understood or names no day.
   */
  function NamedDays(s: Snapshot, day: Option<string>): Option<seq<nat>> {
    if !Given(day) then Some([])
    else
      match ParseDay(day.value)
      case None => None
      case Some(n) => if n in NumbersOf(s.days) then Some([n]) else None
  }

  /** `resolve_references`, without the wording of clarifications. */
  function Resolve(s: Snapshot, intent: Intent): Resolution {
    match NamedDays(s, intent.day)
    case None => UNRESOLVED
    case Some(days) =>
      var everyDay := NumbersOf(s.days);
      if !Given(intent.place) then
        Resolution(true, if intent.operation == ChangeDays then everyDay else days, [])
      else
        var reference := Strip(intent.place.value);
        var matches := Filter(s.places, (p: Place) => Mentions(reference, p));
        if |matches| != 1 then UNRESOLVED
        else
          var target := matches[0].id;
          var matched := DaysWith(s.days, target);
          if days != [] && matched != [] && days[0] !in matched then UNRESOLVED
          else
            Resolution(true,
              if intent.operation == ChangeDays then everyDay else if days != [] then days else matched, [target])
  }

  // ---- impact ---------------------------------------------------------------------------------

  function Count(n: nat): (r: seq<nat>)
    ensures forall x :: x in r <==> 1 <= x <= n
  {
    if n == 0 then [] else Count(n - 1) + [n]
  }

  function AffectedList(s: Snapshot, intent: Intent, res: Resolution): seq<nat> {
    if intent.operation == ChangeDays && intent.targetDays.Some? && intent.targetDays.value != 0 then
      Count(if |s.days| >= intent.targetDays.value then |s.days| else intent.targetDays.value)
    else if intent.operation == AddPlace && res.days == [] then
      if s.days != [] then [s.days[|s.days| - 1].number] else [1]
    else res.days
  }

  function Touched(days: seq<nat>): set<nat> {
    set n | n in days
  }

  function SegmentsOn(days: seq<Day>, touched: set<nat>): set<Id> {
    set day, id | day in days && day.number in touched && id in day.segmentIds :: id
  }

  function Risks(s: Snapshot, intent: Intent, res: Resolution, affected: seq<nat>): seq<Risk> {
    var musts := IdsOf(s.requirements, MustVisitIds);
    (if intent.operation in {RemovePlace, ReplacePlace} && exists id :: id in res.places && id in musts
     then [RemoveMustVisit] else [])
    + (if |affected| > 1 then [MultiDayChange] else [])
    + (if intent.operation == ChangeDays then [ChangeTotalDays] else [])
    + (if intent.operation == ChangeDays || |affected| > 1 then [MajorRouteChange] else [])
  }

  /** The risks of an edit, in the order in which `calculate_impact` collects them. */
  function RisksOf(s: Snapshot, intent: Intent, res: Resolution): seq<Risk> {
    Risks(s, intent, res, AffectedList(s, intent, res))
  }

  function OperationText(operation: Operation): string {
    match operation
    case AddPlace => "add_place"
    case RemovePlace => "remove_place"
    case ReplacePlace => "replace_place"
    case EditDay => "edit_day"
    case ChangeDays => "change_days"
  }

  /** What an edit is about, in the user's words: the place, else the day, else the number of days. */
  function TargetText(intent: Intent): string {
    if Given(intent.place) then intent.place.value
    else if Given(intent.day) then intent.day.value
    else if intent.targetDays.Some? && intent.targetDays.value != 0 then Decimal(intent.targetDays.value)
    else ""
  }

  /** `_summary`. */
  function Summary(intent: Intent): string {
    Strip(OperationText(intent.operation) + ": " + TargetText(intent))
  }

  function Dedupe(ids: seq<Id>): seq<Id> {
    if ids == [] then []
    else
      var rest := Dedupe(ids[..|ids| - 1]);
      if ids[|ids| - 1] in rest then rest else rest + [ids[|ids| - 1]]
  }

  /** `calculate_impact`. */
  function ImpactOf(s: Snapshot, intent: Intent, res: Resolution): Impact {
    var affected := AffectedList(s, intent, res);
    var onDays := SegmentsOn(s.days, Touched(affected));
    var hit := (g: Segment) => g.id in onDays || g.origin in res.places || g.destination in res.places;
    Impact(
      SortedIds(Touched(affected)),
      Dedupe(res.places + (if intent.replacement.Some? then [intent.replacement.value.id] else [])),
      Map(Filter(s.segments, hit), SEGMENT_KEY),
      intent.operation != EditDay,
      intent.operation == ChangeDays || |affected| > 1,
      Risks(s, intent, res, affected) != [])
  }

  // ---- preview --------------------------------------------------------------------------------

  /** Assignment to the insertion-ordered dictionary of places. */
  function PutPlace(places: seq<Place>, p: Place): seq<Place> {
    if places == [] then [p]
    else if places[0].id == p.id then [p] + places[1..]
    else [places[0]] + PutPlace(places[1..], p)
  }

  function PlaceTable(places: seq<Place>): seq<Place> {
    if places == [] then [] else PutPlace(PlaceTable(places[..|places| - 1]), places[|places| - 1])
  }

  function DropPlace(places: seq<Place>, id: Id): seq<Place> {
    Filter(places, (p: Place) => p.id != id)
  }

  /** `_day`: position of the first day with the given number. */
  function FindDay(days: seq<Day>, number: nat): (r: Option<nat>)
    ensures r.Some? ==> r.value < |days| && days[r.value].number == number
    ensures r.Some? ==> forall i :: 0 <= i < r.value ==> days[i].number != number
    ensures r.None? ==> forall i :: 0 <= i < |days| ==> days[i].number != number
  {
    if days == [] then None
    else if days[0].number == number then Some(0)
    else
      match FindDay(days[1..], number)
      case Some(i) => Some(i + 1)
      case None => None
  }

  function AppendPlace(days: seq<Day>, number: nat, id: Id): Result<seq<Day>, EditError> {
    match FindDay(days, number)
    case None => Err(NoSuchDay)
    case Some(i) => Ok(days[i := days[i].(placeIds := days[i].placeIds + [id])])
  }

  function Without(ids: seq<Id>, id: Id): seq<Id> {
    Filter(ids, (x: Id) => x != id)
  }

  function DropFromDays(days: seq<Day>, id: Id): (r: seq<Day>)
    ensures |r| == |days|
  {
    Map(days, (day: Day) => day.(placeIds := Without(day.placeIds, id)))
  }

  function Knows(places: seq<Place>, id: Id): bool {
    exists p :: p in places && p.id == id
  }

  function PlaceOf(places: seq<Place>, id: Id): (p: Place)
    requires Knows(places, id)
    ensures p in places && p.id == id
  {
    if places[0].id == id then places[0] else
      assert places == [places[0]] + places[1..];
      PlaceOf(places[1..], id)
  }

  function Coordinates(places: seq<Place>, id: Id): (real, real) {
    if Knows(places, id) then (PlaceOf(places, id).longitude, PlaceOf(places, id).latitude) else (0.0, 0.0)
  }

  function SquaredDistance(a: (real, real), b: (real, real)): real {
    (a.0 - b.0) * (a.0 - b.0) + (a.1 - b.1) * (a.1 - b.1)
  }

  /** The key (distance key to `o`, id) of `a` is below that of `b`. */
  function CloserBy(key: (Id, Id) -> real): (Id, Id, Id) -> bool {
    (o: Id, a: Id, b: Id) => key(o, a) < key(o, b) || (key(o, a) == key(o, b) && a < b)
  }

  function CoordinateKey(places: seq<Place>): (Id, Id) -> real {
    (o: Id, a: Id) => SquaredDistance(Coordinates(places, a), Coordinates(places, o))
  }

  /** Nearest by squared coordinate distance, ties to the smaller id. */
  function CloserById(places: seq<Place>): (Id, Id, Id) -> bool {
    CloserBy(CoordinateKey(places))
  }

  lemma CloserRanks(key: (Id, Id) -> real)
    ensures Ranking(CloserBy(key)) && Tieless(CloserBy(key))
  {
  }

  /** `_nearest_place_order`; looking up a place without a fact fails. */
  function NearestOrder(ids: seq<Id>, places: seq<Place>): Result<seq<Id>, EditError> {
    if |ids| < 3 then Ok(ids)
    else if exists id :: id in ids && !Knows(places, id) then Err(UnknownPlace)
    else Ok(Greedy(CloserById(places), ids))
  }

  function NewDay(number: nat): Day {
    Day(number, None, [], [], [], [])
  }

  /** Truncates to `n` days, then appends empty days up to `n`. */
  function Resize(days: seq<Day>, n: nat): (r: seq<Day>)
    ensures |r| == n
  {
    var kept := if |days| > n then days[..n] else days;
    Grow(kept, n)
  }

  function Grow(days: seq<Day>, n: nat): (r: seq<Day>)
    requires |days| <= n
    ensures |r| == n
    decreases n - |days|
  {
    if |days| == n then days else Grow(days + [NewDay(|days| + 1)], n)
  }

  function WithDayCount(r: Requirements, n: nat): Requirements {
    r[Days := r[Days].(value := Some(Number(n)))]
  }

  /** Places, days and requirements after the operation proper, before facts are invalidated. */
  datatype Shape = Shape(places: seq<Place>, days: seq<Day>, requirements: Requirements)

  function TargetDay(impact: Impact): nat {
    if impact.days != [] then impact.days[0] else 1
  }

  function Added(s: Snapshot, places: seq<Place>, days: seq<Day>, p: Place, number: nat): Result<Shape, EditError> {
    match AppendPlace(days, number, p.id)
    case Err(e) => Err(e)
    case Ok(days') => Ok(Shape(PutPlace(places, p), days', s.requirements))
  }

  function Reordered(s: Snapshot, places: seq<Place>, number: nat): Result<Shape, EditError> {
    match FindDay(s.days, number)
    case None => Err(NoSuchDay)
    case Some(i) =>
      match NearestOrder(s.days[i].placeIds, places)
      case Err(e) => Err(e)
      case Ok(order) =>
        Ok(Shape(places, s.days[i := s.days[i].(placeIds := order, segmentIds := [], weatherRefs := [])],
                 s.requirements))
  }

  function Reshape(s: Snapshot, intent: Intent, res: Resolution, number: nat): Result<Shape, EditError> {
    var places := PlaceTable(s.places);
    match intent.operation
    case AddPlace =>
      if intent.replacement.None? then Ok(Shape(places, s.days, s.requirements))
      else Added(s, places, s.days, intent.replacement.value, number)
    case RemovePlace =>
      if res.places == [] then Err(NoTargetPlace)
      else Ok(Shape(DropPlace(places, res.places[0]), DropFromDays(s.days, res.places[0]), s.requirements))
    case ReplacePlace =>
      if res.places == [] then Err(NoTargetPlace)
      else
        var target := res.places[0];
        if intent.replacement.None? then
          Ok(Shape(DropPlace(places, target), DropFromDays(s.days, target), s.requirements))
        else Added(s, DropPlace(places, target), DropFromDays(s.days, target), intent.replacement.value, number)
    case EditDay => Reordered(s, places, number)
    case ChangeDays =>
      if intent.targetDays.None? || intent.targetDays.value == 0 then Ok(Shape(places, s.days, s.requirements))
      else Ok(Shape(places, Resize(s.days, intent.targetDays.value),
                    WithDayCount(s.requirements, intent.targetDays.value)))
  }

  function PlacesOn(days: seq<Day>, touched: set<nat>): set<Id> {
    set day, id | day in days && day.number in touched && id in day.placeIds :: id
  }

  function Cleared(days: seq<Day>, touched: set<nat>): (r: seq<Day>)
    ensures |r| == |days|
  {
    Map(days, (day: Day) => if day.number in touched then day.(segmentIds := [], weatherRefs := []) else day)
  }

  /** Drops the affected segments, the weather of places on affected days, and those days' references. */
  function Invalidated(s: Snapshot, shape: Shape, impact: Impact): Snapshot {
    var touched := Touched(impact.days);
    var onDays := PlacesOn(shape.days, touched);
    s.(requirements := shape.requirements,
       places := shape.places,
       days := Cleared(shape.days, touched),
       segments := Filter(s.segments, (g: Segment) => g.id !in impact.segments),
       weather := Filter(s.weather, (w: Weather) => w.place !in onDays))
  }

  /** `build_preview` as a function. */
  function Preview(s: Snapshot, intent: Intent, res: Resolution, impact: Impact): Result<Snapshot, EditError> {
    match Reshape(s, intent, res, TargetDay(impact))
    case Err(e) => Err(e)
    case Ok(shape) => Ok(Invalidated(s, shape, impact))
  }

  // ---- the imperative preview -----------------------------------------------------------------

  method NearestPlaceOrder(ids: seq<Id>, places: seq<Place>) returns (r: Result<seq<Id>, EditError>)
    ensures r == NearestOrder(ids, places)
  {
    if |ids| < 3 {
      return Ok(ids);
    }
    if exists id :: id in ids && !Knows(places, id) {
      return Err(UnknownPlace);
    }
    CloserRanks(CoordinateKey(places));
    var ordered := NearestNext(CloserById(places), ids);
    return Ok(ordered);
  }

  method BuildPreview(s: Snapshot, intent: Intent, res: Resolution, impact: Impact)
    returns (r: Result<Snapshot, EditError>)
    ensures r == Preview(s, intent, res, impact)
  {
    var places: seq<Place> := [];
    for i := 0 to |s.places|
      invariant places == PlaceTable(s.places[..i])
    {
      assert s.places[..i + 1][..i] == s.places[..i];
      places := PutPlace(places, s.places[i]);
    }
    assert s.places[..|s.places|] == s.places;
    var days := s.days;
    var requirements := s.requirements;
    var number := if impact.days != [] then impact.days[0] else 1;
    if intent.operation == AddPlace && intent.replacement.Some? {
      places := PutPlace(places, intent.replacement.value);
      var changed := AppendPlace(days, number, intent.replacement.value.id);
      if changed.Err? {
        return Err(changed.error);
      }
      days := changed.value;
    } else if intent.operation == RemovePlace || intent.operation == ReplacePlace {
      if res.places == [] {
        return Err(NoTargetPlace);
      }
      var target := res.places[0];
      days := DropFromAllDays(days, target);
      places := DropPlace(places, target);
      if intent.operation == ReplacePlace && intent.replacement.Some? {
        places := PutPlace(places, intent.replacement.value);
        var changed := AppendPlace(days, number, intent.replacement.value.id);
        if changed.Err? {
          return Err(changed.error);
        }
        days := changed.value;
      }
    } else if intent.operation == EditDay {
      var found := FindDay(days, number);
      if found.None? {
        return Err(NoSuchDay);
      }
      var order := NearestPlaceOrder(days[found.value].placeIds, places);
      if order.Err? {
        return Err(order.error);
      }
      days := days[found.value :=
        days[found.value].(placeIds := order.value, segmentIds := [], weatherRefs := [])];
    } else if intent.operation == ChangeDays && intent.targetDays.Some? && intent.targetDays.value != 0 {
      days := ResizeDays(days, intent.targetDays.value);
      requirements := WithDayCount(requirements, intent.targetDays.value);
    }
    return Ok(Invalidated(s, Shape(places, days, requirements), impact));
  }

  method ResizeDays(days: seq<Day>, n: nat) returns (r: seq<Day>)
    ensures r == Resize(days, n)
  {
    r := if |days| > n then days[..n] else days;
    while |r| < n
      invariant |r| <= n
      invariant Grow(r, n) == Resize(days, n)
      decreases n - |r|
    {
      r := r + [NewDay(|r| + 1)];
    }
  }

  method DropFromAllDays(days: seq<Day>, id: Id) returns (r: seq<Day>)
    ensures r == DropFromDays(days, id)
  {
    r := [];
    for i := 0 to |days|
      invariant |r| == i
      invariant forall j :: 0 <= j < i ==> r[j] == days[j].(placeIds := Without(days[j].placeIds, id))
    {
      r := r + [days[i].(placeIds := Without(days[i].placeIds, id))];
    }
  }

  // ---- the guard ------------------------------------------------------------------------------

  /** Everything `day_hash` covers: the day, and its segments and weather in snapshot order. */
  datatype DayView = DayView(day: Day, segments: seq<Segment>, weather: seq<Weather>)

  function ListedBy(day: Day): Segment -> bool {
    (g: Segment) => g.id in day.segmentIds
  }

  function ReferredBy(day: Day): Weather -> bool {
    (w: Weather) => w.ref in day.weatherRefs
  }

  function ViewOf(s: Snapshot, day: Day): DayView {
    DayView(day, Filter(s.segments, ListedBy(day)), Filter(s.weather, ReferredBy(day)))
  }

  /** The day a dictionary keyed by day number holds: the last one with that number. */
  function LastDay(days: seq<Day>, number: nat): Option<Day> {
    if days == [] then None
    else if days[|days| - 1].number == number then Some(days[|days| - 1])
    else LastDay(days[..|days| - 1], number)
  }

  function ViewAt(s: Snapshot, number: nat): Option<DayView> {
    match LastDay(s.days, number)
    case None => None
    case Some(day) => Some(ViewOf(s, day))
  }

  /** `validate_unchanged_days`. */
  predicate DaysUnchanged(base: Snapshot, preview: Snapshot, affected: seq<nat>) {
    forall n :: n in NumbersOf(base.days) + NumbersOf(preview.days) && n !in affected ==>
      ViewAt(base, n) == ViewAt(preview, n)
  }
}
