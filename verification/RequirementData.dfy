/** The travel requirements held in every snapshot: one annotated value per field. */
module RequirementData {
  import opened Wrappers

  /** UUIDs; their canonical text is ordered like the 128-bit number. */
  type Id = nat

  datatype Field =
    | TripScope | Origin | Destination | DatePrecision | TravelMonth | StartDate | Days | TransportMode
    | Companions | Themes | Intensity | CrowdTolerance | SuburbanAcceptance
    | MustVisitIds | OptionalIds | ExcludedIds | VisitedIds
    | MustVisitTexts | OptionalTexts | ExcludedTexts | VisitedTexts | Notes

  /** A field's value; dates are day numbers. */
  datatype Datum =
    | Text(text: string) | Number(number: int) | Date(date: int) | Flag(flag: bool)
    | Texts(texts: seq<string>) | Ids(ids: seq<Id>)

  datatype Source = Explicit | Inferred | Defaulted | Missing

  datatype Decision = Undecided | Suggested | Confirmed | Skipped | Conflicted

  datatype Value = Value(
    value: Option<Datum>, source: Source, confidence: real, confirmed: bool,
    decision: Decision, reason: Option<string>)

  const BLANK := Value(None, Missing, 0.0, false, Undecided, None)

  /** A requirement snapshot has an entry for every field. */
  type Requirements = m: map<Field, Value> | forall f: Field :: f in m witness NoRequirements()

  const ALL_FIELDS := {
    TripScope, Origin, Destination, DatePrecision, TravelMonth, StartDate, Days, TransportMode,
    Companions, Themes, Intensity, CrowdTolerance, SuburbanAcceptance,
    MustVisitIds, OptionalIds, ExcludedIds, VisitedIds,
    MustVisitTexts, OptionalTexts, ExcludedTexts, VisitedTexts, Notes}

  lemma EveryField()
    ensures forall f: Field :: f in ALL_FIELDS
  {
    forall f: Field ensures f in ALL_FIELDS {
      assert f.TripScope? || f in ALL_FIELDS;
    }
  }

  function NoRequirements(): (m: map<Field, Value>)
    ensures forall f: Field :: f in m && m[f] == BLANK
  {
    EveryField();
    map f: Field | f in ALL_FIELDS :: BLANK
  }

  /** The snapshot whose fields are given by `v`. */
  function Table(v: Field -> Value): (r: Requirements)
    ensures forall f: Field :: r[f] == v(f)
  {
    EveryField();
    map f: Field | f in ALL_FIELDS :: v(f)
  }

  /** Assignment to one field. */
  function With(r: Requirements, f: Field, v: Value): Requirements {
    r[f := v]
  }

  /** Assignments to the given fields, in order. */
  function WithAll(r: Requirements, v: Field -> Value, fields: seq<Field>): Requirements {
    if fields == [] then r
    else
      var last := fields[|fields| - 1];
      With(WithAll(r, v, fields[..|fields| - 1]), last, v(last))
  }

  lemma {:induction false} WithAllAt(r: Requirements, v: Field -> Value, fields: seq<Field>, f: Field)
    ensures WithAll(r, v, fields)[f] == if f in fields then v(f) else r[f]
  {
    if fields != [] {
      WithAllAt(r, v, fields[..|fields| - 1], f);
      assert fields == fields[..|fields| - 1] + [fields[|fields| - 1]];
    }
  }

  lemma SameTable(a: Requirements, b: Requirements)
    requires forall f: Field :: a[f] == b[f]
    ensures a == b
  {
    assert a.Keys == b.Keys;
  }

  function NumberOf(r: Requirements, f: Field): Option<int> {
    match r[f].value
    case Some(Number(n)) => Some(n)
    case _ => None
  }

  function DateOf(r: Requirements, f: Field): Option<int> {
    match r[f].value
    case Some(Date(d)) => Some(d)
    case _ => None
  }

  function TextOf(r: Requirements, f: Field): Option<string> {
    match r[f].value
    case Some(Text(t)) => Some(t)
    case _ => None
  }

  function FlagOf(r: Requirements, f: Field): Option<bool> {
    match r[f].value
    case Some(Flag(b)) => Some(b)
    case _ => None
  }

  /** `value or []` for a list of texts. */
  function TextsOf(r: Requirements, f: Field): seq<string> {
    match r[f].value
    case Some(Texts(ts)) => ts
    case _ => []
  }

  /** `value or []` for a list of ids. */
  function IdsOf(r: Requirements, f: Field): seq<Id> {
    match r[f].value
    case Some(Ids(ids)) => ids
    case _ => []
  }

  function IdSetOf(r: Requirements, f: Field): set<Id> {
    set id | id in IdsOf(r, f)
  }

  /** `transport_mode.value or "driving"`. */
  function ModeOf(r: Requirements): string {
    match TextOf(r, TransportMode)
    case Some(mode) => if mode == "" then "driving" else mode
    case None => "driving"
  }
}
