/** `RequirementService.apply`: merging a patch into the requirement snapshot, and what then blocks planning. */
module RequirementMerge {
  import opened Wrappers
  import opened Sequences
  import opened TextTools
  import opened RequirementData

  datatype ListOperation = Replace | Append | Remove

  datatype PatchValue = PatchValue(value: Datum, source: Source, confidence: real, operation: ListOperation)

  datatype Ambiguity = Ambiguity(field: Field, candidates: seq<string>)

  datatype Patch = Patch(values: map<Field, PatchValue>, ambiguities: seq<Ambiguity>)

  const EMPTY_PATCH := Patch(map[], [])

  /** The fields a patch may set, in the order in which they are merged. */
  const PATCH_FIELDS: seq<Field> := [
    TripScope, Origin, Destination, DatePrecision, TravelMonth, StartDate, Days, TransportMode,
    Companions, Themes, Intensity, CrowdTolerance, SuburbanAcceptance,
    MustVisitTexts, OptionalTexts, ExcludedTexts, VisitedTexts, Notes]

  predicate IsPlaceText(f: Field) {
    f.MustVisitTexts? || f.OptionalTexts? || f.ExcludedTexts? || f.VisitedTexts?
  }

  predicate IsList(f: Field) {
    IsPlaceText(f) || f.Companions? || f.Themes? || f.Notes?
  }

  /** The type of a field's values. */
  predicate Fits(f: Field, d: Datum) {
    if IsList(f) then d.Texts?
    else if f in {MustVisitIds, OptionalIds, ExcludedIds, VisitedIds} then d.Ids?
    else if f in {TravelMonth, Days} then d.Number?
    else if f == StartDate then d.Date?
    else if f == SuburbanAcceptance then d.Flag?
    else d.Text?
  }

  /** `derive_decision_status`, run whenever a value is validated. */
  function Settled(v: Value): Value {
    if v.decision == Undecided && v.value.Some? then v.(decision := if v.confirmed then Confirmed else Suggested) else v
  }

  /** What validation guarantees of one value. */
  ghost predicate TypedValue(f: Field, v: Value) {
    Settled(v) == v && (v.value.Some? ==> Fits(f, v.value.value))
  }

  /** What validation guarantees of a snapshot. */
  ghost predicate Typed(r: Requirements) {
    forall f: Field {:trigger TypedValue(f, r[f])} :: TypedValue(f, r[f])
  }

  /** What validation guarantees of a patch. */
  ghost predicate ValidPatch(p: Patch) {
    && (forall f :: f in p.values ==>
          f in PATCH_FIELDS && Fits(f, p.values[f].value) && p.values[f].source in {Explicit, Inferred})
    && (forall a :: a in p.ambiguities ==> a.field in PATCH_FIELDS)
  }

  // ---- list values ----------------------------------------------------------------------------

  /** Cleaned texts without blanks, each kept where it first occurs. */
  function Normalized(texts: seq<string>): seq<string> {
    if texts == [] then []
    else
      var front := Normalized(texts[..|texts| - 1]);
      var cleaned := Clean(texts[|texts| - 1]);
      if cleaned != "" && cleaned !in front then front + [cleaned] else front
  }

  method NormalizeList(texts: seq<string>) returns (normalized: seq<string>)
    ensures normalized == Normalized(texts)
  {
    normalized := [];
    var seen: set<string> := {};
    for i := 0 to |texts|
      invariant normalized == Normalized(texts[..i])
      invariant forall t :: t in seen <==> t in normalized
    {
      assert texts[..i + 1][..i] == texts[..i];
      var cleaned := Clean(texts[i]);
      if cleaned != "" && cleaned !in seen {
        normalized := normalized + [cleaned];
        seen := seen + {cleaned};
      }
    }
    assert texts[..|texts|] == texts;
  }

  /** Duplicate-free, with no blank and no untidy entry. */
  ghost predicate TidyList(texts: seq<string>) {
    Distinct(texts) && forall t :: t in texts ==> t != "" && Clean(t) == t
  }

  ghost predicate CleanedFrom(texts: seq<string>, t: string) {
    t != "" && exists i :: 0 <= i < |texts| && Clean(texts[i]) == t
  }

  lemma {:induction false} NormalizedMember(texts: seq<string>, t: string)
    ensures t in Normalized(texts) <==> CleanedFrom(texts, t)
  {
    if texts != [] {
      var last := |texts| - 1;
      NormalizedMember(texts[..last], t);
      if CleanedFrom(texts[..last], t) {
        var i :| 0 <= i < last && Clean(texts[..last][i]) == t;
        assert Clean(texts[i]) == t;
      }
      if CleanedFrom(texts, t) {
        var i :| 0 <= i < |texts| && Clean(texts[i]) == t;
        assert i < last ==> Clean(texts[..last][i]) == t;
      }
    }
  }

  /** Normalizing keeps exactly the non-blank cleaned texts, once each. */
  lemma {:induction false} NormalizedIsTidy(texts: seq<string>)
    ensures TidyList(Normalized(texts))
    ensures forall t :: t in Normalized(texts) <==> CleanedFrom(texts, t)
  {
    if texts != [] {
      NormalizedIsTidy(texts[..|texts| - 1]);
      CleanIsIdempotent(texts[|texts| - 1]);
    }
    forall t ensures t in Normalized(texts) <==> CleanedFrom(texts, t) {
      NormalizedMember(texts, t);
    }
  }

  lemma {:induction false} TidyIsNormalized(texts: seq<string>)
    requires TidyList(texts)
    ensures Normalized(texts) == texts
  {
    if texts != [] {
      var last := |texts| - 1;
      assert forall t :: t in texts[..last] ==> t in texts;
      TidyIsNormalized(texts[..last]);
      assert texts[last] in texts;
      assert texts == texts[..last] + [texts[last]];
    }
  }

  /** `_apply_list_operation`. */
  function Combined(existing: seq<string>, incoming: seq<string>, operation: ListOperation): seq<string> {
    match operation
    case Replace => incoming
    case Remove => Filter(existing, (t: string) => t !in incoming)
    case Append => existing + Filter(incoming, (t: string) => t !in existing)
  }

  ghost predicate CombinesTo(existing: seq<string>, incoming: seq<string>, operation: ListOperation, t: string) {
    match operation
    case Replace => t in incoming
    case Remove => t in existing && t !in incoming
    case Append => t in existing || t in incoming
  }

  /** The list operations act as set operations. */
  lemma CombinedMembers(existing: seq<string>, incoming: seq<string>, operation: ListOperation, t: string)
    ensures t in Combined(existing, incoming, operation) <==> CombinesTo(existing, incoming, operation, t)
    ensures operation == Append ==> existing <= Combined(existing, incoming, operation)
  {
    match operation {
      case Replace =>
      case Remove => FilterMember(existing, (t: string) => t !in incoming, t);
      case Append =>
        FilterMember(incoming, (t: string) => t !in existing, t);
        InConcat(existing, Filter(incoming, (t: string) => t !in existing), t);
    }
  }

  /** The list operations keep lists tidy. */
  lemma CombinedIsTidy(existing: seq<string>, incoming: seq<string>, operation: ListOperation)
    requires TidyList(existing) && TidyList(incoming)
    ensures TidyList(Combined(existing, incoming, operation))
  {
    forall t | t in Combined(existing, incoming, operation) ensures t != "" && Clean(t) == t {
      CombinedMembers(existing, incoming, operation, t);
    }
    match operation {
      case Replace =>
      case Remove => FilterDistinct(existing, (t: string) => t !in incoming);
      case Append =>
        FilterMembers(incoming, (t: string) => t !in existing);
        FilterDistinct(incoming, (t: string) => t !in existing);
        DistinctConcat(existing, Filter(incoming, (t: string) => t !in existing));
    }
  }

  // ---- merging --------------------------------------------------------------------------------

  datatype ConflictReason = AmbiguousInput | InferredOverConfirmed | InferredPlace

  datatype MergeConflict = MergeConflict(
    field: Field, current: Option<Datum>, proposed: Datum, reason: ConflictReason)

  function NormalizedDatum(d: Datum): Datum {
    match d
    case Texts(texts) => Texts(Normalized(texts))
    case Text(text) => Text(Clean(text))
    case _ => d
  }

  function ExistingTexts(v: Value): seq<string> {
    match v.value
    case Some(Texts(texts)) => texts
    case _ => []
  }

  /** Why an incoming value is refused, if it is. */
  function Refusal(f: Field, current: Value, p: PatchValue): Option<ConflictReason> {
    if IsPlaceText(f) && p.source == Inferred then Some(InferredPlace)
    else if p.source == Inferred && (current.confirmed || current.source == Explicit) then Some(InferredOverConfirmed)
    else None
  }

  function Merged(f: Field, current: Value, p: PatchValue): Value {
    var value := NormalizedDatum(p.value);
    var combined := if IsList(f) && value.Texts?
                    then Texts(Combined(ExistingTexts(current), value.texts, p.operation))
                    else value;
    Value(Some(combined), p.source, p.confidence, p.source == Explicit,
          if p.source == Explicit then Confirmed else Suggested, None)
  }

  function PatchedValue(f: Field, current: Value, patch: Patch): Value {
    if f in patch.values && Refusal(f, current, patch.values[f]).None?
    then Merged(f, current, patch.values[f])
    else current
  }

  function RefusalsIn(current: Requirements, patch: Patch, fields: seq<Field>): seq<MergeConflict> {
    if fields == [] then []
    else
      var f := fields[|fields| - 1];
      RefusalsIn(current, patch, fields[..|fields| - 1])
      + (if f in patch.values && Refusal(f, current[f], patch.values[f]).Some?
         then [MergeConflict(f, current[f].value, patch.values[f].value, Refusal(f, current[f], patch.values[f]).value)]
         else [])
  }

  predicate Marks(ambiguities: seq<Ambiguity>, f: Field) {
    exists a :: a in ambiguities && a.field == f
  }

  function MarkedBy(ambiguities: seq<Ambiguity>, f: Field, v: Value): Value {
    if Marks(ambiguities, f) then v.(decision := Conflicted) else v
  }

  /** The fields with a default, in the order in which they are filled. */
  const DEFAULT_ORDER: seq<Field> := [
    Companions, Themes, Intensity, CrowdTolerance, SuburbanAcceptance,
    MustVisitTexts, OptionalTexts, ExcludedTexts, VisitedTexts, Notes]

  predicate HasDefault(f: Field) {
    match f
    case Companions | Themes | Intensity | CrowdTolerance | SuburbanAcceptance => true
    case MustVisitTexts | OptionalTexts | ExcludedTexts | VisitedTexts | Notes => true
    case _ => false
  }

  function DefaultOf(f: Field): Value {
    var value := match f
      case Intensity => Text("moderate")
      case CrowdTolerance => Text("medium")
      case SuburbanAcceptance => Flag(false)
      case _ => Texts([]);
    var reason := if f in {Companions, Themes, Intensity, CrowdTolerance, SuburbanAcceptance}
                  then Some("default")
                  else None;
    Value(Some(value), Defaulted, 1.0, false, Suggested, reason)
  }

  function DefaultedValue(f: Field, v: Value): Value {
    if HasDefault(f) && v.source == Missing then DefaultOf(f) else v
  }

  /** Python's truth value of a text or a date. */
  predicate Truthy(d: Option<Datum>) {
    match d
    case Some(Text(t)) => t != ""
    case Some(Texts(ts)) => ts != []
    case Some(Ids(ids)) => ids != []
    case Some(Number(n)) => n != 0
    case Some(Flag(b)) => b
    case Some(Date(_)) => true
    case None => false
  }

  function DerivedText(text: string): Value {
    Value(Some(Text(text)), Inferred, 1.0, false, Suggested, None)
  }

  /** Trip scope and date precision follow from an origin and a start date, if nothing else is known. */
  function DerivedValue(f: Field, v: Value, origin: Value, start: Value): Value {
    if f == TripScope && v.source == Missing && Truthy(origin.value) then DerivedText("door_to_door")
    else if f == DatePrecision && v.source == Missing && Truthy(start.value) then DerivedText("exact")
    else v
  }

  /** The stages every value passes after the patch itself. */
  function Finished(f: Field, v: Value, origin: Value, start: Value): Value {
    Settled(DerivedValue(f, DefaultedValue(f, v), origin, start))
  }

  function MergedValue(f: Field, current: Value, patch: Patch): Value {
    MarkedBy(patch.ambiguities, f, PatchedValue(f, current, patch))
  }

  function BeforeDerivation(current: Requirements, patch: Patch, f: Field): Value {
    DefaultedValue(f, MergedValue(f, current[f], patch))
  }

  /** The new value of one field. */
  function AppliedValue(current: Requirements, patch: Patch, f: Field): Value {
    Finished(f, MergedValue(f, current[f], patch),
             BeforeDerivation(current, patch, Origin), BeforeDerivation(current, patch, StartDate))
  }

  function Applied(current: Requirements, patch: Patch): Requirements {
    Table((f: Field) => AppliedValue(current, patch, f))
  }

  function AmbiguityConflicts(data: Requirements, ambiguities: seq<Ambiguity>): seq<MergeConflict> {
    if ambiguities == [] then []
    else
      var last := ambiguities[|ambiguities| - 1];
      AmbiguityConflicts(data, ambiguities[..|ambiguities| - 1])
      + [MergeConflict(last.field, data[last.field].value, Texts(last.candidates), AmbiguousInput)]
  }

  /** Refused values in field order, then ambiguities in patch order. */
  function ConflictsOf(current: Requirements, patch: Patch): seq<MergeConflict> {
    RefusalsIn(current, patch, PATCH_FIELDS) + AmbiguityConflicts(Table(PatchAt(current, patch)), patch.ambiguities)
  }

  // ---- the merge as it is written -------------------------------------------------------------

  lemma UpdatedEverywhere(before: Requirements, after: Field -> Value, fields: seq<Field>)
    requires forall f: Field :: f !in fields ==> after(f) == before[f]
    ensures WithAll(before, after, fields) == Table(after)
  {
    forall f: Field ensures WithAll(before, after, fields)[f] == Table(after)[f] {
      WithAllAt(before, after, fields, f);
    }
    SameTable(WithAll(before, after, fields), Table(after));
  }

  lemma NotYetUpdated(before: Requirements, after: Field -> Value, fields: seq<Field>, i: nat)
    requires i < |fields| && Distinct(fields)
    ensures WithAll(before, after, fields[..i])[fields[i]] == before[fields[i]]
    ensures WithAll(before, after, fields[..i + 1])
         == With(WithAll(before, after, fields[..i]), fields[i], after(fields[i]))
  {
    WithAllAt(before, after, fields[..i], fields[i]);
    assert fields[..i + 1][..i] == fields[..i];
  }

  lemma SetToItself(data: Requirements, f: Field)
    ensures With(data, f, data[f]) == data
  {
  }

  function PatchAt(current: Requirements, patch: Patch): Field -> Value {
    (f: Field) => PatchedValue(f, current[f], patch)
  }

  method PatchFields(fields: seq<Field>, current: Requirements, patch: Patch)
    returns (data: Requirements, conflicts: seq<MergeConflict>)
    requires Distinct(fields)
    ensures data == WithAll(current, PatchAt(current, patch), fields)
    ensures conflicts == RefusalsIn(current, patch, fields)
  {
    hide Distinct, Merged, Refusal, Table;
    data, conflicts := current, [];
    for i := 0 to |fields|
      invariant data == WithAll(current, PatchAt(current, patch), fields[..i])
      invariant conflicts == RefusalsIn(current, patch, fields[..i])
    {
      var f := fields[i];
      assert fields[..i + 1][..i] == fields[..i];
      NotYetUpdated(current, PatchAt(current, patch), fields, i);
      SetToItself(data, f);
      if f in patch.values {
        var refusal := Refusal(f, data[f], patch.values[f]);
        if refusal.Some? {
          conflicts := conflicts + [MergeConflict(f, data[f].value, patch.values[f].value, refusal.value)];
        } else {
          data := With(data, f, Merged(f, data[f], patch.values[f]));
        }
      }
    }
    assert fields[..|fields|] == fields;
  }

  function MarkAll(before: Requirements, ambiguities: seq<Ambiguity>): Requirements {
    if ambiguities == [] then before
    else
      var field := ambiguities[|ambiguities| - 1].field;
      var data := MarkAll(before, ambiguities[..|ambiguities| - 1]);
      With(data, field, data[field].(decision := Conflicted))
  }

  lemma MarksOneMore(front: seq<Ambiguity>, last: Ambiguity, f: Field)
    ensures Marks(front + [last], f) <==> Marks(front, f) || last.field == f
  {
    assert last in front + [last];
    forall a ensures a in front + [last] <==> a in front || a == last {
      InConcat(front, [last], a);
    }
  }

  lemma {:induction false} MarkAllAt(before: Requirements, ambiguities: seq<Ambiguity>, f: Field)
    ensures MarkAll(before, ambiguities)[f] == MarkedBy(ambiguities, f, before[f])
  {
    if ambiguities != [] {
      var front, last := ambiguities[..|ambiguities| - 1], ambiguities[|ambiguities| - 1];
      MarkAllAt(before, front, f);
      assert ambiguities == front + [last];
      MarksOneMore(front, last, f);
    }
  }

  method MarkAmbiguities(before: Requirements, ambiguities: seq<Ambiguity>)
    returns (data: Requirements, conflicts: seq<MergeConflict>)
    ensures data == MarkAll(before, ambiguities)
    ensures conflicts == AmbiguityConflicts(before, ambiguities)
  {
    data, conflicts := before, [];
    for i := 0 to |ambiguities|
      invariant data == MarkAll(before, ambiguities[..i])
      invariant conflicts == AmbiguityConflicts(before, ambiguities[..i])
    {
      var a := ambiguities[i];
      assert ambiguities[..i + 1][..i] == ambiguities[..i];
      data := With(data, a.field, data[a.field].(decision := Conflicted));
      MarkAllAt(before, ambiguities[..i + 1], a.field);
      conflicts := conflicts + [MergeConflict(a.field, data[a.field].value, Texts(a.candidates), AmbiguousInput)];
    }
    assert ambiguities[..|ambiguities|] == ambiguities;
  }

  function DefaultAt(before: Requirements): Field -> Value {
    (f: Field) => DefaultedValue(f, before[f])
  }

  method FillDefaults(fields: seq<Field>, before: Requirements) returns (data: Requirements)
    requires Distinct(fields) && forall f :: f in fields ==> HasDefault(f)
    ensures data == WithAll(before, DefaultAt(before), fields)
  {
    data := before;
    for i := 0 to |fields|
      invariant data == WithAll(before, DefaultAt(before), fields[..i])
    {
      var f := fields[i];
      NotYetUpdated(before, DefaultAt(before), fields, i);
      SetToItself(data, f);
      if data[f].source == Missing {
        data := With(data, f, DefaultOf(f));
      }
    }
    assert fields[..|fields|] == fields;
  }

  function DeriveAt(data: Requirements): Field -> Value {
    (f: Field) => Settled(DerivedValue(f, data[f], data[Origin], data[StartDate]))
  }

  function SettleAt(data: Requirements): Field -> Value {
    (f: Field) => Settled(data[f])
  }

  /** The two derivations, one after the other. */
  function DeriveBoth(before: Requirements): Requirements {
    var data := if before[TripScope].source == Missing && Truthy(before[Origin].value)
                then With(before, TripScope, DerivedText("door_to_door")) else before;
    if data[DatePrecision].source == Missing && Truthy(data[StartDate].value)
    then With(data, DatePrecision, DerivedText("exact")) else data
  }

  lemma DeriveBothAt(before: Requirements, f: Field)
    ensures DeriveBoth(before)[f] == DerivedValue(f, before[f], before[Origin], before[StartDate])
  {
  }

  lemma DeriveBothIsDerive(before: Requirements)
    ensures Table(SettleAt(DeriveBoth(before))) == Table(DeriveAt(before))
  {
    forall f: Field ensures Table(SettleAt(DeriveBoth(before)))[f] == Table(DeriveAt(before))[f] {
      DeriveBothAt(before, f);
    }
    SameTable(Table(SettleAt(DeriveBoth(before))), Table(DeriveAt(before)));
  }

  method DeriveFields(before: Requirements) returns (data: Requirements)
    ensures data == Table(DeriveAt(before))
  {
    data := before;
    if data[TripScope].source == Missing && Truthy(data[Origin].value) {
      data := With(data, TripScope, DerivedText("door_to_door"));
    }
    if data[DatePrecision].source == Missing && Truthy(data[StartDate].value) {
      data := With(data, DatePrecision, DerivedText("exact"));
    }
    assert data == DeriveBoth(before);
    data := Table(SettleAt(data));
    DeriveBothIsDerive(before);
  }

  lemma DefaultOrder()
    ensures Distinct(DEFAULT_ORDER) && forall f: Field :: f in DEFAULT_ORDER <==> HasDefault(f)
  {
  }

  /** The position of a field among those a patch may set. */
  function Position(f: Field): nat {
    match f
    case TripScope => 0 case Origin => 1 case Destination => 2 case DatePrecision => 3 case TravelMonth => 4
    case StartDate => 5 case Days => 6 case TransportMode => 7 case Companions => 8 case Themes => 9
    case Intensity => 10 case CrowdTolerance => 11 case SuburbanAcceptance => 12 case MustVisitTexts => 13
    case OptionalTexts => 14 case ExcludedTexts => 15 case VisitedTexts => 16 case Notes => 17
    case _ => 18
  }

  lemma PatchFieldsDistinct()
    ensures Distinct(PATCH_FIELDS)
  {
    assert forall i :: 0 <= i < |PATCH_FIELDS| ==> Position(PATCH_FIELDS[i]) == i;
  }

  lemma FilledAt(current: Requirements, patch: Patch, f: Field)
    ensures Table(DefaultAt(MarkAll(Table(PatchAt(current, patch)), patch.ambiguities)))[f]
         == BeforeDerivation(current, patch, f)
  {
    MarkAllAt(Table(PatchAt(current, patch)), patch.ambiguities, f);
  }

  lemma StagesCompose(current: Requirements, patch: Patch)
    ensures Table(DeriveAt(Table(DefaultAt(MarkAll(Table(PatchAt(current, patch)), patch.ambiguities)))))
         == Applied(current, patch)
  {
    var filled := Table(DefaultAt(MarkAll(Table(PatchAt(current, patch)), patch.ambiguities)));
    forall f: Field ensures Table(DeriveAt(filled))[f] == Applied(current, patch)[f] {
      FilledAt(current, patch, f);
      FilledAt(current, patch, Origin);
      FilledAt(current, patch, StartDate);
    }
    SameTable(Table(DeriveAt(filled)), Applied(current, patch));
  }

  /** The snapshot and the conflicts of `apply`. */
  method MergePatch(current: Requirements, patch: Patch) returns (snapshot: Requirements, conflicts: seq<MergeConflict>)
    requires ValidPatch(patch)
    ensures snapshot == Applied(current, patch)
    ensures conflicts == ConflictsOf(current, patch)
  {
    PatchFieldsDistinct();
    DefaultOrder();
    var patched, refusals := PatchFields(PATCH_FIELDS, current, patch);
    UpdatedEverywhere(current, PatchAt(current, patch), PATCH_FIELDS);
    var marked, ambiguous := MarkAmbiguities(patched, patch.ambiguities);
    var filled := FillDefaults(DEFAULT_ORDER, marked);
    UpdatedEverywhere(marked, DefaultAt(marked), DEFAULT_ORDER);
    snapshot := DeriveFields(filled);
    conflicts := refusals + ambiguous;
    StagesCompose(current, patch);
  }
}
