/** What a merge keeps, and when the merged requirements are ready for planning. */
module RequirementRules {
  import opened Wrappers
  import opened Sequences
  import opened Sorting
  import opened RequirementData
  import opened RequirementMerge

  // ---- what a merge keeps ---------------------------------------------------------------------

  lemma AppliedAt(current: Requirements, patch: Patch, f: Field)
    ensures Applied(current, patch)[f] == AppliedValue(current, patch, f)
  {
  }

  /** A finished value passes all stages of an empty patch unchanged, if origin and start date did not change either. */
  lemma FinishedIsFinal(f: Field, v: Value, origin: Value, start: Value)
    requires f != Origin && f != StartDate
    ensures Finished(f, MergedValue(f, Finished(f, v, origin, start), EMPTY_PATCH), Settled(origin), Settled(start))
         == Finished(f, v, origin, start)
  {
  }

  lemma SourceIsFinal(f: Field, v: Value, origin: Value, start: Value)
    requires f == Origin || f == StartDate
    ensures Finished(f, v, origin, start) == Settled(DefaultedValue(f, v))
    ensures MergedValue(f, Settled(v), EMPTY_PATCH) == Settled(v)
    ensures DefaultedValue(f, v) == v
  {
  }

  lemma FixpointFrom(f: Field, r: Requirements, v: Value, origin: Value, start: Value)
    requires r[Origin] == Settled(origin) && r[StartDate] == Settled(start)
    requires r[f] == Finished(f, v, origin, start)
    ensures AppliedValue(r, EMPTY_PATCH, f) == r[f]
  {
    SourceIsFinal(Origin, origin, origin, start);
    SourceIsFinal(Origin, Settled(origin), origin, start);
    SourceIsFinal(StartDate, start, origin, start);
    SourceIsFinal(StartDate, Settled(start), origin, start);
    if f != Origin && f != StartDate {
      FinishedIsFinal(f, v, origin, start);
    }
  }

  lemma OriginAndStart(current: Requirements, patch: Patch)
    ensures Applied(current, patch)[Origin] == Settled(BeforeDerivation(current, patch, Origin))
    ensures Applied(current, patch)[StartDate] == Settled(BeforeDerivation(current, patch, StartDate))
  {
    var origin, start := BeforeDerivation(current, patch, Origin), BeforeDerivation(current, patch, StartDate);
    SourceIsFinal(Origin, MergedValue(Origin, current[Origin], patch), origin, start);
    SourceIsFinal(StartDate, MergedValue(StartDate, current[StartDate], patch), origin, start);
  }

  lemma FixpointAt(current: Requirements, patch: Patch, f: Field)
    ensures AppliedValue(Applied(current, patch), EMPTY_PATCH, f) == Applied(current, patch)[f]
  {
    AppliedAt(current, patch, f);
    OriginAndStart(current, patch);
    FixpointFrom(f, Applied(current, patch), MergedValue(f, current[f], patch),
                 BeforeDerivation(current, patch, Origin), BeforeDerivation(current, patch, StartDate));
  }

  /** After any merge the snapshot is a fixpoint of the empty patch. */
  lemma MergeIsFixpoint(current: Requirements, patch: Patch)
    ensures Applied(Applied(current, patch), EMPTY_PATCH) == Applied(current, patch)
  {
    var r := Applied(current, patch);
    forall f: Field ensures Applied(r, EMPTY_PATCH)[f] == r[f] {
      FixpointAt(current, patch, f);
      AppliedAt(r, EMPTY_PATCH, f);
    }
    SameTable(Applied(r, EMPTY_PATCH), r);
  }

  predicate ExplicitlyPatched(patch: Patch, f: Field) {
    f in patch.values && patch.values[f].source == Explicit
  }

  /** The same value, up to its decision status. */
  predicate SameStatement(a: Value, b: Value) {
    a.value == b.value && a.source == b.source && a.confidence == b.confidence && a.confirmed == b.confirmed
    && a.reason == b.reason
  }

  lemma ExplicitValueStays(f: Field, v: Value, patch: Patch, origin: Value, start: Value)
    requires v.source == Explicit && !ExplicitlyPatched(patch, f)
    requires f in patch.values ==> patch.values[f].source in {Explicit, Inferred}
    ensures SameStatement(Finished(f, MergedValue(f, v, patch), origin, start), v)
    ensures !Marks(patch.ambiguities, f) ==> Finished(f, MergedValue(f, v, patch), origin, start) == Settled(v)
  {
  }

  /** What the user said stays, unless the user says something else; an ambiguity only marks it. */
  lemma ExplicitStays(current: Requirements, patch: Patch, f: Field)
    requires ValidPatch(patch) && current[f].source == Explicit && !ExplicitlyPatched(patch, f)
    ensures SameStatement(Applied(current, patch)[f], current[f])
    ensures !Marks(patch.ambiguities, f) ==> Applied(current, patch)[f] == Settled(current[f])
  {
    AppliedAt(current, patch, f);
    ExplicitValueStays(f, current[f], patch,
                       BeforeDerivation(current, patch, Origin), BeforeDerivation(current, patch, StartDate));
  }

  /** What `v` becomes when the user states `p`. */
  ghost predicate Stated(f: Field, after: Value, before: Value, p: PatchValue, ambiguous: bool) {
    && after.value == Merged(f, before, p).value
    && after.source == Explicit && after.confirmed && after.confidence == p.confidence && after.reason.None?
    && after.decision == if ambiguous then Conflicted else Confirmed
  }

  lemma ExplicitValueWins(f: Field, v: Value, patch: Patch, origin: Value, start: Value)
    requires ExplicitlyPatched(patch, f)
    ensures Stated(f, Finished(f, MergedValue(f, v, patch), origin, start),
                   v, patch.values[f], Marks(patch.ambiguities, f))
  {
  }

  /** What the user says now is what holds: the new value is confirmed, and an ambiguity only marks it. */
  lemma ExplicitWins(current: Requirements, patch: Patch, f: Field)
    requires ExplicitlyPatched(patch, f)
    ensures Stated(f, Applied(current, patch)[f], current[f], patch.values[f], Marks(patch.ambiguities, f))
  {
    AppliedAt(current, patch, f);
    ExplicitValueWins(f, current[f], patch,
                      BeforeDerivation(current, patch, Origin), BeforeDerivation(current, patch, StartDate));
  }

  ghost predicate NoInferredPlaces(r: Requirements) {
    forall f: Field :: IsPlaceText(f) ==> r[f].source != Inferred
  }

  lemma PlaceStaysStated(f: Field, v: Value, patch: Patch, origin: Value, start: Value)
    requires IsPlaceText(f) && v.source != Inferred
    ensures Finished(f, MergedValue(f, v, patch), origin, start).source != Inferred
  {
  }

  /** A place the model only inferred never becomes a requirement. */
  lemma PlacesAreNeverInferred(current: Requirements, patch: Patch)
    requires NoInferredPlaces(current)
    ensures NoInferredPlaces(Applied(current, patch))
  {
    forall f: Field | IsPlaceText(f) ensures Applied(current, patch)[f].source != Inferred {
      AppliedAt(current, patch, f);
      PlaceStaysStated(f, current[f], patch,
                       BeforeDerivation(current, patch, Origin), BeforeDerivation(current, patch, StartDate));
    }
  }

  ghost predicate TidyLists(r: Requirements) {
    forall f: Field :: IsList(f) ==> TidyList(ExistingTexts(r[f]))
  }

  lemma MergedListIsTidy(f: Field, current: Value, p: PatchValue)
    requires IsList(f) && Fits(f, p.value) && TidyList(ExistingTexts(current))
    ensures TidyList(ExistingTexts(Merged(f, current, p)))
  {
    NormalizedIsTidy(p.value.texts);
    CombinedIsTidy(ExistingTexts(current), Normalized(p.value.texts), p.operation);
  }

  lemma TidyValueStays(f: Field, v: Value, patch: Patch, origin: Value, start: Value)
    requires IsList(f) && TidyList(ExistingTexts(v))
    requires f in patch.values ==> Fits(f, patch.values[f].value)
    ensures TidyList(ExistingTexts(Finished(f, MergedValue(f, v, patch), origin, start)))
  {
    if f in patch.values {
      MergedListIsTidy(f, v, patch.values[f]);
    }
    assert TidyList([]);
  }

  /** List values stay duplicate-free and clean. */
  lemma ListsStayTidy(current: Requirements, patch: Patch)
    requires ValidPatch(patch) && TidyLists(current)
    ensures TidyLists(Applied(current, patch))
  {
    forall f: Field | IsList(f) ensures TidyList(ExistingTexts(Applied(current, patch)[f])) {
      AppliedAt(current, patch, f);
      TidyValueStays(f, current[f], patch,
                     BeforeDerivation(current, patch, Origin), BeforeDerivation(current, patch, StartDate));
    }
  }

  lemma MergedFits(f: Field, v: Value, p: PatchValue)
    requires Fits(f, p.value)
    ensures Fits(f, Merged(f, v, p).value.value)
  {
  }

  lemma DefaultFits(f: Field)
    requires HasDefault(f)
    ensures TypedValue(f, DefaultOf(f))
  {
  }

  lemma TypedValueStays(f: Field, v: Value, patch: Patch, origin: Value, start: Value)
    requires TypedValue(f, v) && (f in patch.values ==> Fits(f, patch.values[f].value))
    ensures TypedValue(f, Finished(f, MergedValue(f, v, patch), origin, start))
  {
    var merged := MergedValue(f, v, patch);
    if f in patch.values {
      MergedFits(f, v, patch.values[f]);
    }
    assert merged.value.Some? ==> Fits(f, merged.value.value);
    FinishedIsTyped(f, merged, origin, start);
  }

  lemma FinishedIsTyped(f: Field, v: Value, origin: Value, start: Value)
    requires v.value.Some? ==> Fits(f, v.value.value)
    ensures TypedValue(f, Finished(f, v, origin, start))
  {
    if HasDefault(f) {
      DefaultFits(f);
    }
  }

  lemma TypedStaysAt(current: Requirements, patch: Patch, f: Field)
    requires TypedValue(f, current[f]) && (f in patch.values ==> Fits(f, patch.values[f].value))
    ensures TypedValue(f, Applied(current, patch)[f])
  {
    AppliedAt(current, patch, f);
    TypedValueStays(f, current[f], patch,
                    BeforeDerivation(current, patch, Origin), BeforeDerivation(current, patch, StartDate));
  }

  /** A merged snapshot validates again. */
  lemma MergeIsTyped(current: Requirements, patch: Patch)
    requires ValidPatch(patch) && Typed(current)
    ensures Typed(Applied(current, patch))
  {
    forall f: Field ensures TypedValue(f, Applied(current, patch)[f]) {
      assert TypedValue(f, current[f]);
      TypedStaysAt(current, patch, f);
    }
  }

  // ---- what blocks planning -------------------------------------------------------------------

  datatype IssueCode =
    | ExtractionFailed | MissingTripScope | MissingOrigin | MissingStartDate | InvalidStartDate
    | MissingDays | InvalidDays | MissingTransportMode | MissingTarget | AmbiguousRequirement

  datatype BlockingIssue = BlockingIssue(code: IssueCode, field: Field)

  const SCOPES := {"door_to_door", "destination_only"}
  const MODES := {"driving", "walking", "public_transit", "taxi", "cycling", "mixed", "system_decides"}

  function If(condition: bool, code: IssueCode, field: Field): seq<BlockingIssue> {
    if condition then [BlockingIssue(code, field)] else []
  }

  predicate OneOf(d: Option<Datum>, texts: set<string>) {
    match d
    case Some(Text(t)) => t in texts
    case _ => false
  }

  predicate HasTarget(s: Requirements) {
    Truthy(s[Destination].value)
    || (exists t :: t in TextsOf(s, MustVisitTexts) && t != "")
    || (exists t :: t in TextsOf(s, OptionalTexts) && t != "")
  }

  predicate DateOpen(s: Requirements) {
    OneOf(s[DatePrecision].value, {"month_only", "flexible"})
  }

  const IS_AMBIGUITY: MergeConflict -> bool := (c: MergeConflict) => c.reason == AmbiguousInput
  const AMBIGUITY_ISSUE: MergeConflict -> BlockingIssue := (c: MergeConflict) => BlockingIssue(AmbiguousRequirement,
    c.field)

  function FieldIssues(s: Requirements, today: int): seq<BlockingIssue> {
    var start, days := DateOf(s, StartDate), NumberOf(s, Days);
    If(!OneOf(s[TripScope].value, SCOPES), MissingTripScope, TripScope)
    + If(OneOf(s[TripScope].value, {"door_to_door"}) && !Truthy(s[Origin].value), MissingOrigin, Origin)
    + If(!DateOpen(s) && start.None?, MissingStartDate, StartDate)
    + If(start.Some? && start.value < today, InvalidStartDate, StartDate)
    + If(days.None?, MissingDays, Days)
    + If(days.Some? && !(1 <= days.value <= 7), InvalidDays, Days)
    + If(!OneOf(s[TransportMode].value, MODES), MissingTransportMode, TransportMode)
    + If(!HasTarget(s), MissingTarget, Destination)
  }

  /** `_blocking_issues`, and the extraction failure put in front. */
  function IssuesOf(s: Requirements, conflicts: seq<MergeConflict>, today: int, failed: bool): seq<BlockingIssue> {
    If(failed, ExtractionFailed, Destination)
    + (FieldIssues(s, today) + Map(Filter(conflicts, IS_AMBIGUITY), AMBIGUITY_ISSUE))
  }

  /** Requirements one can plan with. */
  ghost predicate Complete(s: Requirements, today: int) {
    && OneOf(s[TripScope].value, SCOPES)
    && (OneOf(s[TripScope].value, {"door_to_door"}) ==> Truthy(s[Origin].value))
    && (DateOpen(s) || DateOf(s, StartDate).Some?)
    && (DateOf(s, StartDate).Some? ==> DateOf(s, StartDate).value >= today)
    && NumberOf(s, Days).Some? && 1 <= NumberOf(s, Days).value <= 7
    && OneOf(s[TransportMode].value, MODES)
    && HasTarget(s)
  }

  lemma NoIssueIffComplete(s: Requirements, conflicts: seq<MergeConflict>, today: int, failed: bool)
    ensures IssuesOf(s, conflicts, today, failed) == [] <==>
              Complete(s, today) && !failed && forall c :: c in conflicts ==> !IS_AMBIGUITY(c)
  {
    FilterMembers(conflicts, IS_AMBIGUITY);
    var kept := Filter(conflicts, IS_AMBIGUITY);
    if kept != [] {
      assert kept[0] in kept;
    }
  }

  // ---- the questions --------------------------------------------------------------------------

  function PriorityOf(code: IssueCode): nat {
    match code
    case ExtractionFailed => 100
    case MissingTarget => 98
    case AmbiguousRequirement => 95
    case MissingTripScope => 90
    case MissingDays | InvalidDays => 82
    case MissingStartDate | InvalidStartDate => 72
    case MissingOrigin => 68
    case MissingTransportMode => 60
  }

  const HIGHER_PRIORITY: (BlockingIssue, BlockingIssue) -> bool :=
    (a: BlockingIssue, b: BlockingIssue) => PriorityOf(a.code) > PriorityOf(b.code)

  /** Sorted by falling priority, ties in order of appearance. */
  function Ranked(issues: seq<BlockingIssue>): seq<BlockingIssue> {
    StableSort(issues, HIGHER_PRIORITY)
  }

  /** At most three issues are asked about. */
  function Questions(issues: seq<BlockingIssue>): seq<BlockingIssue> {
    if |Ranked(issues)| <= 3 then Ranked(issues) else Ranked(issues)[..3]
  }

  function WithPriority(issues: seq<BlockingIssue>, priority: nat): seq<BlockingIssue> {
    Filter(issues, (i: BlockingIssue) => PriorityOf(i.code) == priority)
  }

  /** `rest` holds the issues not asked about: none of them is more pressing, and ties are asked in order. */
  ghost predicate MostPressing(issues: seq<BlockingIssue>, rest: seq<BlockingIssue>) {
    && multiset(Questions(issues) + rest) == multiset(issues)
    && Ordered(Questions(issues) + rest, HIGHER_PRIORITY)
    && forall priority {:trigger WithPriority(issues, priority)} ::
         WithPriority(Questions(issues) + rest, priority) == WithPriority(issues, priority)
  }

  /** The questions are the three most pressing issues, in order. */
  lemma QuestionsAreMostPressing(issues: seq<BlockingIssue>)
    ensures |Questions(issues)| == if |issues| <= 3 then |issues| else 3
    ensures exists rest :: MostPressing(issues, rest)
  {
    SortOrders(issues, HIGHER_PRIORITY);
    var ranked := Ranked(issues);
    assert |ranked| == |multiset(ranked)| == |multiset(issues)| == |issues|;
    var rest := if |issues| <= 3 then [] else ranked[3..];
    assert ranked == Questions(issues) + rest;
    forall priority: nat ensures WithPriority(ranked, priority) == WithPriority(issues, priority) {
      SortIsStable(issues, HIGHER_PRIORITY, (i: BlockingIssue) => PriorityOf(i.code) == priority);
    }
    assert MostPressing(issues, rest);
  }

  // ---- the decision ---------------------------------------------------------------------------

  datatype MergeResult = MergeResult(
    snapshot: Requirements, conflicts: seq<MergeConflict>, issues: seq<BlockingIssue>,
    questions: seq<BlockingIssue>, ready: bool)

  /** The whole result of `apply`. */
  function Apply(current: Requirements, patch: Patch, today: int, failed: bool): MergeResult {
    var snapshot := Applied(current, patch);
    var conflicts := ConflictsOf(current, patch);
    var issues := IssuesOf(snapshot, conflicts, today, failed);
    MergeResult(snapshot, conflicts, issues, Questions(issues), issues == [])
  }

  method FindScopeAndDateIssues(s: Requirements, today: int) returns (issues: seq<BlockingIssue>)
    ensures var start := DateOf(s, StartDate);
      issues == If(!OneOf(s[TripScope].value, SCOPES), MissingTripScope, TripScope)
        + If(OneOf(s[TripScope].value, {"door_to_door"}) && !Truthy(s[Origin].value), MissingOrigin, Origin)
        + If(!DateOpen(s) && start.None?, MissingStartDate, StartDate)
        + If(start.Some? && start.value < today, InvalidStartDate, StartDate)
  {
    issues := [];
    if !OneOf(s[TripScope].value, SCOPES) {
      issues := issues + [BlockingIssue(MissingTripScope, TripScope)];
    }
    if OneOf(s[TripScope].value, {"door_to_door"}) && !Truthy(s[Origin].value) {
      issues := issues + [BlockingIssue(MissingOrigin, Origin)];
    }
    var start := DateOf(s, StartDate);
    if !DateOpen(s) && start.None? {
      issues := issues + [BlockingIssue(MissingStartDate, StartDate)];
    } else if start.Some? && start.value < today {
      issues := issues + [BlockingIssue(InvalidStartDate, StartDate)];
    }
  }

  method FindIssues(
    s: Requirements, conflicts: seq<MergeConflict>, today: int, failed: bool)
    returns (issues: seq<BlockingIssue>)
    ensures issues == IssuesOf(s, conflicts, today, failed)
  {
    issues := FindScopeAndDateIssues(s, today);
    var days := NumberOf(s, Days);
    issues := issues + If(days.None?, MissingDays, Days);
    issues := issues + If(days.Some? && !(1 <= days.value <= 7), InvalidDays, Days);
    issues := issues + If(!OneOf(s[TransportMode].value, MODES), MissingTransportMode, TransportMode);
    issues := issues + If(!HasTarget(s), MissingTarget, Destination);
    assert issues == FieldIssues(s, today);
    var ambiguous := FindAmbiguities(conflicts);
    issues := issues + ambiguous;
    if failed {
      issues := [BlockingIssue(ExtractionFailed, Destination)] + issues;
    }
  }

  method FindAmbiguities(conflicts: seq<MergeConflict>) returns (issues: seq<BlockingIssue>)
    ensures issues == Map(Filter(conflicts, IS_AMBIGUITY), AMBIGUITY_ISSUE)
  {
    issues := [];
    for i := 0 to |conflicts|
      invariant issues == Map(Filter(conflicts[..i], IS_AMBIGUITY), AMBIGUITY_ISSUE)
    {
      assert conflicts[..i + 1] == conflicts[..i] + [conflicts[i]];
      FilterConcat(conflicts[..i], [conflicts[i]], IS_AMBIGUITY);
      if conflicts[i].reason == AmbiguousInput {
        MapConcat(Filter(conflicts[..i], IS_AMBIGUITY), [conflicts[i]], AMBIGUITY_ISSUE);
        issues := issues + [BlockingIssue(AmbiguousRequirement, conflicts[i].field)];
      }
    }
    assert conflicts[..|conflicts|] == conflicts;
  }

  method ApplyPatch(current: Requirements, patch: Patch, today: int, failed: bool) returns (r: MergeResult)
    requires ValidPatch(patch)
    ensures r == Apply(current, patch, today, failed)
  {
    var snapshot, conflicts := MergePatch(current, patch);
    var issues := FindIssues(snapshot, conflicts, today, failed);
    r := MergeResult(snapshot, conflicts, issues, Questions(issues), issues == []);
  }

  // ---- readiness ------------------------------------------------------------------------------

  lemma {:induction false} RefusalsAreNoAmbiguities(current: Requirements, patch: Patch, fields: seq<Field>)
    ensures forall c :: c in RefusalsIn(current, patch, fields) ==> !IS_AMBIGUITY(c)
  {
    if fields != [] {
      RefusalsAreNoAmbiguities(current, patch, fields[..|fields| - 1]);
    }
  }

  lemma {:induction false} AmbiguitiesAreAmbiguities(data: Requirements, ambiguities: seq<Ambiguity>)
    ensures |AmbiguityConflicts(data, ambiguities)| == |ambiguities|
    ensures forall c :: c in AmbiguityConflicts(data, ambiguities) ==> IS_AMBIGUITY(c)
  {
    if ambiguities != [] {
      AmbiguitiesAreAmbiguities(data, ambiguities[..|ambiguities| - 1]);
    }
  }

  /** Ready means: complete, understood and unambiguous; refused values alone never block. */
  lemma ReadyIff(current: Requirements, patch: Patch, today: int, failed: bool)
    ensures Apply(current, patch, today, failed).ready <==>
              Complete(Applied(current, patch), today) && !failed && patch.ambiguities == []
  {
    var conflicts := ConflictsOf(current, patch);
    var marked := AmbiguityConflicts(Table(PatchAt(current, patch)), patch.ambiguities);
    NoIssueIffComplete(Applied(current, patch), conflicts, today, failed);
    RefusalsAreNoAmbiguities(current, patch, PATCH_FIELDS);
    AmbiguitiesAreAmbiguities(Table(PatchAt(current, patch)), patch.ambiguities);
    forall c ensures c in conflicts <==> c in RefusalsIn(current, patch, PATCH_FIELDS) || c in marked {
      InConcat(RefusalsIn(current, patch, PATCH_FIELDS), marked, c);
    }
    if marked != [] {
      assert marked[0] in marked;
    }
  }
}
