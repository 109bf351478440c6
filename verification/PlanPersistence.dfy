/** Loading the planner's input from the current version, and turning a feasible draft into a snapshot. */
module PlanPersistence {
  import opened Wrappers
  import opened Sequences
  import opened TextTools
  import opened RequirementData
  import opened SnapshotData
  import opened PlannerData
  import opened Planning

  /** A stored recommendation with its candidate and the traveller's decision. */
  datatype StoredPlace = StoredPlace(
    providerPlaceId: string, candidate: Candidate, accepted: bool, autoAdopted: bool, score: real)

  /** `planning_place_id`: the id derived from provider and provider place id. */
  type Naming = (string, string) -> Id

  datatype LoadError = ExcludedPlace(id: Id)

  const IS_SELECTED: StoredPlace -> bool := (p: StoredPlace) => p.accepted || p.autoAdopted
  const STORED_KEY: StoredPlace -> string := (p: StoredPlace) => p.providerPlaceId

  /** Assignment to an insertion-ordered dictionary keyed by provider place id. */
  function Assign(dict: seq<StoredPlace>, p: StoredPlace): seq<StoredPlace> {
    if dict == [] then [p]
    else if dict[0].providerPlaceId == p.providerPlaceId then [p] + dict[1..]
    else [dict[0]] + Assign(dict[1..], p)
  }

  function ByProviderId(places: seq<StoredPlace>): seq<StoredPlace> {
    if places == [] then []
    else Assign(ByProviderId(places[..|places| - 1]), places[|places| - 1])
  }

  lemma {:induction false} AssignMembers(dict: seq<StoredPlace>, p: StoredPlace, q: StoredPlace)
    ensures q in Assign(dict, p) ==> q == p || q in dict
    ensures q in dict && q.providerPlaceId != p.providerPlaceId ==> q in Assign(dict, p)
    ensures p in Assign(dict, p)
  {
    if dict != [] {
      AssignMembers(dict[1..], p, q);
      assert dict == [dict[0]] + dict[1..];
    }
  }

  lemma {:induction false} AssignKeys(dict: seq<StoredPlace>, p: StoredPlace)
    requires Distinct(Map(dict, STORED_KEY))
    ensures Distinct(Map(Assign(dict, p), STORED_KEY))
  {
    if dict != [] {
      var tail := dict[1..];
      assert Map(dict, STORED_KEY) == [dict[0].providerPlaceId] + Map(tail, STORED_KEY);
      assert Map(dict, STORED_KEY)[1..] == Map(tail, STORED_KEY);
      if dict[0].providerPlaceId == p.providerPlaceId {
        assert Map([p] + tail, STORED_KEY) == Map(dict, STORED_KEY);
      } else {
        AssignKeys(tail, p);
        var more := Assign(tail, p);
        forall i | 0 <= i < |more| ensures more[i].providerPlaceId != dict[0].providerPlaceId {
          AssignMembers(tail, p, more[i]);
          if more[i] != p {
            MapMember(tail, STORED_KEY, more[i]);
            assert more[i].providerPlaceId in Map(tail, STORED_KEY);
          }
        }
        assert Map([dict[0]] + more, STORED_KEY) == [dict[0].providerPlaceId] + Map(more, STORED_KEY);
      }
    }
  }

  lemma {:induction false} ByProviderIdKeys(places: seq<StoredPlace>)
    ensures Distinct(Map(ByProviderId(places), STORED_KEY))
  {
    if places != [] {
      var n := |places| - 1;
      ByProviderIdKeys(places[..n]);
      AssignKeys(ByProviderId(places[..n]), places[n]);
    }
  }

  lemma {:induction false} ByProviderIdMembers(places: seq<StoredPlace>, q: StoredPlace)
    ensures q in ByProviderId(places) ==> q in places
  {
    if places != [] {
      var n := |places| - 1;
      ByProviderIdMembers(places[..n], q);
      AssignMembers(ByProviderId(places[..n]), places[n], q);
      assert places == places[..n] + [places[n]];
    }
  }

  /** The key (-score, name length, provider place id) of `a` is below that of `b`. */
  predicate BetterMatch(a: StoredPlace, b: StoredPlace) {
    || a.score > b.score
    || (a.score == b.score && |a.candidate.name| < |b.candidate.name|)
    || (a.score == b.score && |a.candidate.name| == |b.candidate.name|
        && TextBefore(a.providerPlaceId, b.providerPlaceId))
  }

  lemma BetterMatchOrder(a: StoredPlace, b: StoredPlace, c: StoredPlace)
    ensures BetterMatch(a, b) && !BetterMatch(c, b) ==> !BetterMatch(c, a)
    ensures BetterMatch(a, b) ==> !BetterMatch(b, a)
    ensures !BetterMatch(a, b) && !BetterMatch(b, c) ==> !BetterMatch(a, c)
  {
    var ka, kb, kc := a.providerPlaceId, b.providerPlaceId, c.providerPlaceId;
    TextOrderTotal(ka, kb);
    TextOrderTotal(kb, kc);
    TextOrderTotal(ka, kc);
    if TextBefore(kc, ka) && TextBefore(ka, kb) { TextOrderTransitive(kc, ka, kb); }
    if TextBefore(ka, kc) && TextBefore(kc, kb) { TextOrderTransitive(ka, kc, kb); }
  }

  /** Python's `min` under `BetterMatch`. */
  function BestMatch(matches: seq<StoredPlace>): (m: StoredPlace)
    requires matches != []
    ensures m in matches
    ensures forall p :: p in matches ==> !BetterMatch(p, m)
  {
    if |matches| == 1 then
      BetterMatchOrder(matches[0], matches[0], matches[0]);
      matches[0]
    else
      var n := |matches| - 1;
      var m := BestMatch(matches[..n]);
      assert matches == matches[..n] + [matches[n]];
      assert forall p :: p in matches[..n] && BetterMatch(matches[n], m) ==> !BetterMatch(p, matches[n]) by {
        forall p | p in matches[..n] && BetterMatch(matches[n], m) ensures !BetterMatch(p, matches[n]) {
          BetterMatchOrder(matches[n], m, p);
        }
      }
      assert !BetterMatch(matches[n], matches[n]) by { BetterMatchOrder(matches[n], matches[n], matches[n]); }
      if BetterMatch(matches[n], m) then matches[n] else m
  }

  /** A place that competes with the chosen one: an exact name is only challenged by exact names. */
  predicate Eligible(p: StoredPlace, text: string, chosen: StoredPlace) {
    Contains(p.candidate.name, text) && (chosen.candidate.name == text ==> p.candidate.name == text)
  }

  /** `select_must_visit_match`: exact names first, otherwise names containing the text. */
  function SelectMatch(text: string, places: seq<StoredPlace>): (r: Option<StoredPlace>)
    ensures r.None? <==> forall p :: p in places ==> !Contains(p.candidate.name, text)
    ensures r.Some? ==> r.value in places && Contains(r.value.candidate.name, text)
    ensures r.Some? && (exists p :: p in places && p.candidate.name == text) ==> r.value.candidate.name == text
    ensures r.Some? ==> forall p :: p in places && Eligible(p, text, r.value) ==> !BetterMatch(p, r.value)
  {
    var named := (p: StoredPlace) => p.candidate.name == text;
    var containing := (p: StoredPlace) => Contains(p.candidate.name, text);
    var exact := Filter(places, named);
    var matches := if exact != [] then exact else Filter(places, containing);
    FilterMembers(places, named);
    FilterMembers(places, containing);
    assert exact != [] ==> exact[0] in exact;
    assert matches != [] ==> matches[0] in matches;
    if matches == [] then None else Some(BestMatch(matches))
  }

  function NameOf(p: StoredPlace, naming: Naming): Id {
    naming(p.candidate.provider, p.candidate.providerPlaceId)
  }

  /** Ids of the must-visit texts that a selected place resolves. */
  function ResolvedIds(texts: seq<string>, dict: seq<StoredPlace>, naming: Naming): set<Id> {
    if texts == [] then {}
    else
      var rest := ResolvedIds(texts[..|texts| - 1], dict, naming);
      match SelectMatch(texts[|texts| - 1], dict)
      case Some(p) => rest + {NameOf(p, naming)}
      case None => rest
  }

  function UnresolvedTexts(texts: seq<string>, dict: seq<StoredPlace>): seq<string> {
    if texts == [] then []
    else
      UnresolvedTexts(texts[..|texts| - 1], dict)
      + (if SelectMatch(texts[|texts| - 1], dict).None? then [texts[|texts| - 1]] else [])
  }

  function ConfirmedValue(d: Datum): Value {
    Value(Some(d), Explicit, 1.0, true, Confirmed, None)
  }

  function WithMusts(snapshot: Snapshot, ids: set<Id>, texts: seq<string>): Snapshot {
    snapshot.(requirements := snapshot.requirements
      [MustVisitIds := ConfirmedValue(Ids(SortedIds(ids)))]
      [MustVisitTexts := ConfirmedValue(Texts(texts))])
  }

  function PriorityOf(p: StoredPlace, mustIds: set<Id>, naming: Naming): Priority {
    if NameOf(p, naming) in mustIds then MustVisit
    else if p.autoAdopted then AutoAdopted
    else Accepted
  }

  function ToPlanning(p: StoredPlace, mustIds: set<Id>, naming: Naming): PlanningPlace {
    PlanningPlace(NameOf(p, naming), p.candidate, PriorityOf(p, mustIds, naming), 120)
  }

  function MustIdsAfter(before: Requirements, dict: seq<StoredPlace>, naming: Naming): set<Id> {
    IdSetOf(before, MustVisitIds) + ResolvedIds(TextsOf(before, MustVisitTexts), dict, naming)
  }

  /** The snapshot handed to the planner: must-visit texts resolved as far as possible, all else kept. */
  ghost predicate MustsResolved(snapshot: Snapshot, dict: seq<StoredPlace>, naming: Naming, base: Snapshot) {
    && base == snapshot.(requirements := base.requirements)
    && (forall f: Field :: f != MustVisitIds && f != MustVisitTexts ==>
          base.requirements[f] == snapshot.requirements[f])
    && IdSetOf(base.requirements, MustVisitIds) == MustIdsAfter(snapshot.requirements, dict, naming)
    && TextsOf(base.requirements, MustVisitTexts)
       == UnresolvedTexts(TextsOf(snapshot.requirements, MustVisitTexts), dict)
  }

  /** What the planner receives: one place per selected candidate, none of them excluded. */
  ghost predicate InputPromise(
    snapshot: Snapshot, stored: seq<StoredPlace>, naming: Naming, base: Snapshot, places: seq<PlanningPlace>)
  {
    var dict := ByProviderId(Filter(stored, IS_SELECTED));
    && MustsResolved(snapshot, dict, naming, base)
    && PlacesBuilt(dict, MustIdsAfter(snapshot.requirements, dict, naming),
                   IdsOf(snapshot.requirements, ExcludedIds), naming, places)
  }

  ghost predicate PlacesBuilt(
    dict: seq<StoredPlace>, mustIds: set<Id>, excluded: seq<Id>, naming: Naming, places: seq<PlanningPlace>)
  {
    && |places| == |dict|
    && forall i :: 0 <= i < |places| ==>
         places[i] == ToPlanning(dict[i], mustIds, naming) && places[i].id !in excluded
  }

  ghost predicate SomeExcluded(dict: seq<StoredPlace>, excluded: seq<Id>, naming: Naming) {
    exists p :: p in dict && NameOf(p, naming) in excluded
  }

  method IndexByProviderId(selected: seq<StoredPlace>) returns (dict: seq<StoredPlace>)
    ensures dict == ByProviderId(selected)
  {
    dict := [];
    for i := 0 to |selected|
      invariant dict == ByProviderId(selected[..i])
    {
      assert selected[..i + 1][..i] == selected[..i];
      dict := Assign(dict, selected[i]);
    }
    assert selected[..|selected|] == selected;
  }

  lemma WithMustsReads(snapshot: Snapshot, ids: set<Id>, texts: seq<string>)
    ensures IdSetOf(WithMusts(snapshot, ids, texts).requirements, MustVisitIds) == ids
    ensures TextsOf(WithMusts(snapshot, ids, texts).requirements, MustVisitTexts) == texts
  {
    assert IdsOf(WithMusts(snapshot, ids, texts).requirements, MustVisitIds) == SortedIds(ids);
  }

  lemma WithMustsKeeps(snapshot: Snapshot, ids: set<Id>, texts: seq<string>, f: Field)
    requires f != MustVisitIds && f != MustVisitTexts
    ensures WithMusts(snapshot, ids, texts).requirements[f] == snapshot.requirements[f]
  {
  }

  lemma WithMustsResolves(snapshot: Snapshot, dict: seq<StoredPlace>, naming: Naming, ids: set<Id>, texts: seq<string>)
    requires ids == MustIdsAfter(snapshot.requirements, dict, naming)
    requires texts == UnresolvedTexts(TextsOf(snapshot.requirements, MustVisitTexts), dict)
    ensures MustsResolved(snapshot, dict, naming, WithMusts(snapshot, ids, texts))
  {
    WithMustsReads(snapshot, ids, texts);
    forall f: Field | f != MustVisitIds && f != MustVisitTexts
      ensures WithMusts(snapshot, ids, texts).requirements[f] == snapshot.requirements[f]
    {
      WithMustsKeeps(snapshot, ids, texts, f);
    }
  }

  method ResolveTexts(texts: seq<string>, known: set<Id>, dict: seq<StoredPlace>, naming: Naming)
    returns (mustIds: set<Id>, unresolved: seq<string>)
    ensures mustIds == known + ResolvedIds(texts, dict, naming)
    ensures unresolved == UnresolvedTexts(texts, dict)
  {
    mustIds, unresolved := known, [];
    for i := 0 to |texts|
      invariant mustIds == known + ResolvedIds(texts[..i], dict, naming)
      invariant unresolved == UnresolvedTexts(texts[..i], dict)
    {
      assert texts[..i + 1][..i] == texts[..i];
      match SelectMatch(texts[i], dict) {
        case Some(p) => mustIds := mustIds + {NameOf(p, naming)};
        case None => unresolved := unresolved + [texts[i]];
      }
    }
    assert texts[..|texts|] == texts;
  }

  method ResolveMusts(snapshot: Snapshot, dict: seq<StoredPlace>, naming: Naming)
    returns (base: Snapshot, mustIds: set<Id>)
    ensures MustsResolved(snapshot, dict, naming, base)
    ensures mustIds == MustIdsAfter(snapshot.requirements, dict, naming)
  {
    var originalIds := IdSetOf(snapshot.requirements, MustVisitIds);
    var originalTexts := TextsOf(snapshot.requirements, MustVisitTexts);
    var unresolved;
    mustIds, unresolved := ResolveTexts(originalTexts, originalIds, dict, naming);
    base := snapshot;
    if mustIds != originalIds || unresolved != originalTexts {
      base := WithMusts(snapshot, mustIds, unresolved);
      WithMustsResolves(snapshot, dict, naming, mustIds, unresolved);
    }
  }

  method BuildPlaces(dict: seq<StoredPlace>, mustIds: set<Id>, excluded: seq<Id>, naming: Naming)
    returns (r: Result<seq<PlanningPlace>, LoadError>)
    ensures r.Ok? ==> PlacesBuilt(dict, mustIds, excluded, naming, r.value)
    ensures r.Err? <==> SomeExcluded(dict, excluded, naming)
  {
    var places: seq<PlanningPlace> := [];
    for i := 0 to |dict|
      invariant |places| == i
      invariant forall j :: 0 <= j < i ==>
          places[j] == ToPlanning(dict[j], mustIds, naming) && NameOf(dict[j], naming) !in excluded
    {
      if NameOf(dict[i], naming) in excluded {
        return Err(ExcludedPlace(NameOf(dict[i], naming)));
      }
      places := places + [ToPlanning(dict[i], mustIds, naming)];
    }
    return Ok(places);
  }

  lemma ExclusionsKept(snapshot: Snapshot, dict: seq<StoredPlace>, naming: Naming, base: Snapshot)
    requires MustsResolved(snapshot, dict, naming, base)
    ensures IdsOf(base.requirements, ExcludedIds) == IdsOf(snapshot.requirements, ExcludedIds)
  {
    OtherFieldKept(snapshot, dict, naming, base, ExcludedIds);
    IdsOfSame(base.requirements, snapshot.requirements, ExcludedIds);
  }

  lemma IdsOfSame(a: Requirements, b: Requirements, f: Field)
    requires a[f] == b[f]
    ensures IdsOf(a, f) == IdsOf(b, f)
  {
  }

  lemma OtherFieldKept(snapshot: Snapshot, dict: seq<StoredPlace>, naming: Naming, base: Snapshot, f: Field)
    requires MustsResolved(snapshot, dict, naming, base) && f != MustVisitIds && f != MustVisitTexts
    ensures base.requirements[f] == snapshot.requirements[f]
  {
  }

  method LoadInput(snapshot: Snapshot, stored: seq<StoredPlace>, naming: Naming)
    returns (base: Snapshot, r: Result<seq<PlanningPlace>, LoadError>)
    ensures r.Ok? ==> InputPromise(snapshot, stored, naming, base, r.value)
    ensures r.Err? <==>
      SomeExcluded(ByProviderId(Filter(stored, IS_SELECTED)), IdsOf(snapshot.requirements, ExcludedIds), naming)
  {
    var dict := IndexByProviderId(Filter(stored, IS_SELECTED));
    var mustIds;
    base, mustIds := ResolveMusts(snapshot, dict, naming);
    ExclusionsKept(snapshot, dict, naming, base);
    r := BuildPlaces(dict, mustIds, IdsOf(base.requirements, ExcludedIds), naming);
  }

  // ---- from a draft to a snapshot -------------------------------------------------------------

  const DAY_PLACES: PlannedDay -> seq<PlanningPlace> := (day: PlannedDay) => day.places
  const DAY_SEGMENTS: PlannedDay -> seq<Segment> := (day: PlannedDay) => day.segments
  const SEGMENT_ID: Segment -> Id := (s: Segment) => s.id
  const COORDINATE_SYSTEM := "GCJ-02"
  const TO_PLACE: PlanningPlace -> Place := (p: PlanningPlace) =>
    Place(p.id, p.candidate.provider, p.candidate.providerPlaceId, p.candidate.name, p.candidate.address,
          p.candidate.district, p.candidate.longitude, p.candidate.latitude, COORDINATE_SYSTEM, p.candidate.rawCategory,
          p.candidate.category, p.candidate.semanticType, p.candidate.status)
  const FACT_REF: Weather -> WeatherRef := (w: Weather) => w.ref

  function RefsFor(day: PlannedDay, weather: seq<Weather>): seq<WeatherRef> {
    Map(Filter(weather, (w: Weather) => w.place in IdSet(day.places)), FACT_REF)
  }

  function ToDay(day: PlannedDay, weather: seq<Weather>): Day {
    Day(day.number, day.date, Map(day.places, PLANNING_ID),
        Map(day.segments, SEGMENT_ID), RefsFor(day, weather), day.notes)
  }

  /** The snapshot that `PlanningPersistenceService.commit` stores. */
  function PlanSnapshot(base: Snapshot, draft: Draft): (s: Snapshot)
    ensures s.requirements == base.requirements && s.enrichments == base.enrichments
  {
    base.(places := Map(Flatten(Map(draft.days, DAY_PLACES)), TO_PLACE),
          days := Map(draft.days, (day: PlannedDay) => ToDay(day, draft.weather)),
          segments := Flatten(Map(draft.days, DAY_SEGMENTS)),
          weather := draft.weather,
          warnings := draft.warnings)
  }
}
