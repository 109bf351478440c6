/** What becomes of an edit request that is sent again: its segments get new ids, so its fingerprint may differ. */
module Retries {
  import opened Wrappers
  import opened Sequences
  import opened TextTools
  import opened RequirementData
  import opened SnapshotData
  import opened Providers
  import opened Editing
  import opened Recompute
  import opened Database
  import opened Protocol
  import opened Delivery
  import opened Provenance

  // ---- when two recomputations agree ----------------------------------------------------------

  /** The affected days of a preview carry no facts yet. */
  ghost predicate ClearedOn(p: Snapshot, touched: set<nat>) {
    forall day :: day in p.days && day.number in touched ==> day.segmentIds == [] && day.weatherRefs == []
  }

  /** No affected day has two places, so no leg is recomputed. */
  ghost predicate NoLegs(p: Snapshot, touched: set<nat>) {
    forall day :: day in p.days && day.number in touched ==> |day.placeIds| <= 1
  }

  /** The weather provider answers alike for every affected day that has an anchor. */
  ghost predicate SameForecasts(p: Snapshot, touched: set<nat>, f: Forecasts, f': Forecasts) {
    forall i :: 0 <= i < |p.days| && p.days[i].number in touched && Anchored(p.days[i]) ==> f(i) == f'(i)
  }

  /** `uuid4` again: the new segment ids are on no day of the given snapshot. */
  ghost predicate NewIds(legs: DayLegs, s: Snapshot) {
    forall day, i, k :: day in s.days ==> legs(i).segmentId(k) !in day.segmentIds
  }

  /** A preview whose affected days are cleared keeps all its facts beside the recomputed ones. */
  lemma RecomputedParts(p: Snapshot, touched: set<nat>, legs: DayLegs, f: Forecasts)
    requires ClearedOn(p, touched)
    ensures var r := Recomputed(p, touched, legs, f); var mode := ModeOf(p.requirements);
      && r.requirements == p.requirements && r.places == p.places && r.enrichments == p.enrichments
      && r.days == UpdatedDays(p.days, |p.days|, touched, legs, mode)
      && r.segments == p.segments + NewSegments(p.days, touched, legs, mode)
      && r.weather == p.weather + NewWeather(p.days, touched, f)
  {
    var noSegments, noWeather := SegmentsOn(p.days, touched), WeatherOn(p.days, touched);
    assert noSegments == {} && noWeather == {};
    FilterAll(p.segments, (g: Segment) => g.id !in noSegments);
    FilterAll(p.weather, (w: Weather) => w.ref !in noWeather);
  }

  lemma {:induction false} AccumulateNone<T>(n: nat, part: nat -> seq<T>)
    requires forall i: nat :: i < n ==> part(i) == []
    ensures Accumulate(n, part) == []
  {
    if n > 0 {
      AccumulateNone(n - 1, part);
    }
  }

  lemma {:induction false} AccumulateSame<T>(n: nat, part: nat -> seq<T>, part': nat -> seq<T>)
    requires forall i: nat :: i < n ==> |part(i)| == |part'(i)|
    ensures |Accumulate(n, part)| == |Accumulate(n, part')|
    ensures Accumulate(n, part) == Accumulate(n, part') <==> forall i: nat :: i < n ==> part(i) == part'(i)
  {
    if n > 0 {
      AccumulateSame(n - 1, part, part');
      var a, b := Accumulate(n - 1, part), Accumulate(n - 1, part');
      if Accumulate(n, part) == Accumulate(n, part') {
        assert Accumulate(n, part)[..|a|] == a && Accumulate(n, part')[..|b|] == b;
        assert Accumulate(n, part)[|a|..] == part(n - 1) && Accumulate(n, part')[|b|..] == part'(n - 1);
      }
    }
  }

  lemma NoLegsNoSegments(p: Snapshot, touched: set<nat>, legs: DayLegs, mode: string)
    requires NoLegs(p, touched)
    ensures NewSegments(p.days, touched, legs, mode) == []
  {
    var part := SegmentPart(p.days, touched, legs, mode);
    forall i: nat | i < |p.days| ensures part(i) == [] {
      assert p.days[i] in p.days;
      assert part(i) == SegmentsFor(p.days[i], touched, legs(i), mode);
    }
    AccumulateNone(|p.days|, part);
  }

  /** New weather facts agree exactly when the forecasts do. */
  lemma NewWeatherSameIff(p: Snapshot, touched: set<nat>, f: Forecasts, f': Forecasts)
    ensures |NewWeather(p.days, touched, f)| == |NewWeather(p.days, touched, f')|
    ensures NewWeather(p.days, touched, f) == NewWeather(p.days, touched, f') <==> SameForecasts(p, touched, f, f')
  {
    var part, part' := WeatherPart(p.days, touched, f), WeatherPart(p.days, touched, f');
    forall i: nat | i < |p.days|
      ensures |part(i)| == |part'(i)|
      ensures part(i) == part'(i) <==> (p.days[i].number in touched && Anchored(p.days[i]) ==> f(i) == f'(i))
    {
      assert part(i) == WeatherFor(p.days[i], touched, f(i)) && part'(i) == WeatherFor(p.days[i], touched, f'(i));
      if p.days[i].number in touched && Anchored(p.days[i]) {
        FactsDiffer(p.days[i].placeIds[0], p.days[i].date.value, f(i), f'(i));
      }
    }
    AccumulateSame(|p.days|, part, part');
  }

  /** A recorded fact determines the forecast it was drawn from. */
  lemma FactsDiffer(anchor: Id, date: int, a: Option<ForecastFact>, b: Option<ForecastFact>)
    ensures FactOf(anchor, date, a) == FactOf(anchor, date, b) <==> a == b
  {
  }

  lemma SameDays(p: Snapshot, p': Snapshot, touched: set<nat>, legs: DayLegs, legs': DayLegs, mode: string)
    requires ClearedOn(p, touched) && ClearedOn(p', touched)
    requires UpdatedDays(p.days, |p.days|, touched, legs, mode) == UpdatedDays(p'.days, |p'.days|, touched, legs', mode)
    ensures p.days == p'.days
  {
    var r, r' := UpdatedDays(p.days, |p.days|, touched, legs, mode), UpdatedDays(p'.days,
                   |p'.days|, touched, legs', mode);
    assert |p.days| == |p'.days|;
    forall i | 0 <= i < |p.days| ensures p.days[i] == p'.days[i] {
      assert r[i] == UpdatedDay(p.days[i], touched, legs(i), mode)
             && r'[i] == UpdatedDay(p'.days[i], touched, legs'(i), mode);
      assert p.days[i] in p.days && p'.days[i] in p'.days;
    }
  }

  /** An affected day with a leg names its first segment as the oracle does. */
  lemma LegsShow(p: Snapshot, touched: set<nat>, legs: DayLegs, f: Forecasts, legs': DayLegs, f': Forecasts)
    requires Recomputed(p, touched, legs, f).days == Recomputed(p, touched, legs', f').days
    requires NewIds(legs', Recomputed(p, touched, legs, f))
    ensures NoLegs(p, touched)
  {
    var r := Recomputed(p, touched, legs, f);
    forall day | day in p.days && day.number in touched ensures |day.placeIds| <= 1 {
      var i :| 0 <= i < |p.days| && p.days[i] == day;
      assert |r.days| == |p.days| && r.days[i] in r.days;
      if |day.placeIds| >= 2 {
        FirstSegmentId(p, touched, legs', f', i);
      }
    }
  }

  lemma FirstSegmentId(p: Snapshot, touched: set<nat>, legs: DayLegs, f: Forecasts, i: nat)
    requires i < |p.days| && p.days[i].number in touched && |p.days[i].placeIds| >= 2
    ensures i < |Recomputed(p, touched, legs, f).days|
    ensures legs(i).segmentId(0) in Recomputed(p, touched, legs, f).days[i].segmentIds
  {
    var day := Recomputed(p, touched, legs, f).days[i];
    assert day.segmentIds[0] == legs(i).segmentId(0);
  }

  /**
   * Two recomputations with unrelated segment ids agree exactly when they start from the same preview, recompute no leg
   * and hear the same forecasts.
   */
  lemma RecomputedSameIff(
    p: Snapshot, p': Snapshot, touched: set<nat>, legs: DayLegs, f: Forecasts, legs': DayLegs, f': Forecasts)
    requires ClearedOn(p, touched) && ClearedOn(p', touched)
    requires NewIds(legs', Recomputed(p, touched, legs, f))
    ensures Recomputed(p, touched, legs, f) == Recomputed(p', touched, legs', f')
       <==> p == p' && NoLegs(p, touched) && SameForecasts(p, touched, f, f')
  {
    RecomputedParts(p, touched, legs, f);
    RecomputedParts(p', touched, legs', f');
    if Recomputed(p, touched, legs, f) == Recomputed(p', touched, legs', f') {
      AgreeingRecomputations(p, p', touched, legs, f, legs', f');
    }
    if p == p' && NoLegs(p, touched) && SameForecasts(p, touched, f, f') {
      NoLegsNoSegments(p, touched, legs, ModeOf(p.requirements));
      NoLegsNoSegments(p, touched, legs', ModeOf(p.requirements));
      NewWeatherSameIff(p, touched, f, f');
      SameUpdates(p, touched, legs, legs', ModeOf(p.requirements));
    }
  }

  lemma SameUpdates(p: Snapshot, touched: set<nat>, legs: DayLegs, legs': DayLegs, mode: string)
    requires NoLegs(p, touched)
    ensures UpdatedDays(p.days, |p.days|, touched, legs, mode) == UpdatedDays(p.days, |p.days|, touched, legs', mode)
  {
    forall i | 0 <= i < |p.days|
      ensures UpdatedDay(p.days[i], touched, legs(i), mode) == UpdatedDay(p.days[i], touched, legs'(i), mode)
    {
      assert p.days[i] in p.days;
    }
  }

  lemma AgreeingRecomputations(
    p: Snapshot, p': Snapshot, touched: set<nat>, legs: DayLegs, f: Forecasts, legs': DayLegs, f': Forecasts)
    requires ClearedOn(p, touched) && ClearedOn(p', touched)
    requires NewIds(legs', Recomputed(p, touched, legs, f))
    requires Recomputed(p, touched, legs, f) == Recomputed(p', touched, legs', f')
    ensures p == p' && NoLegs(p, touched) && SameForecasts(p, touched, f, f')
  {
    RecomputedParts(p, touched, legs, f);
    RecomputedParts(p', touched, legs', f');
    var mode := ModeOf(p.requirements);
    SameDays(p, p', touched, legs, legs', mode);
    LegsShow(p, touched, legs, f, legs', f');
    NoLegsNoSegments(p, touched, legs, mode);
    NoLegsNoSegments(p', touched, legs', mode);
    SuffixesAgree(p.segments, NewSegments(p.days, touched, legs, mode),
                  p'.segments, NewSegments(p'.days, touched, legs', mode));
    NewWeatherSameIff(p, touched, f, f');
    SuffixesAgree(p.weather, NewWeather(p.days, touched, f), p'.weather, NewWeather(p'.days, touched, f'));
  }

  lemma SuffixesAgree<T>(a: seq<T>, b: seq<T>, a': seq<T>, b': seq<T>)
    requires a + b == a' + b' && |b| == |b'|
    ensures a == a' && b == b'
  {
    assert |a| == |a'|;
    assert (a + b)[..|a|] == a && (a' + b')[..|a'|] == a';
    assert (a + b)[|a|..] == b && (a' + b')[|a'|..] == b';
  }

  // ---- the request sent again -----------------------------------------------------------------

  /** The preview an edit is recomputed from. */
  function PreviewOf(seen: Snapshot, intent: Intent): Result<Snapshot, EditError> {
    Preview(seen, intent, Resolve(seen, intent), ImpactOf(seen, intent, Resolve(seen, intent)))
  }

  /**
   * The second request comes to the same: same wording of its target, same resolution,
   * impact, risks and preview, no leg to recompute and the same forecasts.
   */
  ghost predicate SameRequest(
    seen: Snapshot, intent: Intent, f: Forecasts, seen': Snapshot, intent': Intent, f': Forecasts)
  {
    var touched := Touched(ImpactOf(seen, intent, Resolve(seen, intent)).days);
    && Summary(intent') == Summary(intent)
    && Resolve(seen', intent') == Resolve(seen, intent)
    && ImpactOf(seen', intent', Resolve(seen', intent')) == ImpactOf(seen, intent, Resolve(seen, intent))
    && RisksOf(seen', intent', Resolve(seen', intent')) == RisksOf(seen, intent, Resolve(seen, intent))
    && PreviewOf(seen', intent') == PreviewOf(seen, intent)
    && (PreviewOf(seen, intent).Ok? ==>
          NoLegs(PreviewOf(seen, intent).value, touched)
          && SameForecasts(PreviewOf(seen, intent).value, touched, f, f'))
  }

  lemma PreviewIsCleared(s: Snapshot, intent: Intent, res: Resolution, impact: Impact)
    requires Preview(s, intent, res, impact).Ok?
    ensures ClearedOn(Preview(s, intent, res, impact).value, Touched(impact.days))
  {
    var touched := Touched(impact.days);
    var shape := Reshape(s, intent, res, TargetDay(impact)).value;
    var days := Cleared(shape.days, touched);
    forall day | day in days && day.number in touched ensures day.segmentIds == [] && day.weatherRefs == [] {
      var i :| 0 <= i < |days| && days[i] == day;
    }
  }

  lemma PlanParts(seen: Snapshot, plan: EditPlan, intent: Intent, legs: DayLegs, f: Forecasts)
    requires EditorsPlan(seen, plan, intent, legs, f)
    ensures PreviewOf(seen, intent).Ok? && ClearedOn(PreviewOf(seen, intent).value, Touched(plan.impact.days))
    ensures plan.resolution == Resolve(seen, intent) && plan.impact == ImpactOf(seen, intent, plan.resolution)
    ensures plan.risks == RisksOf(seen, intent, plan.resolution) && plan.summary == Summary(intent)
    ensures plan.preview == Some(Recomputed(PreviewOf(seen, intent).value, Touched(plan.impact.days), legs, f))
  {
    PreviewIsCleared(seen, intent, Resolve(seen, intent), ImpactOf(seen, intent, Resolve(seen, intent)));
  }

  lemma PlanIsPreviewed(seen: Snapshot, plan: EditPlan, intent: Intent, legs: DayLegs, f: Forecasts)
    requires EditorsPlan(seen, plan, intent, legs, f)
    ensures plan.resolution.resolved && plan.preview.Some?
  {
  }

  /** Two plans of the editor, the second with new segment ids, are equal exactly when the requests come to the same. */
  lemma SamePlanIff(
    seen: Snapshot, plan: EditPlan, intent: Intent, legs: DayLegs, f: Forecasts,
    seen': Snapshot, plan': EditPlan, intent': Intent, legs': DayLegs, f': Forecasts)
    requires EditorsPlan(seen, plan, intent, legs, f) && EditorsPlan(seen', plan', intent', legs', f')
    requires NewIds(legs', plan.preview.value)
    ensures plan' == plan <==> SameRequest(seen, intent, f, seen', intent', f')
  {
    PlanParts(seen, plan, intent, legs, f);
    PlanParts(seen', plan', intent', legs', f');
    if plan'.resolution == plan.resolution && plan'.impact == plan.impact {
      RecomputedSameIff(PreviewOf(seen, intent).value, PreviewOf(seen', intent').value,
                        Touched(plan.impact.days), legs, f, legs', f');
    }
  }

  /**
   * Main result: in every later state, an edit request sent again and planned anew
   * from the then current version is answered from its record exactly when it comes to
   * the same as the first one, and otherwise refused; nothing is written either way.
   */
  lemma RetryIsAnsweredIff(
    ws: seq<World>, steps: seq<Step>, i: nat, j: nat, reply: EditReply, intent: Intent, legs: DayLegs, f: Forecasts,
    current: (Id, Snapshot), plan': EditPlan, intent': Intent, legs': DayLegs, f': Forecasts, proposal': Id, id': Id)
    requires IsRun(ws, steps) && i < j < |ws| && steps[i].DoExecute? && Allowed(ws[i], steps[i])
    requires var s, job := steps[i], ws[i].jobs[steps[i].job];
      && Execute(ws[i].db, job.routebook, job.base.value, job.seen,
                 s.plan, s.operation, s.newProposal, s.newVersion).result
         == Ok(reply)
      && EditorsPlan(job.seen, s.plan, intent, legs, f)
      && LoadCurrent(ws[j].db, job.routebook) == Ok(current)
    requires EditorsPlan(current.1, plan', intent', legs', f') && NewIds(legs', steps[i].plan.preview.value)
    ensures steps[i].operation in ws[j].db.runs
    ensures var job := ws[i].jobs[steps[i].job];
      Execute(ws[j].db, job.routebook, current.0, current.1, plan', steps[i].operation, proposal', id')
      == Outcome(ws[j].db, if SameRequest(job.seen, intent, f, current.1, intent', f')
                           then Ok(EditReply(reply.proposal, ws[j].db.runs[steps[i].operation].result, true))
                           else Err(IdempotencyConflict))
  {
    hide EditorsPlan, SameRequest, NewIds, LoadCurrent, Execute, StepAt;
    var job := ws[i].jobs[steps[i].job];
    PlanIsPreviewed(current.1, plan', intent', legs', f');
    SamePlanIff(job.seen, steps[i].plan, intent, legs, f, current.1, plan', intent', legs', f');
    RepeatedOperation(ws, steps, i, j, reply, job.routebook, current.0, current.1, plan', proposal', id');
  }

  lemma ResolvedAlike(seen: Snapshot, intent: Intent, day: string)
    requires Given(intent.day) && day != "" && ParseDay(day) == ParseDay(intent.day.value)
    ensures Resolve(seen, intent.(day := Some(day))) == Resolve(seen, intent)
  {
  }

  lemma ImpactAlike(seen: Snapshot, intent: Intent, res: Resolution, day: Option<string>)
    ensures ImpactOf(seen, intent.(day := day), res) == ImpactOf(seen, intent, res)
    ensures RisksOf(seen, intent.(day := day), res) == RisksOf(seen, intent, res)
  {
    assert AffectedList(seen, intent.(day := day), res) == AffectedList(seen, intent, res);
  }

  lemma ShapedAlike(seen: Snapshot, intent: Intent, res: Resolution, number: nat, day: Option<string>)
    ensures Reshape(seen, intent.(day := day), res, number) == Reshape(seen, intent, res, number)
  {
  }

  /** Another text for the same day changes nothing but the summary. */
  lemma RewordedDay(seen: Snapshot, intent: Intent, day: string)
    requires Given(intent.day) && day != "" && ParseDay(day) == ParseDay(intent.day.value)
    ensures var reworded := intent.(day := Some(day)); var res := Resolve(seen, intent);
      && Resolve(seen, reworded) == res
      && ImpactOf(seen, reworded, res) == ImpactOf(seen, intent, res)
      && RisksOf(seen, reworded, res) == RisksOf(seen, intent, res)
      && PreviewOf(seen, reworded) == PreviewOf(seen, intent)
  {
    var res := Resolve(seen, intent);
    ResolvedAlike(seen, intent, day);
    ImpactAlike(seen, intent, res, Some(day));
    ShapedAlike(seen, intent, res, TargetDay(ImpactOf(seen, intent, res)), Some(day));
  }

  /** The text for day 1 with the digit, and with the numeral. */
  const FIRST_DAY := "\U{7B2C}1\U{5929}"
  const FIRST_DAY_IN_WORDS := "\U{7B2C}\U{4E00}\U{5929}"

  const REORDER_FIRST_DAY := Intent(EditDay, Some(FIRST_DAY), None, None, None)

  /**
   * The same edit of day 1, asked for in other words, has the same resolution, impact,
   * risks and preview, and still is another request: the summary keeps the user's words.
   */
  lemma OtherWordsAreAnotherRequest(seen: Snapshot, f: Forecasts)
    ensures ValidIntent(REORDER_FIRST_DAY) && ParseDay(FIRST_DAY_IN_WORDS) == ParseDay(FIRST_DAY) == Some(1)
    ensures var reworded := REORDER_FIRST_DAY.(day := Some(FIRST_DAY_IN_WORDS));
      && Resolve(seen, reworded) == Resolve(seen, REORDER_FIRST_DAY)
      && PreviewOf(seen, reworded) == PreviewOf(seen, REORDER_FIRST_DAY)
      && !SameRequest(seen, REORDER_FIRST_DAY, f, seen, reworded, f)
  {
    FirstDayParses();
    RewordedDay(seen, REORDER_FIRST_DAY, FIRST_DAY_IN_WORDS);
    FirstDaySummaries();
  }

  lemma FirstDayParses()
    ensures ParseDay(FIRST_DAY) == Some(1) && ParseDay(FIRST_DAY_IN_WORDS) == Some(1)
  {
    assert Strip(FIRST_DAY) == FIRST_DAY && Strip(FIRST_DAY_IN_WORDS) == FIRST_DAY_IN_WORDS;
    assert FIRST_DAY[1..][1] == DAY_MARK && FIRST_DAY_IN_WORDS[1..][1] == DAY_MARK;
  }

  lemma FirstDaySummaries()
    ensures Summary(REORDER_FIRST_DAY) != Summary(REORDER_FIRST_DAY.(day := Some(FIRST_DAY_IN_WORDS)))
  {
    var digit, words := "edit_day: " + FIRST_DAY, "edit_day: " + FIRST_DAY_IN_WORDS;
    assert Strip(digit) == digit && Strip(words) == words;
    assert "edit_day" + ": " + FIRST_DAY == digit && "edit_day" + ": " + FIRST_DAY_IN_WORDS == words;
    assert digit[11] == '1' && words[11] == '\U{4E00}';
  }
}
