/** Editing, planning and the version protocol together: which runs keep every itinerary well formed. */
module Itineraries {
  import opened RequirementData
  import opened SnapshotData
  import opened Providers
  import opened Editing
  import opened Recompute
  import opened EditTheorems
  import opened EditGuarantees
  import opened EditGuard
  import opened EditPublication
  import opened FinalChecks
  import opened Database
  import opened Invariants
  import opened Protocol
  import opened ProposalRuns
  import opened StepContents
  import opened Provenance
  import PlannerData
  import PlanPersistence
  import PlanWellFormed

  // ---- well-formed itineraries ----------------------------------------------------------------

  /** Everything that is, or may become, the content of a version is well formed. */
  ghost predicate AllWF(db: Db) {
    && (forall v :: v in db.versions ==> WF(db.versions[v].snapshot))
    && (forall p :: p in db.proposals ==> WF(db.proposals[p].preview))
  }

  /** The plan is the editor's for an intent that can be applied to what was read. */
  ghost predicate AppliedPlan(seen: Snapshot, plan: EditPlan) {
    exists intent, legs, forecasts ::
      EditorsPlan(seen, plan, intent, legs, forecasts) && Applicable(seen, intent, plan.resolution)
  }

  /** If the step is an edit that writes, the edit was applicable to what its job had read. */
  ghost predicate WritesApplicably(w: World, step: Step)
    requires Allowed(w, step)
  {
    step.DoExecute? && EditWrites(w, step) ==> AppliedPlan(w.jobs[step.job].seen, step.plan)
  }

  lemma SeenIsWF(db: Db, job: Job)
    requires JobOk(db, job) && AllWF(db)
    ensures WF(job.seen)
  {
    EmptyIsWF();
  }

  lemma EmptyIsWF()
    ensures WF(EMPTY_SNAPSHOT)
  {
  }

  /** Requirements and enrichments play no part in well-formedness. */
  lemma SameItinerary(s: Snapshot, t: Snapshot)
    requires WF(s) && t.places == s.places && t.days == s.days && t.segments == s.segments && t.weather == s.weather
    ensures WF(t)
  {
    forall i | 0 <= i < |t.days| ensures DayGrounded(t, t.days[i]) {
      assert DayGrounded(s, s.days[i]);
    }
  }

  lemma PlanIsWF(seen: Snapshot, loaded: Snapshot, draft: PlannerData.Draft)
    requires FromPlanner(seen, loaded, draft)
    ensures WF(PlanPersistence.PlanSnapshot(loaded, draft))
  {
    var from :| PlannersDraft(seen, loaded, draft, from);
    PlanWellFormed.CommittedPlanIsWF(seen, from.stored, from.naming, loaded, from.places, from.distance, from.legs,
                                     from.outlooks, draft, from.arranged, from.dropped);
  }

  lemma AppliedPlanIsWF(seen: Snapshot, plan: EditPlan)
    requires WF(seen) && AppliedPlan(seen, plan)
    ensures plan.preview.Some? && WF(plan.preview.value)
  {
    var intent, legs, forecasts :| EditorsPlan(seen, plan, intent, legs, forecasts)
                                   && Applicable(seen, intent, plan.resolution);
    ApplicableEditIsDelivered(seen, intent, legs, forecasts);
  }

  /** The edit of a guarded, well-formed preview was applicable. */
  lemma GuardedPlanIsApplied(seen: Snapshot, plan: EditPlan)
    requires WF(seen) && FromEditor(seen, plan) && plan.preview.Some?
    requires DaysUnchanged(seen, plan.preview.value, plan.impact.days) && WF(plan.preview.value)
    ensures AppliedPlan(seen, plan)
  {
    var intent, legs, forecasts :| EditorsPlan(seen, plan, intent, legs, forecasts);
    PassedIsWFIffApplicable(seen, intent, legs, forecasts);
    assert EditorsPlan(seen, plan, intent, legs, forecasts) && Applicable(seen, intent, plan.resolution);
  }

  lemma BroughtIsWF(w: World, step: Step, kind: RunKind, x: Version)
    requires Sound(w) && Allowed(w, step) && Genuine(w, step) && WritesApplicably(w, step) && AllWF(w.db)
    requires Brings(w, step, kind, x)
    ensures WF(x.snapshot)
  {
    hide FromEditor, FromPlanner, AppliedPlan, EditorsPlan, PlannersDraft, Inv, JobOk, WF, Take, EditWrites;
    EmptyIsWF();
    if step.DoRequirements? || step.DoEnrichments? || step.DoExecute? {
      JobRead(w, step.job);
      SeenIsWF(w.db, w.jobs[step.job]);
      if step.DoExecute? {
        AppliedPlanIsWF(w.jobs[step.job].seen, step.plan);
      } else {
        SameItinerary(w.jobs[step.job].seen, x.snapshot);
      }
    } else if step.DoPlan? {
      PlanIsWF(w.jobs[step.job].seen, step.loaded, step.result.draft.value);
    }
  }

  lemma OfferedIsWF(w: World, step: Step, p: Proposal)
    requires Sound(w) && Allowed(w, step) && WritesApplicably(w, step) && AllWF(w.db)
    requires Offers(w, step, p)
    ensures WF(p.preview)
  {
    hide AppliedPlan, EditorsPlan, Inv, JobOk, WF;
    JobRead(w, step.job);
    SeenIsWF(w.db, w.jobs[step.job]);
    AppliedPlanIsWF(w.jobs[step.job].seen, step.plan);
  }

  lemma StepKeepsWF(w: World, step: Step)
    requires Sound(w) && Allowed(w, step) && Genuine(w, step) && WritesApplicably(w, step) && AllWF(w.db)
    ensures AllWF(Take(w, step).db)
  {
    hide FromEditor, FromPlanner, AppliedPlan, Inv, Take, WF, Brings, Offers;
    var after := Take(w, step).db;
    StepKeeps(w, step);
    StepBrings(w, step);
    assert VersionsEvolve(w.db, after) && ProposalsEvolve(w.db, after);
    forall v | v in after.versions ensures WF(after.versions[v].snapshot) {
      if v in w.db.versions {
        assert after.versions[v] == w.db.versions[v];
      } else {
        BroughtIsWF(w, step, after.runs[after.versions[v].run].kind, after.versions[v]);
      }
    }
    forall p | p in after.proposals ensures WF(after.proposals[p].preview) {
      if p in w.db.proposals {
        assert ProposalEvolves(w.db.proposals[p], after.proposals[p]);
      } else {
        OfferedIsWF(w, step, after.proposals[p]);
      }
    }
  }

  lemma WFAllAlong(a: Db, b: Db)
    requires Evolves(a, b) && AllWF(b)
    ensures AllWF(a)
  {
    assert VersionsEvolve(a, b) && ProposalsEvolve(a, b);
    forall p | p in a.proposals ensures WF(a.proposals[p].preview) {
      assert ProposalEvolves(a.proposals[p], b.proposals[p]);
    }
  }

  /** What an edit writes is its preview. */
  lemma WrittenIsPreview(w: World, step: Step)
    requires Sound(w) && Allowed(w, step) && step.DoExecute? && EditWrites(w, step) && AllWF(Take(w, step).db)
    ensures WF(step.plan.preview.value)
  {
    var job := w.jobs[step.job];
    assert JobOk(w.db, w.jobs[step.job]);
    ExecuteWritesIff(w.db, job.routebook, job.base.value, job.seen, step.plan,
                     step.operation, step.newProposal, step.newVersion);
    var after := Take(w, step).db;
    if step.plan.impact.confirm {
      assert step.newProposal in after.proposals;
    } else {
      assert step.newVersion in after.versions;
    }
  }

  lemma StepNeedsApplicable(w: World, step: Step)
    requires Sound(w) && Allowed(w, step) && Genuine(w, step) && AllWF(Take(w, step).db)
    ensures WritesApplicably(w, step)
  {
    hide EditorsPlan, FromPlanner, Inv, Take;
    if step.DoExecute? && EditWrites(w, step) {
      StepKeeps(w, step);
      WFAllAlong(w.db, Take(w, step).db);
      assert JobOk(w.db, w.jobs[step.job]);
      SeenIsWF(w.db, w.jobs[step.job]);
      WrittenIsPreview(w, step);
      GuardedPlanIsApplied(w.jobs[step.job].seen, step.plan);
    }
  }

  /** One step keeps all itineraries well formed exactly when it writes no inapplicable edit. */
  lemma StepKeepsWFIff(w: World, step: Step)
    requires Sound(w) && Allowed(w, step) && Genuine(w, step)
    ensures AllWF(Take(w, step).db) <==> AllWF(w.db) && WritesApplicably(w, step)
  {
    hide EditorsPlan, Inv, JobOk, Take, WF;
    StepKeeps(w, step);
    if AllWF(Take(w, step).db) {
      WFAllAlong(w.db, Take(w, step).db);
      StepNeedsApplicable(w, step);
    } else if AllWF(w.db) && WritesApplicably(w, step) {
      StepKeepsWF(w, step);
    }
  }

  ghost predicate AppliesAt(ws: seq<World>, steps: seq<Step>, i: nat)
    requires i < |steps| < |ws|
  {
    Allowed(ws[i], steps[i]) && WritesApplicably(ws[i], steps[i])
  }

  ghost predicate AppliesUpTo(ws: seq<World>, steps: seq<Step>, n: nat)
    requires n <= |steps| < |ws|
  {
    forall i: nat {:trigger AppliesAt(ws, steps, i)} :: i < n ==> AppliesAt(ws, steps, i)
  }

  lemma RunStepKeepsWFIff(ws: seq<World>, steps: seq<Step>, i: nat)
    requires IsGenuineRun(ws, steps) && i < |steps|
    ensures AllWF(ws[i + 1].db) <==> AllWF(ws[i].db) && AppliesAt(ws, steps, i)
  {
    hide AllWF, EditorsPlan, Inv, PlannersDraft, Take, WritesApplicably;
    AlwaysSound(ws, steps, i);
    assert StepAt(ws, steps, i) && GenuineAt(ws, steps, i);
    StepKeepsWFIff(ws[i], steps[i]);
  }

  lemma {:induction false} ApplicableKeepsWF(ws: seq<World>, steps: seq<Step>, n: nat)
    requires IsGenuineRun(ws, steps) && n <= |steps| && AppliesUpTo(ws, steps, n)
    ensures AllWF(ws[n].db)
  {
    hide AppliesAt, GenuineAt, StepAt;
    if n > 0 {
      assert AppliesAt(ws, steps, n - 1);
      ApplicableKeepsWF(ws, steps, n - 1);
      RunStepKeepsWFIff(ws, steps, n - 1);
    }
  }

  lemma WFNeedsApplicable(ws: seq<World>, steps: seq<Step>, n: nat, i: nat)
    requires IsGenuineRun(ws, steps) && i < n <= |steps| && AllWF(ws[n].db)
    ensures AppliesAt(ws, steps, i)
  {
    hide AppliesAt, GenuineAt, StepAt;
    NothingTakenBack(ws, steps, i + 1, n);
    WFAllAlong(ws[i + 1].db, ws[n].db);
    RunStepKeepsWFIff(ws, steps, i);
  }

  /**
   * Main result: in every run of edits, plans, requirement changes, enrichments,
   * decisions and undos, all versions and proposed previews are well-formed itineraries
   * if and only if every edit that wrote was applicable to what its job had read.
   */
  lemma WellFormedIffApplicable(ws: seq<World>, steps: seq<Step>, n: nat)
    requires IsGenuineRun(ws, steps) && n <= |steps|
    ensures AllWF(ws[n].db) <==> AppliesUpTo(ws, steps, n)
  {
    hide GenuineAt, StepAt, WritesApplicably;
    if AppliesUpTo(ws, steps, n) {
      ApplicableKeepsWF(ws, steps, n);
    }
    if AllWF(ws[n].db) {
      forall i: nat | i < n ensures AppliesAt(ws, steps, i) {
        WFNeedsApplicable(ws, steps, n, i);
      }
    }
  }

  /** A plan of the editor goes through the guard exactly under the guard's condition. */
  lemma PlanPassesIff(seen: Snapshot, plan: EditPlan, intent: Intent, legs: DayLegs, forecasts: Forecasts)
    requires WF(seen) && EditorsPlan(seen, plan, intent, legs, forecasts)
    ensures plan.preview.Some? && plan.resolution.resolved
    ensures DaysUnchanged(seen, plan.preview.value, plan.impact.days)
       <==> Passes(seen, intent, plan.resolution, forecasts)
  {
    hide WF, Passes, DaysUnchanged, ImpactOf, Preview, Recomputed;
    GuardPassesIff(seen, intent, legs, forecasts);
  }

  /**
   * While itineraries are well formed, a new edit writes exactly
   * when it passes by the guard's condition and is not outdated.
   */
  lemma EditWritesIff(
    ws: seq<World>, steps: seq<Step>, i: nat, intent: Intent, legs: DayLegs, forecasts: Forecasts)
    requires IsGenuineRun(ws, steps) && i < |steps| && steps[i].DoExecute? && Allowed(ws[i], steps[i])
    requires AllWF(ws[i].db) && EditorsPlan(ws[i].jobs[steps[i].job].seen, steps[i].plan, intent, legs, forecasts)
    ensures var job := ws[i].jobs[steps[i].job]; var plan := steps[i].plan;
      EditWrites(ws[i], steps[i]) <==>
        && steps[i].operation !in ws[i].db.runs
        && Passes(job.seen, intent, plan.resolution, forecasts)
        && (plan.impact.confirm
            || (Live(ws[i].db, job.routebook) && ws[i].db.routebooks[job.routebook].current == job.base))
  {
    hide EditorsPlan, Passes, Inv, Take, StepAt, GenuineAt, WF;
    AlwaysSound(ws, steps, i);
    JobRead(ws[i], steps[i].job);
    var job := ws[i].jobs[steps[i].job];
    SeenIsWF(ws[i].db, job);
    PlanPassesIff(job.seen, steps[i].plan, intent, legs, forecasts);
  }

  // ---- edits without confirmation -------------------------------------------------------------

  /** Same days in number, same requirements, no must-visit lost, and at most one day that looks different. */
  ghost predicate SmallChange(before: Snapshot, after: Snapshot) {
    && |after.days| == |before.days| && after.requirements == before.requirements
    && KeepsMusts(before, after)
    && exists n: nat :: OnlyDayChanged(before, after, n)
  }

  lemma UnconfirmedPlanIsSmall(seen: Snapshot, plan: EditPlan)
    requires FromEditor(seen, plan) && plan.preview.Some? && !plan.impact.confirm
    requires DaysUnchanged(seen, plan.preview.value, plan.impact.days)
    ensures SmallChange(seen, plan.preview.value)
  {
    var intent, legs, forecasts :| EditorsPlan(seen, plan, intent, legs, forecasts);
    UnconfirmedEditIsSafe(seen, intent, legs, forecasts);
    GuardedChangeIsLocal(seen, plan.preview.value, plan.impact.days);
  }

  /**
   * Main result: in every run, whatever is committed without asking for confirmation keeps the number of days,
   * the requirements and the scheduled must-visits of the version before it, and changes at most one of its days.
   */
  lemma DirectEditsAreSmall(ws: seq<World>, steps: seq<Step>, i: nat, v: Id)
    requires IsGenuineRun(ws, steps) && i < |ws| && v in ws[i].db.versions && ws[i].db.versions[v].message.Fingerprint?
    ensures SmallChange(SnapshotAt(ws[i].db, ws[i].db.versions[v].parent), ws[i].db.versions[v].snapshot)
  {
    hide GenuineAt, PageOk, StepAt, VersionTraced;
    AlwaysTraced(ws, steps, i);
    AlwaysSound(ws, steps, i);
    assert ws[i].db.versions[v].run in ws[i].db.runs;
    DirectEditHasItsOrigin(ws[i].db, v);
    UnconfirmedPlanIsSmall(SnapshotAt(ws[i].db, ws[i].db.versions[v].parent), ws[i].db.versions[v].message.plan);
  }

  // ---- numbered days, and publication after direct edits --------------------------------------

  /** Everything that is, or may become, the content of a version numbers its days 1..n. */
  ghost predicate AllNumbered(db: Db) {
    && (forall v :: v in db.versions ==> Numbered(db.versions[v].snapshot.days))
    && (forall p :: p in db.proposals ==> Numbered(db.proposals[p].preview.days))
  }

  lemma SeenIsNumbered(db: Db, job: Job)
    requires JobOk(db, job) && AllNumbered(db)
    ensures Numbered(job.seen.days)
  {
  }

  lemma EditorsPlanIsNumbered(seen: Snapshot, plan: EditPlan)
    requires Numbered(seen.days) && FromEditor(seen, plan) && plan.preview.Some?
    ensures Numbered(plan.preview.value.days)
  {
    hide Numbered, Resolve, Edited;
    var intent, legs, forecasts :| EditorsPlan(seen, plan, intent, legs, forecasts);
    EditedIsNumbered(seen, intent, Resolve(seen, intent), legs, forecasts);
  }

  lemma PlanIsNumbered(seen: Snapshot, loaded: Snapshot, draft: PlannerData.Draft)
    requires FromPlanner(seen, loaded, draft)
    ensures Numbered(PlanPersistence.PlanSnapshot(loaded, draft).days)
  {
    hide FromPlanner, PlanPersistence.PlanSnapshot;
    PlanIsWF(seen, loaded, draft);
  }

  lemma BroughtIsNumbered(w: World, step: Step, kind: RunKind, x: Version)
    requires Sound(w) && Allowed(w, step) && Genuine(w, step) && AllNumbered(w.db) && Brings(w, step, kind, x)
    ensures Numbered(x.snapshot.days)
  {
    hide FromEditor, FromPlanner, EditorsPlan, PlannersDraft, Inv, JobOk, Numbered, Take, EditWrites;
    NoDaysNumbered();
    if step.DoRequirements? || step.DoEnrichments? || step.DoExecute? {
      JobRead(w, step.job);
      SeenIsNumbered(w.db, w.jobs[step.job]);
      if step.DoExecute? {
        EditorsPlanIsNumbered(w.jobs[step.job].seen, step.plan);
      }
    } else if step.DoPlan? {
      PlanIsNumbered(w.jobs[step.job].seen, step.loaded, step.result.draft.value);
    }
  }

  lemma NoDaysNumbered()
    ensures Numbered(EMPTY_SNAPSHOT.days)
  {
  }

  lemma OfferedIsNumbered(w: World, step: Step, p: Proposal)
    requires Sound(w) && Allowed(w, step) && Genuine(w, step) && AllNumbered(w.db) && Offers(w, step, p)
    ensures Numbered(p.preview.days)
  {
    hide FromEditor, FromPlanner, EditorsPlan, PlannersDraft, Inv, JobOk, Numbered, Take, EditWrites;
    JobRead(w, step.job);
    SeenIsNumbered(w.db, w.jobs[step.job]);
    EditorsPlanIsNumbered(w.jobs[step.job].seen, step.plan);
  }

  lemma StepKeepsNumbers(w: World, step: Step)
    requires Sound(w) && Allowed(w, step) && Genuine(w, step) && AllNumbered(w.db)
    ensures AllNumbered(Take(w, step).db)
  {
    hide FromEditor, FromPlanner, EditorsPlan, PlannersDraft, Inv, Take, Numbered, Brings, Offers;
    var after := Take(w, step).db;
    StepKeeps(w, step);
    StepBrings(w, step);
    assert VersionsEvolve(w.db, after) && ProposalsEvolve(w.db, after);
    forall v | v in after.versions ensures Numbered(after.versions[v].snapshot.days) {
      if v in w.db.versions {
        assert after.versions[v] == w.db.versions[v];
      } else {
        BroughtIsNumbered(w, step, after.runs[after.versions[v].run].kind, after.versions[v]);
      }
    }
    forall p | p in after.proposals ensures Numbered(after.proposals[p].preview.days) {
      if p in w.db.proposals {
        assert ProposalEvolves(w.db.proposals[p], after.proposals[p]);
      } else {
        OfferedIsNumbered(w, step, after.proposals[p]);
      }
    }
  }

  /** In every run, whatever edits are made, every itinerary numbers its days 1..n. */
  lemma {:induction false} AlwaysNumbered(ws: seq<World>, steps: seq<Step>, i: nat)
    requires IsGenuineRun(ws, steps) && i < |ws|
    ensures AllNumbered(ws[i].db)
  {
    hide FromEditor, FromPlanner, EditorsPlan, PlannersDraft, Inv, Take, Numbered;
    if i > 0 {
      AlwaysNumbered(ws, steps, i - 1);
      AlwaysSound(ws, steps, i - 1);
      assert StepAt(ws, steps, i - 1) && GenuineAt(ws, steps, i - 1);
      StepKeepsNumbers(ws[i - 1], steps[i - 1]);
    }
  }

  lemma UnconfirmedPlanStaysPublishable(
    seen: Snapshot, plan: EditPlan, intent: Intent, legs: DayLegs, forecasts: Forecasts)
    requires Numbered(seen.days) && EditorsPlan(seen, plan, intent, legs, forecasts)
    requires plan.preview.Some? && !plan.impact.confirm && DaysUnchanged(seen, plan.preview.value, plan.impact.days)
    requires ValidateFinal(seen) == []
    ensures ValidateFinal(plan.preview.value) == [] <==> NewPlacePublishable(seen, intent)
  {
    hide Numbered, DaysUnchanged, ValidateFinal, NewPlacePublishable, Edited, ImpactOf, Resolve;
    GuardedEditStaysPublishable(seen, intent, legs, forecasts);
  }

  /**
   * Main result: in every run, a version that was committed without asking for confirmation on top of a publishable one
   * is publishable exactly when the place that its edit brings in is neither excluded nor merely proposed.
   */
  lemma DirectEditsStayPublishable(
    ws: seq<World>, steps: seq<Step>, i: nat, v: Id, intent: Intent, legs: DayLegs, forecasts: Forecasts)
    requires IsGenuineRun(ws, steps) && i < |ws| && v in ws[i].db.versions && ws[i].db.versions[v].message.Fingerprint?
    requires var x := ws[i].db.versions[v]; var before := SnapshotAt(ws[i].db, x.parent);
      EditorsPlan(before, x.message.plan, intent, legs, forecasts) && ValidateFinal(before) == []
    ensures ValidateFinal(ws[i].db.versions[v].snapshot) == []
       <==> NewPlacePublishable(SnapshotAt(ws[i].db, ws[i].db.versions[v].parent), intent)
  {
    hide GenuineAt, PageOk, StepAt, VersionTraced, EditorsPlan, ValidateFinal, NewPlacePublishable, Numbered;
    AlwaysTraced(ws, steps, i);
    AlwaysSound(ws, steps, i);
    AlwaysNumbered(ws, steps, i);
    NoDaysNumbered();
    assert ws[i].db.versions[v].run in ws[i].db.runs;
    DirectEditHasItsOrigin(ws[i].db, v);
    UnconfirmedPlanStaysPublishable(SnapshotAt(ws[i].db, ws[i].db.versions[v].parent),
                                    ws[i].db.versions[v].message.plan, intent, legs, forecasts);
  }
}
