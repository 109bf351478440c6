/** Where contents come from: what every edit and every plan of a run was computed from. */
module Provenance {
  import opened Wrappers
  import opened RequirementData
  import opened SnapshotData
  import opened Providers
  import opened Editing
  import opened Recompute
  import opened EditPipeline
  import opened EditTheorems
  import opened Database
  import opened Invariants
  import opened Protocol
  import opened Histories
  import opened StepContents
  import PlannerData
  import Planner
  import Planning
  import Arranging
  import PlanPersistence
  import PlanTheorems
  import PlanWellFormed

  // ---- genuine edits and plans ----------------------------------------------------------------

  /** The plan the editor makes of what it has read, ready to be executed. */
  ghost predicate EditorsPlan(seen: Snapshot, plan: EditPlan, intent: Intent, legs: DayLegs, forecasts: Forecasts) {
    && ValidIntent(intent) && FreshSegments(seen, legs)
    && plan.resolution.resolved && RecomputedPlan(seen, intent, legs, forecasts) == Ok(plan)
  }

  ghost predicate FromEditor(seen: Snapshot, plan: EditPlan) {
    exists intent, legs, forecasts :: EditorsPlan(seen, plan, intent, legs, forecasts)
  }

  /** What a feasible draft was computed from. */
  datatype Derivation = Derivation(
    stored: seq<PlanPersistence.StoredPlace>, naming: PlanPersistence.Naming, places: seq<PlannerData.PlanningPlace>,
    distance: Planner.Distance, preferred: Arranging.Preferred, legs: Planning.Legs, outlooks: PlannerData.Outlooks,
    arranged: Arranging.Schedule, dropped: multiset<PlannerData.PlanningPlace>)

  /** The planner's answer on the input loaded from what was read, with what it promises about that answer. */
  ghost predicate PlannersDraft(seen: Snapshot, loaded: Snapshot, draft: PlannerData.Draft, from: Derivation) {
    && PlanTheorems.PlannedFromInput(seen, from.stored, from.naming, loaded, from.places, from.distance,
                                     from.legs, from.outlooks, draft, from.arranged, from.dropped)
    && Planning.Planned(loaded.requirements, from.places, from.distance, from.preferred, from.legs, from.outlooks)
       == PlannerData.PlanningResult(true, Some(draft), [])
    && PlanWellFormed.Injective(from.naming) && PlanWellFormed.KeyedByCandidate(from.stored)
    && PlanWellFormed.FreshLegs(from.legs, draft.repairAttempts)
  }

  ghost predicate FromPlanner(seen: Snapshot, loaded: Snapshot, draft: PlannerData.Draft) {
    exists from :: PlannersDraft(seen, loaded, draft, from)
  }

  /** The snapshot of a draft planned from `seen`. */
  ghost predicate IsPlanOf(seen: Snapshot, content: Snapshot) {
    exists loaded, draft :: FromPlanner(seen, loaded, draft) && content == PlanPersistence.PlanSnapshot(loaded, draft)
  }

  /** Edits and plans are what the editor and the planner made of the snapshot the job had read. */
  ghost predicate Genuine(w: World, step: Step)
    requires Allowed(w, step)
  {
    match step
    case DoExecute(j, plan, _, _, _) => plan.preview.Some? ==> FromEditor(w.jobs[j].seen, plan)
    case DoPlan(j, loaded, result, _, _) =>
      result.feasible && result.draft.Some? ==> FromPlanner(w.jobs[j].seen, loaded, result.draft.value)
    case _ => true
  }

  ghost predicate GenuineAt(ws: seq<World>, steps: seq<Step>, i: nat)
    requires i < |steps| < |ws|
  {
    Allowed(ws[i], steps[i]) && Genuine(ws[i], steps[i])
  }

  ghost predicate IsGenuineRun(ws: seq<World>, steps: seq<Step>) {
    IsRun(ws, steps) && forall i: nat {:trigger GenuineAt(ws, steps, i)} :: i < |steps| ==> GenuineAt(ws, steps, i)
  }

  // ---- the origin of every content ------------------------------------------------------------

  /** A direct edit is the editor's, of what its job had read, and needed no confirmation; a plan is the planner's. */
  ghost predicate VersionTraced(kind: RunKind, x: Version) {
    && (x.message.Fingerprint? ==>
          && kind == Operating && x.change == Changed
          && FromEditor(x.source, x.message.plan) && !x.message.plan.impact.confirm
          && x.message.plan.preview == Some(x.snapshot))
    && (kind == Planning ==> IsPlanOf(x.source, x.snapshot))
  }

  ghost predicate ProposalTraced(p: Proposal) {
    FromEditor(p.source, p.plan) && p.plan.impact.confirm && p.plan.preview == Some(p.preview)
  }

  ghost predicate Traced(db: Db) {
    && (forall v {:trigger db.versions[v]} :: v in db.versions ==>
          db.versions[v].run in db.runs && VersionTraced(db.runs[db.versions[v].run].kind, db.versions[v]))
    && (forall p {:trigger db.proposals[p]} :: p in db.proposals ==> ProposalTraced(db.proposals[p]))
  }

  lemma BroughtIsTraced(w: World, step: Step, kind: RunKind, x: Version)
    requires Allowed(w, step) && Genuine(w, step) && Brings(w, step, kind, x)
    ensures VersionTraced(kind, x)
  {
    hide EditWrites, FromEditor, FromPlanner, PlanPersistence.PlanSnapshot;
  }

  lemma OfferedIsTraced(w: World, step: Step, p: Proposal)
    requires Allowed(w, step) && Genuine(w, step) && Offers(w, step, p)
    ensures ProposalTraced(p)
  {
    hide FromEditor, FromPlanner;
  }

  lemma StepKeepsTraced(w: World, step: Step)
    requires Sound(w) && Allowed(w, step) && Genuine(w, step) && Traced(w.db)
    ensures Traced(Take(w, step).db)
  {
    hide FromEditor, Inv, PlanPersistence.PlanSnapshot, PlannersDraft, Take;
    var after := Take(w, step).db;
    StepKeeps(w, step);
    StepBrings(w, step);
    assert VersionsEvolve(w.db, after) && RunsEvolve(w.db, after) && ProposalsEvolve(w.db, after);
    forall v | v in after.versions
      ensures after.versions[v].run in after.runs
      ensures VersionTraced(after.runs[after.versions[v].run].kind, after.versions[v])
    {
      if v in w.db.versions {
        assert after.versions[v] == w.db.versions[v];
      } else {
        BroughtIsTraced(w, step, after.runs[after.versions[v].run].kind, after.versions[v]);
      }
    }
    forall p | p in after.proposals ensures ProposalTraced(after.proposals[p]) {
      if p in w.db.proposals {
        assert ProposalEvolves(w.db.proposals[p], after.proposals[p]);
      } else {
        OfferedIsTraced(w, step, after.proposals[p]);
      }
    }
  }

  lemma {:induction false} AlwaysTraced(ws: seq<World>, steps: seq<Step>, i: nat)
    requires IsGenuineRun(ws, steps) && i < |ws|
    ensures Traced(ws[i].db)
  {
    hide PlannersDraft, Sound, Take, VersionTraced;
    if i > 0 {
      AlwaysTraced(ws, steps, i - 1);
      AlwaysSound(ws, steps, i - 1);
      assert StepAt(ws, steps, i - 1) && GenuineAt(ws, steps, i - 1);
      StepKeepsTraced(ws[i - 1], steps[i - 1]);
    }
  }

  /** The version is the edit its record names, made by the editor of the parent's snapshot. */
  ghost predicate IsEditOfParent(db: Db, x: Version, plan: EditPlan) {
    FromEditor(SnapshotAt(db, x.parent), plan) && plan.preview == Some(x.snapshot)
    && DaysUnchanged(SnapshotAt(db, x.parent), x.snapshot, plan.impact.days)
  }

  /** The version carries the accepted proposal its run was made for. */
  ghost predicate IsAcceptedEdit(db: Db, x: Version, proposal: Option<Id>) {
    && proposal.Some? && proposal.value in db.proposals
    && db.proposals[proposal.value].status == Accepted && x.parent == Some(db.proposals[proposal.value].base)
    && IsEditOfParent(db, x, db.proposals[proposal.value].plan) && db.proposals[proposal.value].plan.impact.confirm
  }

  ghost predicate OperationOrigin(db: Db, x: Version, run: Run) {
    if x.change == Undone then UndoesParent(db, x)
    else
      match x.message
      case Fingerprint(plan) => IsEditOfParent(db, x, plan) && !plan.impact.confirm
      case UserText(_) => false
      case NoMessage => IsAcceptedEdit(db, x, run.proposal)
  }

  /** What each kind of job commits, in terms of the parent's snapshot and of what is on record. */
  ghost predicate OriginKnown(db: Db, x: Version) {
    var before := SnapshotAt(db, x.parent);
    && x.run in db.runs
    && match db.runs[x.run].kind
       case Creating => x.snapshot == EMPTY_SNAPSHOT
       case Refining => x.snapshot == before.(requirements := x.snapshot.requirements)
       case Enriching => x.snapshot == before.(enrichments := x.snapshot.enrichments)
       case Planning => IsPlanOf(before, x.snapshot)
       case Operating => OperationOrigin(db, x, db.runs[x.run])
  }

  lemma DirectEditHasItsOrigin(db: Db, v: Id)
    requires Inv(db) && Traced(db) && v in db.versions && db.versions[v].run in db.runs
    requires db.versions[v].message.Fingerprint?
    ensures db.runs[db.versions[v].run].kind == Operating && db.versions[v].change == Changed
    ensures IsEditOfParent(db, db.versions[v], db.versions[v].message.plan)
    ensures !db.versions[v].message.plan.impact.confirm
  {
    hide DaysUnchanged, FromEditor, IsPlanOf, Pages;
    assert VersionOk(db, v) && ContentOk(db, v);
    assert VersionTraced(db.runs[db.versions[v].run].kind, db.versions[v]);
  }

  lemma AcceptedEditHasItsOrigin(db: Db, v: Id)
    requires Inv(db) && Traced(db) && v in db.versions && db.versions[v].run in db.runs
    requires db.runs[db.versions[v].run].kind == Operating && db.versions[v].change == Changed
    requires db.versions[v].message == NoMessage
    ensures IsAcceptedEdit(db, db.versions[v], db.runs[db.versions[v].run].proposal)
  {
    hide DaysUnchanged, FromEditor, Pages, VersionTraced;
    var x := db.versions[v];
    var run := db.runs[x.run];
    assert VersionOk(db, v) && ContentOk(db, v) && RunOk(db, x.run);
    assert ProposalOk(db, run.proposal.value);
    var p := db.proposals[run.proposal.value];
    assert ProposalTraced(p) && AcceptedAs(db, p, v);
  }

  lemma OriginIsKnown(db: Db, v: Id)
    requires Inv(db) && Traced(db) && v in db.versions
    ensures OriginKnown(db, db.versions[v])
  {
    hide DaysUnchanged, FromEditor, IsPlanOf, PageOk;
    var x := db.versions[v];
    assert VersionOk(db, v) && ContentOk(db, v);
    assert VersionTraced(db.runs[x.run].kind, x);
    if db.runs[x.run].kind == Operating && x.change == Changed {
      if x.message.Fingerprint? {
        DirectEditHasItsOrigin(db, v);
      } else {
        AcceptedEditHasItsOrigin(db, v);
      }
    }
  }

  /**
   * Main result: in every genuine run each version is what its job makes of its parent's snapshot: a direct
   * edit and an accepted proposal are the recomputed preview of a valid, resolved intent on that snapshot,
   * a planning version is the snapshot of a draft planned from it, an undo is the parent's parent.
   */
  lemma EveryVersionHasItsOrigin(ws: seq<World>, steps: seq<Step>, i: nat, v: Id)
    requires IsGenuineRun(ws, steps) && i < |ws| && v in ws[i].db.versions
    ensures OriginKnown(ws[i].db, ws[i].db.versions[v])
  {
    hide FromEditor, GenuineAt, IsPlanOf, PageOk, StepAt;
    AlwaysTraced(ws, steps, i);
    AlwaysSound(ws, steps, i);
    OriginIsKnown(ws[i].db, v);
  }
}
