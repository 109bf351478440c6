/** The contents each step of the protocol brings in: at most one version or one proposal, and which one. */
module StepContents {
  import opened Wrappers
  import opened RequirementData
  import opened SnapshotData
  import opened Database
  import opened Invariants
  import opened Transactions
  import opened Protocol
  import opened ProposalRuns
  import PlannerData
  import PlanPersistence

  /** An edit step that writes a version or a proposal: its operation is new and may write. */
  ghost predicate EditWrites(w: World, step: Step)
    requires Allowed(w, step) && step.DoExecute?
  {
    var job := w.jobs[step.job];
    step.operation !in w.db.runs && MayWrite(w.db, job.routebook, job.base.value, job.seen, step.plan)
  }

  /** The only version a step may add, made by a run of the given kind. */
  ghost predicate Brings(w: World, step: Step, kind: RunKind, x: Version)
    requires Allowed(w, step)
  {
    match step
    case DoInitial(_, _) => kind == Creating && x.snapshot == EMPTY_SNAPSHOT && x.message == NoMessage
    case DoRequirements(j, requirements, text, _) =>
      kind == Refining && x.snapshot == w.jobs[j].seen.(requirements := requirements) && x.message == UserText(text)
    case DoPlan(j, loaded, result, _, _) =>
      && kind == Planning && result.feasible && result.draft.Some? && x.source == w.jobs[j].seen
         && x.message == NoMessage
      && x.snapshot == PlanPersistence.PlanSnapshot(loaded, result.draft.value)
    case DoEnrichments(j, enrichments, _) =>
      kind == Enriching && x.snapshot == w.jobs[j].seen.(enrichments := enrichments) && x.message == NoMessage
    case DoExecute(j, plan, _, _, _) =>
      && kind == Operating && EditWrites(w, step) && !plan.impact.confirm
      && x.source == w.jobs[j].seen && x.change == Changed && x.message == Fingerprint(plan)
         && plan.preview == Some(x.snapshot)
    case DoDecide(p, _, _) =>
      kind == Operating && p in w.db.proposals && x.snapshot == w.db.proposals[p].preview && x.message == NoMessage
    case DoUndo(_, _, _) =>
      kind == Operating && x.message == NoMessage
      && exists u :: u in w.db.versions && x.snapshot == w.db.versions[u].snapshot
    case _ => false
  }

  /** The only proposal a step may add. */
  ghost predicate Offers(w: World, step: Step, p: Proposal)
    requires Allowed(w, step)
  {
    && step.DoExecute? && EditWrites(w, step) && step.plan.impact.confirm
    && p.source == w.jobs[step.job].seen && p.plan == step.plan && step.plan.preview == Some(p.preview)
  }

  ghost predicate BringsOnly(w: World, step: Step, after: Db)
    requires Allowed(w, step)
  {
    && (forall v {:trigger after.versions[v]} :: v in after.versions && v !in w.db.versions ==>
          && after.versions[v].run in after.runs
          && Brings(w, step, after.runs[after.versions[v].run].kind, after.versions[v]))
    && (forall p {:trigger after.proposals[p]} ::
          p in after.proposals && p !in w.db.proposals ==> Offers(w, step, after.proposals[p]))
  }

  lemma NothingBrought(w: World, step: Step)
    requires Allowed(w, step)
    ensures BringsOnly(w, step, w.db)
  {
  }

  lemma RequirementsBring(w: World, step: Step)
    requires Sound(w) && Allowed(w, step) && step.DoRequirements?
    ensures BringsOnly(w, step, Next(w, step))
  {
    hide Inv, Commit;
    JobRead(w, step.job);
    NothingBrought(w, step);
    var job := w.jobs[step.job];
    var resolved := RequirementBase(w.db, job.routebook, job.base);
    if resolved.Ok? {
      CommitBrings(w.db,
                   Change(job.routebook, job.run.value, resolved.value, job.seen.(requirements := step.requirements),
                          job.seen, if resolved.value.Some? then Changed else Created, UserText(step.text)),
                   step.newVersion);
    }
  }

  lemma EnrichmentsBring(w: World, step: Step)
    requires Sound(w) && Allowed(w, step) && step.DoEnrichments?
    ensures BringsOnly(w, step, Next(w, step))
  {
    hide Commit, Finalize, Inv, PlanPersistence.PlanSnapshot;
    var job := w.jobs[step.job];
    assert JobOk(w.db, w.jobs[step.job]);
    if job.run.value in w.db.runs {
      CommitBrings(w.db, Change(job.routebook, job.run.value, w.db.runs[job.run.value].base,
          job.seen.(enrichments := step.enrichments),
                                job.seen, Changed, NoMessage), step.newVersion);
    }
  }

  /** A plan saved under its own run adds at most the version of that commit. */
  lemma SavedPlan(
    db: Db, rb: Id, run: Id, base: Id, seen: Snapshot, loaded: Snapshot,
    result: PlannerData.PlanningResult, spare: Id, id: Id, v: Id)
    requires run in db.runs
    ensures var after := Settle(db, SavePlan(db, rb, run, base, seen, loaded, result, spare, id)).db;
      && after.proposals == db.proposals
      && (v in after.versions && v !in db.versions ==>
            && result.feasible && result.draft.Some? && run in after.runs && after.runs[run].kind == db.runs[run].kind
            && after.versions[v]
               == NewVersion(Change(rb, run, Some(base), PlanPersistence.PlanSnapshot(loaded, result.draft.value),
                                    seen, Changed, NoMessage), NextNumber(db, Some(base))))
  {
    if result.feasible && result.draft.Some? {
      CommitBrings(db,
                   Change(rb, run, Some(base), PlanPersistence.PlanSnapshot(loaded, result.draft.value),
                          seen, Changed, NoMessage), id);
    }
  }

  lemma PlanBrings(w: World, step: Step)
    requires Sound(w) && Allowed(w, step) && step.DoPlan?
    ensures BringsOnly(w, step, Next(w, step))
  {
    var job := w.jobs[step.job];
    assert JobOk(w.db, w.jobs[step.job]);
    forall v | v in Next(w, step).versions && v !in w.db.versions
      ensures Next(w, step).versions[v].run in Next(w, step).runs
      ensures Brings(w, step, Next(w, step).runs[Next(w, step).versions[v].run].kind, Next(w, step).versions[v])
    {
      SavedPlan(w.db, job.routebook, job.run.value, job.base.value, job.seen, step.loaded, step.result, step.newRun,
          step.newVersion, v);
    }
    SavedPlan(w.db, job.routebook, job.run.value, job.base.value, job.seen,
              step.loaded, step.result, step.newRun, step.newVersion, step.newVersion);
  }

  lemma ExecuteBrings(w: World, step: Step)
    requires Sound(w) && Allowed(w, step) && step.DoExecute?
    ensures BringsOnly(w, step, Next(w, step))
  {
    hide Inv, Execute, Commit;
    JobRead(w, step.job);
    NothingBrought(w, step);
    var job := w.jobs[step.job];
    if step.operation in w.db.runs {
      KnownOperation(w.db, job.routebook, job.base.value, job.seen, step.plan,
                     step.operation, step.newProposal, step.newVersion);
    } else {
      OperationIsRun(w.db, job.routebook, job.base.value, job.seen, step.plan,
                     step.operation, step.newProposal, step.newVersion);
      ExecuteWritesIff(w.db, job.routebook, job.base.value, job.seen, step.plan,
                       step.operation, step.newProposal, step.newVersion);
    }
  }

  lemma DecisionBrings(w: World, step: Step)
    requires Sound(w) && Allowed(w, step) && step.DoDecide?
    ensures BringsOnly(w, step, Next(w, step))
  {
    hide PlanPersistence.PlanSnapshot, ResolveProposal, Execute, SavePlan, Linear, Contents, Pages;
    NothingBrought(w, step);
    DecisionOutcome(w.db, step.proposal, step.accept, step.newVersion);
    if step.proposal in w.db.proposals {
      assert ProposalOk(w.db, step.proposal);
    }
  }

  /** An undo adds at most the version that repeats its parent's parent. */
  lemma UndoneVersion(db: Db, rb: Id, operation: Id, id: Id, v: Id)
    requires Inv(db) && id !in db.versions
    ensures var after := Settle(db, Undo(db, rb, operation, id)).db;
      && after.proposals == db.proposals
      && (v in after.versions && v !in db.versions ==>
            && after.versions[v].run in after.runs && after.runs[after.versions[v].run].kind == Operating
            && after.versions[v].message == NoMessage
            && exists u :: u in db.versions && after.versions[v].snapshot == db.versions[u].snapshot)
  {
    hide EditContent;
    if operation !in db.runs {
      UndoOutcome(db, rb, operation, id);
      if Undoable(db, rb) {
        assert VersionOk(db, db.routebooks[rb].current.value);
      }
    }
  }

  lemma UndoBrings(w: World, step: Step)
    requires Sound(w) && Allowed(w, step) && step.DoUndo?
    ensures BringsOnly(w, step, Next(w, step))
  {
    forall v | v in Next(w, step).versions && v !in w.db.versions
      ensures Next(w, step).versions[v].run in Next(w, step).runs
      ensures Brings(w, step, Next(w, step).runs[Next(w, step).versions[v].run].kind, Next(w, step).versions[v])
    {
      UndoneVersion(w.db, step.rb, step.operation, step.newVersion, v);
    }
    UndoneVersion(w.db, step.rb, step.operation, step.newVersion, step.newVersion);
  }

  lemma InitialBrings(w: World, step: Step)
    requires Sound(w) && Allowed(w, step) && step.DoInitial?
    ensures BringsOnly(w, step, Next(w, step))
  {
    if step.run in w.db.runs {
      var base := w.db.runs[step.run].base;
      CommitBrings(w.db, Change(w.db.runs[step.run].routebook, step.run, base, EMPTY_SNAPSHOT, SnapshotAt(w.db, base),
          Created, NoMessage),
                   step.newVersion);
    }
  }

  lemma TakenDb(w: World, step: Step)
    requires Allowed(w, step)
    ensures Take(w, step).db == Next(w, step)
  {
    hide Create, Queue, CommitInitial, SaveRequirements, SavePlan, SaveEnrichments, Execute, ResolveProposal, Undo;
  }

  ghost predicate IsCommit(step: Step) {
    || step.DoInitial? || step.DoRequirements? || step.DoPlan? || step.DoEnrichments? || step.DoExecute?
    || step.DoDecide? || step.DoUndo?
  }

  /** The other steps add neither a version nor a proposal. */
  lemma OtherBrings(w: World, step: Step)
    requires Allowed(w, step) && !IsCommit(step)
    ensures BringsOnly(w, step, Next(w, step))
  {
    hide Brings, Offers, CommitInitial, SaveRequirements, SavePlan, SaveEnrichments, Execute, ResolveProposal, Undo;
  }

  /** Every new version and proposal is what its step brings in. */
  lemma StepBrings(w: World, step: Step)
    requires Sound(w) && Allowed(w, step)
    ensures BringsOnly(w, step, Take(w, step).db)
  {
    hide Take, Next, BringsOnly, Sound, Allowed;
    TakenDb(w, step);
    match step {
      case DoInitial(_, _) => InitialBrings(w, step);
      case DoRequirements(_, _, _, _) => RequirementsBring(w, step);
      case DoPlan(_, _, _, _, _) => PlanBrings(w, step);
      case DoEnrichments(_, _, _) => EnrichmentsBring(w, step);
      case DoExecute(_, _, _, _, _) => ExecuteBrings(w, step);
      case DoDecide(_, _, _) => DecisionBrings(w, step);
      case DoUndo(_, _, _) => UndoBrings(w, step);
      case _ => OtherBrings(w, step);
    }
  }
}
