/**
 * The backend as a state machine.  Every step is one database transaction; between the read transaction and the
 * commit transaction of a piece of work lie any number of other steps; what is held in between is a job.
 */
module Protocol {
  import opened Wrappers
  import opened RequirementData
  import opened SnapshotData
  import opened Editing
  import opened Database
  import opened Invariants
  import opened Transactions
  import PlannerData

  /** What a worker keeps in memory after its read transaction; edits have no run yet. */
  datatype Job = Job(kind: RunKind, routebook: Id, run: Option<Id>, base: Option<Id>, seen: Snapshot)

  /** The database, and every job ever started; a job may commit late, twice or never. */
  datatype World = World(db: Db, jobs: seq<Job>)

  const START := World(EMPTY_DB, [])

  datatype Step =
    | DoCreate(key: string, hash: string, newRoutebook: Id, newRun: Id)
    | DoQueue(rb: Id, kind: RunKind, newRun: Id)
    | DoQueueEnrichment(version: Id, newRun: Id)
    | DoInitial(run: Id, newVersion: Id)
    | ReadForEdit(rb: Id)
    | ReadBase(run: Id)
    | ReadForPlan(run: Id)
    | DoRequirements(job: nat, requirements: Requirements, text: string, newVersion: Id)
    | DoPlan(job: nat, loaded: Snapshot, result: PlannerData.PlanningResult, newRun: Id, newVersion: Id)
    | DoEnrichments(job: nat, enrichments: seq<Enrichment>, newVersion: Id)
    | DoExecute(job: nat, plan: EditPlan, operation: Id, newProposal: Id, newVersion: Id)
    | DoDecide(proposal: Id, accept: bool, newVersion: Id)
    | DoUndo(rb: Id, operation: Id, newVersion: Id)
    | DoFinalize(rb: Id, version: Id, policy: string, token: string, newPage: Id)
    | DoRevoke(rb: Id, page: Id)
    | DoDelete(rb: Id)

  predicate IsJob(w: World, job: nat, kind: RunKind) {
    job < |w.jobs| && w.jobs[job].kind == kind
      && (kind != Operating ==> w.jobs[job].run.Some?) && (kind in {Planning, Operating} ==> w.jobs[job].base.Some?)
  }

  /** New ids are fresh, jobs commit runs made for them, and a commit belongs to an earlier read. */
  ghost predicate Allowed(w: World, step: Step) {
    var db := w.db;
    match step
    case DoCreate(_, _, rb, run) => rb !in db.routebooks && run !in db.runs
    case DoQueue(_, kind, run) => run !in db.runs && kind in {Refining, Planning, Enriching}
    case DoQueueEnrichment(_, run) => run !in db.runs
    case DoInitial(run, v) => v !in db.versions && (run in db.runs ==> db.runs[run].kind == Creating)
    case ReadForEdit(_) => true
    case ReadBase(run) => run in db.runs && db.runs[run].kind in {Refining, Enriching}
    case ReadForPlan(run) => run in db.runs && db.runs[run].kind == Planning
    case DoRequirements(j, _, _, v) => IsJob(w, j, Refining) && v !in db.versions
    case DoPlan(j, loaded, _, run, v) =>
      IsJob(w, j, Planning) && LoadedFrom(w.jobs[j].seen, loaded) && run !in db.runs && v !in db.versions
    case DoEnrichments(j, _, v) => IsJob(w, j, Enriching) && v !in db.versions
    case DoExecute(j, _, _, p, v) => IsJob(w, j, Operating) && p !in db.proposals && v !in db.versions
    case DoDecide(_, _, v) => v !in db.versions
    case DoUndo(_, _, v) => v !in db.versions
    case DoFinalize(_, _, _, _, p) => p !in db.pages
    case DoRevoke(_, _) => true
    case DoDelete(_) => true
  }

  function StartJob(w: World, kind: RunKind, rb: Id, run: Option<Id>): World {
    match LoadCurrent(w.db, rb)
    case Err(_) => w
    case Ok((v, s)) => w.(jobs := w.jobs + [Job(kind, rb, run, Some(v), s)])
  }

  /** The database after a step that is a transaction of the version protocol. */
  ghost function Next(w: World, step: Step): Db
    requires Allowed(w, step)
  {
    var db := w.db;
    match step
    case DoCreate(key, hash, rb, run) => Settle(db, Create(db, key, hash, rb, run)).db
    case DoQueue(rb, kind, run) => Settle(db, Queue(db, rb, kind, run)).db
    case DoQueueEnrichment(version, run) => Settle(db, QueueEnrichment(db, version, run)).db
    case DoInitial(run, v) => Settle(db, CommitInitial(db, run, v)).db
    case DoRequirements(j, requirements, text, v) =>
      var job := w.jobs[j];
      Settle(db, SaveRequirements(db, job.routebook, job.run.value, job.base, job.seen, requirements, text, v)).db
    case DoPlan(j, loaded, result, run, v) =>
      var job := w.jobs[j];
      Settle(db, SavePlan(db, job.routebook, job.run.value, job.base.value, job.seen, loaded, result, run, v)).db
    case DoEnrichments(j, enrichments, v) =>
      var job := w.jobs[j];
      Settle(db, SaveEnrichments(db, job.routebook, job.run.value, job.seen, enrichments, v)).db
    case DoExecute(j, plan, operation, p, v) =>
      var job := w.jobs[j];
      Settle(db, Execute(db, job.routebook, job.base.value, job.seen, plan, operation, p, v)).db
    case DoDecide(proposal, accept, v) => Settle(db, ResolveProposal(db, proposal, accept, v)).db
    case DoUndo(rb, operation, v) => Settle(db, Undo(db, rb, operation, v)).db
    case DoFinalize(rb, version, policy, token, page) => Settle(db, Finalize(db, rb, version, policy, token, page)).db
    case DoRevoke(rb, page) => Settle(db, Revoke(db, rb, page)).db
    case DoDelete(rb) => Settle(db, Delete(db, rb)).db
    case _ => db
  }

  ghost function Take(w: World, step: Step): World
    requires Allowed(w, step)
  {
    match step
    case ReadForEdit(rb) => StartJob(w, Operating, rb, None)
    case ReadForPlan(run) => StartJob(w, Planning, w.db.runs[run].routebook, Some(run))
    case ReadBase(run) =>
      var row := w.db.runs[run];
      if row.kind == Enriching && row.base.None? then w
      else w.(jobs := w.jobs + [Job(row.kind, row.routebook, Some(run), row.base, SnapshotAt(w.db, row.base))])
    case _ => w.(db := Next(w, step))
  }

  // ---- invariants of single steps -------------------------------------------------------------

  ghost predicate JobOk(db: Db, job: Job) {
    && job.routebook in db.routebooks
    && HasRead(db, job.routebook, job.base, job.seen)
    && (job.run.Some? ==>
          && job.run.value in db.runs
          && db.runs[job.run.value].kind == job.kind && db.runs[job.run.value].routebook == job.routebook
          && (job.kind == Enriching ==> db.runs[job.run.value].base == job.base))
  }

  ghost predicate JobsOk(w: World) {
    forall i {:trigger JobOk(w.db, w.jobs[i])} :: 0 <= i < |w.jobs| ==> JobOk(w.db, w.jobs[i])
  }

  ghost predicate Sound(w: World) {
    Inv(w.db) && JobsOk(w)
  }

  lemma JobLasts(a: Db, b: Db, job: Job)
    requires JobOk(a, job) && Evolves(a, b)
    ensures JobOk(b, job)
  {
    HasReadLasts(a, b, job.routebook, job.base, job.seen);
    assert RunsEvolve(a, b) && RoutebooksEvolve(a, b);
  }

  lemma JobsLast(w: World, db: Db)
    requires JobsOk(w) && Evolves(w.db, db)
    ensures JobsOk(World(db, w.jobs))
  {
    var after := World(db, w.jobs);
    forall i | 0 <= i < |after.jobs| ensures JobOk(after.db, after.jobs[i]) {
      assert JobOk(w.db, w.jobs[i]);
      JobLasts(w.db, db, w.jobs[i]);
    }
  }

  lemma NewJob(w: World, job: Job)
    requires JobsOk(w) && JobOk(w.db, job)
    ensures JobsOk(w.(jobs := w.jobs + [job]))
  {
    var after := w.(jobs := w.jobs + [job]);
    forall i | 0 <= i < |after.jobs| ensures JobOk(after.db, after.jobs[i]) {
      if i < |w.jobs| {
        assert JobOk(w.db, w.jobs[i]);
      }
    }
  }

  lemma CurrentHasRead(db: Db, rb: Id)
    requires Linear(db) && LoadCurrent(db, rb).Ok?
    ensures HasRead(db, rb, Some(LoadCurrent(db, rb).value.0), LoadCurrent(db, rb).value.1)
  {
    assert RoutebookOk(db, rb);
  }

  lemma ReadKeeps(w: World, step: Step)
    requires Sound(w) && Allowed(w, step) && (step.ReadForEdit? || step.ReadBase? || step.ReadForPlan?)
    ensures Sound(Take(w, step)) && Take(w, step).db == w.db
  {
    match step {
      case ReadForEdit(rb) =>
        if LoadCurrent(w.db, rb).Ok? {
          CurrentHasRead(w.db, rb);
          NewJob(w, Job(Operating, rb, None, Some(LoadCurrent(w.db, rb).value.0), LoadCurrent(w.db, rb).value.1));
        }
      case ReadForPlan(run) =>
        var rb := w.db.runs[run].routebook;
        if LoadCurrent(w.db, rb).Ok? {
          CurrentHasRead(w.db, rb);
          NewJob(w, Job(Planning, rb, Some(run), Some(LoadCurrent(w.db, rb).value.0), LoadCurrent(w.db, rb).value.1));
        }
      case ReadBase(run) =>
        var row := w.db.runs[run];
        assert RunOk(w.db, run);
        NewJob(w, Job(row.kind, row.routebook, Some(run), row.base, SnapshotAt(w.db, row.base)));
    }
  }

  lemma JobRead(w: World, j: nat)
    requires Sound(w) && j < |w.jobs|
    ensures Inv(w.db) && JobOk(w.db, w.jobs[j])
  {
    hide Inv, JobOk;
  }

  lemma RequirementStepKeeps(w: World, step: Step)
    requires Sound(w) && Allowed(w, step) && step.DoRequirements?
    ensures Safe(w.db, Next(w, step))
  {
    hide Inv, Safe, SaveRequirements, SavePlan, SaveEnrichments, Execute;
    JobRead(w, step.job);
    var job := w.jobs[step.job];
    SaveRequirementsKeeps(w.db, job.routebook, job.run.value, job.base, job.seen,
                          step.requirements, step.text, step.newVersion);
  }

  lemma PlanStepKeeps(w: World, step: Step)
    requires Sound(w) && Allowed(w, step) && step.DoPlan?
    ensures Safe(w.db, Next(w, step))
  {
    hide Inv, Safe, SaveRequirements, SavePlan, SaveEnrichments, Execute;
    JobRead(w, step.job);
    var job := w.jobs[step.job];
    SavePlanKeeps(w.db, job.routebook, job.run.value, job.base.value, job.seen,
                  step.loaded, step.result, step.newRun, step.newVersion);
  }

  lemma EnrichmentStepKeeps(w: World, step: Step)
    requires Sound(w) && Allowed(w, step) && step.DoEnrichments?
    ensures Safe(w.db, Next(w, step))
  {
    hide Inv, Safe, SaveRequirements, SavePlan, SaveEnrichments, Execute;
    JobRead(w, step.job);
    var job := w.jobs[step.job];
    SaveEnrichmentsKeeps(w.db, job.routebook, job.run.value, job.seen, step.enrichments, step.newVersion);
  }

  lemma EditStepKeeps(w: World, step: Step)
    requires Sound(w) && Allowed(w, step) && step.DoExecute?
    ensures Safe(w.db, Next(w, step))
  {
    hide Inv, Safe, SaveRequirements, SavePlan, SaveEnrichments, Execute;
    JobRead(w, step.job);
    var job := w.jobs[step.job];
    ExecuteKeeps(w.db, job.routebook, job.base.value, job.seen,
                 step.plan, step.operation, step.newProposal, step.newVersion);
  }

  lemma JobStepKeeps(w: World, step: Step)
    requires Sound(w) && Allowed(w, step)
    requires step.DoRequirements? || step.DoPlan? || step.DoEnrichments? || step.DoExecute?
    ensures Safe(w.db, Next(w, step))
  {
    hide Sound, Allowed, Safe, Next;
    match step {
      case DoRequirements(_, _, _, _) => RequirementStepKeeps(w, step);
      case DoPlan(_, _, _, _, _) => PlanStepKeeps(w, step);
      case DoEnrichments(_, _, _) => EnrichmentStepKeeps(w, step);
      case DoExecute(_, _, _, _, _) => EditStepKeeps(w, step);
    }
  }

  lemma OtherStepKeeps(w: World, step: Step)
    requires Sound(w) && Allowed(w, step)
    requires !(step.DoRequirements? || step.DoPlan? || step.DoEnrichments? || step.DoExecute?)
    ensures Safe(w.db, Next(w, step))
  {
    match step {
      case DoCreate(key, hash, rb, run) => CreateKeeps(w.db, key, hash, rb, run);
      case DoQueue(rb, kind, run) => QueueKeeps(w.db, rb, kind, run);
      case DoQueueEnrichment(version, run) => QueueEnrichmentKeeps(w.db, version, run);
      case DoInitial(run, v) => CommitInitialKeeps(w.db, run, v);
      case DoDecide(proposal, accept, v) => DecideKeeps(w.db, proposal, accept, v);
      case DoUndo(rb, operation, v) => UndoKeeps(w.db, rb, operation, v);
      case DoFinalize(rb, version, policy, token, page) => FinalizeKeeps(w.db, rb, version, policy, token, page);
      case DoRevoke(rb, page) => RevokeKeeps(w.db, rb, page);
      case DoDelete(rb) => DeleteKeeps(w.db, rb);
      case _ => EvolvesReflexive(w.db);
    }
  }

  /** Every step keeps the world sound and takes nothing back. */
  lemma StepKeeps(w: World, step: Step)
    requires Sound(w) && Allowed(w, step)
    ensures Sound(Take(w, step)) && Evolves(w.db, Take(w, step).db)
  {
    if step.ReadForEdit? || step.ReadBase? || step.ReadForPlan? {
      ReadKeeps(w, step);
      EvolvesReflexive(w.db);
    } else {
      if step.DoRequirements? || step.DoPlan? || step.DoEnrichments? || step.DoExecute? {
        JobStepKeeps(w, step);
      } else {
        OtherStepKeeps(w, step);
      }
      JobsLast(w, Next(w, step));
    }
  }

  // ---- whole runs -----------------------------------------------------------------------------

  ghost predicate StepAt(ws: seq<World>, steps: seq<Step>, i: nat)
    requires i < |steps| < |ws|
  {
    Allowed(ws[i], steps[i]) && ws[i + 1] == Take(ws[i], steps[i])
  }

  /** The worlds of a run, from the empty database on. */
  ghost predicate IsRun(ws: seq<World>, steps: seq<Step>) {
    && |ws| == |steps| + 1 && ws[0] == START
    && forall i: nat {:trigger StepAt(ws, steps, i)} :: i < |steps| ==> StepAt(ws, steps, i)
  }

  lemma StartIsSound()
    ensures Sound(START)
  {
  }

  lemma {:induction false} AlwaysSound(ws: seq<World>, steps: seq<Step>, i: nat)
    requires IsRun(ws, steps) && i < |ws|
    ensures Sound(ws[i])
  {
    if i == 0 {
      StartIsSound();
    } else {
      AlwaysSound(ws, steps, i - 1);
      assert StepAt(ws, steps, i - 1);
      StepKeeps(ws[i - 1], steps[i - 1]);
    }
  }

  lemma {:induction false} NothingTakenBack(ws: seq<World>, steps: seq<Step>, i: nat, j: nat)
    requires IsRun(ws, steps) && i <= j < |ws|
    ensures Evolves(ws[i].db, ws[j].db)
    decreases j - i
  {
    hide Evolves, Sound, Take;
    if i == j {
      EvolvesReflexive(ws[i].db);
    } else {
      NothingTakenBack(ws, steps, i, j - 1);
      AlwaysSound(ws, steps, j - 1);
      assert StepAt(ws, steps, j - 1);
      StepKeeps(ws[j - 1], steps[j - 1]);
      EvolvesTransitive(ws[i].db, ws[j - 1].db, ws[j].db);
    }
  }

  /** Every allowed step extends a run. */
  lemma RunExtends(ws: seq<World>, steps: seq<Step>, step: Step)
    requires IsRun(ws, steps) && Allowed(ws[|steps|], step)
    ensures IsRun(ws + [Take(ws[|steps|], step)], steps + [step])
  {
    var ws', steps' := ws + [Take(ws[|steps|], step)], steps + [step];
    forall i: nat | i < |steps'| ensures StepAt(ws', steps', i) {
      if i < |steps| {
        assert StepAt(ws, steps, i);
      }
    }
  }
}
