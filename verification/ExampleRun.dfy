/** A run with an edit, a decision and an undo: what the theorems about runs speak of does occur. */
module ExampleRun {
  import opened Wrappers
  import opened SnapshotData
  import opened Providers
  import opened Editing
  import opened Recompute
  import opened EditPipeline
  import opened EditTheorems
  import opened Database
  import opened Invariants
  import opened Transactions
  import opened Protocol
  import opened ProposalRuns
  import opened Provenance
  import opened Itineraries

  // ---- segment ids that never repeat ----------------------------------------------------------

  /** A pairing of natural numbers. */
  function Pair(i: nat, k: nat): nat {
    (i + k) * (i + k) + i
  }

  lemma PairIsInjective(i: nat, k: nat, j: nat, l: nat)
    requires Pair(i, k) == Pair(j, l)
    ensures i == j && k == l
  {
    if i + k < j + l {
      LargerSum(i, k, j, l);
    } else if j + l < i + k {
      LargerSum(j, l, i, k);
    }
  }

  lemma LargerSquare(a: nat, b: nat)
    requires a <= b
    ensures a * a <= b * b
  {
    assert a * a <= a * b;
    assert a * b <= b * b;
  }

  lemma LargerSum(i: nat, k: nat, j: nat, l: nat)
    requires i + k < j + l
    ensures Pair(i, k) < Pair(j, l)
  {
    var a, b := i + k, j + l;
    assert (a + 1) * (a + 1) == a * a + 2 * a + 1;
    LargerSquare(a + 1, b);
  }

  function ExampleLegs(): DayLegs {
    (i: nat) => LegOracle((k: nat) => Pair(i, k), (k: nat) => None)
  }

  lemma LegsNeverRepeat()
    ensures NeverRepeats(ExampleLegs())
  {
    forall i, k, j, l | ExampleLegs()(i).segmentId(k) == ExampleLegs()(j).segmentId(l) ensures i == j && k == l {
      PairIsInjective(i, k, j, l);
    }
  }

  // ---- the steps ------------------------------------------------------------------------------

  const CREATE := DoCreate("key", "hash", 1, 2)
  const CREATED := World(
    EMPTY_DB.(routebooks := map[1 := Routebook(None, None, false)],
              runs := map[2 := Run(Creating, 1, None, None, None)],
              creations := map["key" := Creation("hash", 1, 2)]), [])

  lemma CreationStep()
    ensures Allowed(START, CREATE) && Take(START, CREATE) == CREATED
  {
  }

  lemma InitialStep()
    ensures Allowed(CREATED, DoInitial(2, 3)) && HasBegun(Take(CREATED, DoInitial(2, 3)).db)
    ensures Take(CREATED, DoInitial(2, 3)).jobs == []
  {
    hide Execute, Finalize, SavePlan, SaveEnrichments, SaveRequirements, ResolveProposal, Undo;
  }

  lemma GenuineAtSame(ws: seq<World>, steps: seq<Step>, ws': seq<World>, steps': seq<Step>, i: nat)
    requires i < |steps| < |ws| && GenuineAt(ws, steps, i)
    requires i < |steps'| < |ws'| && ws'[i] == ws[i] && steps'[i] == steps[i]
    ensures GenuineAt(ws', steps', i)
  {
    hide Genuine;
  }

  /** A genuine step extends a genuine run. */
  lemma GenuineRunExtends(ws: seq<World>, steps: seq<Step>, step: Step)
    requires IsGenuineRun(ws, steps) && Allowed(ws[|steps|], step) && Genuine(ws[|steps|], step)
    ensures IsGenuineRun(ws + [Take(ws[|steps|], step)], steps + [step])
  {
    hide Allowed, Take;
    var ws', steps' := ws + [Take(ws[|steps|], step)], steps + [step];
    RunExtends(ws, steps, step);
    assert GenuineAt(ws', steps', |steps|);
    forall i: nat | i < |steps'| ensures GenuineAt(ws', steps', i) {
      if i < |steps| {
        GenuineAtSame(ws, steps, ws', steps', i);
      }
    }
  }

  /** Routebook 1 exists with version 3 as its empty current version, and nothing else has happened. */
  ghost predicate HasBegun(db: Db) {
    && Live(db, 1) && db.routebooks[1].current == Some(3)
    && db.versions.Keys == {3} && db.versions[3].snapshot == EMPTY_SNAPSHOT
    && db.runs.Keys == {2} && db.proposals == map[]
  }

  lemma RunBegins() returns (ws: seq<World>, steps: seq<Step>)
    ensures IsGenuineRun(ws, steps) && HasBegun(ws[|steps|].db) && ws[|steps|].jobs == []
  {
    hide FromEditor, FromPlanner, Take, HasBegun;
    ws, steps := [START], [];
    CreationStep();
    GenuineRunExtends(ws, steps, CREATE);
    ws, steps := ws + [CREATED], steps + [CREATE];
    InitialStep();
    GenuineRunExtends(ws, steps, DoInitial(2, 3));
    ws, steps := ws + [Take(CREATED, DoInitial(2, 3))], steps + [DoInitial(2, 3)];
  }

  const GROW_INTENT := Intent(ChangeDays, None, None, None, Some(2))

  function NoForecasts(): Forecasts {
    (i: nat) => None
  }

  lemma GrowIntentResolves()
    ensures ValidIntent(GROW_INTENT) && Resolve(EMPTY_SNAPSHOT, GROW_INTENT) == Resolution(true, [], [])
    ensures ImpactOf(EMPTY_SNAPSHOT, GROW_INTENT, Resolution(true, [], [])).confirm
  {
  }

  lemma GrowIsDelivered(legs: DayLegs, f: Forecasts)
    requires NeverRepeats(legs)
    ensures Delivered(EMPTY_SNAPSHOT, GROW_INTENT, Resolution(true, [], []), legs, f)
  {
    EmptyIsWF();
    GrowIntentResolves();
    ApplicableEditIsDelivered(EMPTY_SNAPSHOT, GROW_INTENT, legs, f);
  }

  /** The editor's plan for two days, of an itinerary without any; it asks for confirmation. */
  lemma GrowPlan() returns (plan: EditPlan)
    ensures FromEditor(EMPTY_SNAPSHOT, plan) && plan.preview.Some? && plan.resolution.resolved && plan.impact.confirm
    ensures DaysUnchanged(EMPTY_SNAPSHOT, plan.preview.value, plan.impact.days)
  {
    var res := Resolution(true, [], []);
    var legs, f := ExampleLegs(), NoForecasts();
    GrowIntentResolves();
    LegsNeverRepeat();
    GrowIsDelivered(legs, f);
    plan := RecomputedPlan(EMPTY_SNAPSHOT, GROW_INTENT, legs, f).value;
    assert EditorsPlan(EMPTY_SNAPSHOT, plan, GROW_INTENT, legs, f);
  }

  /** The edit has been read for and proposed. */
  ghost predicate HasProposed(db: Db, plan: EditPlan) {
    && plan.preview.Some?
    && Live(db, 1) && db.routebooks[1].current == Some(3)
    && db.versions.Keys == {3} && db.versions[3].snapshot == EMPTY_SNAPSHOT
    && db.runs.Keys == {2, 4}
    && db.proposals == map[5 := Proposal(1, 3, 4, plan.preview.value, plan, Pending, EMPTY_SNAPSHOT)]
  }

  lemma ThenRead(w: World)
    requires HasBegun(w.db) && w.jobs == []
    ensures Allowed(w, ReadForEdit(1)) && Genuine(w, ReadForEdit(1))
    ensures Take(w, ReadForEdit(1)) == World(w.db, [Job(Operating, 1, None, Some(3), EMPTY_SNAPSHOT)])
  {
    hide FromEditor, FromPlanner, Next;
  }

  lemma ProposeInDb(db: Db, plan: EditPlan)
    requires Inv(db) && HasBegun(db)
    requires plan.preview.Some? && plan.resolution.resolved && plan.impact.confirm
    requires DaysUnchanged(EMPTY_SNAPSHOT, plan.preview.value, plan.impact.days)
    ensures HasProposed(Settle(db, Execute(db, 1, 3, EMPTY_SNAPSHOT, plan, 4, 5, 6)).db, plan)
  {
    assert RoutebookOk(db, 1);
    ExecuteWritesIff(db, 1, 3, EMPTY_SNAPSHOT, plan, 4, 5, 6);
    var after := Execute(db, 1, 3, EMPTY_SNAPSHOT, plan, 4, 5, 6).db;
    assert after.runs.Keys == db.runs.Keys + {4};
  }

  lemma ProposalIsAllowed(w: World, plan: EditPlan)
    requires HasBegun(w.db) && |w.jobs| == 1 && w.jobs[0] == Job(Operating, 1, None, Some(3), EMPTY_SNAPSHOT)
    ensures Allowed(w, DoExecute(0, plan, 4, 5, 6))
  {
  }

  lemma ProposalIsGenuine(w: World, step: Step)
    requires |w.jobs| == 1 && w.jobs[0] == Job(Operating, 1, None, Some(3), EMPTY_SNAPSHOT)
    requires step.DoExecute? && step.job == 0 && FromEditor(EMPTY_SNAPSHOT, step.plan) && Allowed(w, step)
    ensures Genuine(w, step)
  {
    hide FromEditor, FromPlanner;
  }

  lemma ProposalTaken(w: World, step: Step)
    requires |w.jobs| == 1 && w.jobs[0] == Job(Operating, 1, None, Some(3), EMPTY_SNAPSHOT)
    requires step.DoExecute? && step.job == 0 && Allowed(w, step)
    ensures Take(w, step).db
         == Settle(w.db, Execute(w.db, 1, 3, EMPTY_SNAPSHOT, step.plan, step.operation,
                                 step.newProposal, step.newVersion)).db
  {
  }

  lemma ThenPropose(w: World, plan: EditPlan)
    requires Sound(w) && HasBegun(w.db) && |w.jobs| == 1
    requires w.jobs[0] == Job(Operating, 1, None, Some(3), EMPTY_SNAPSHOT)
    requires FromEditor(EMPTY_SNAPSHOT, plan) && plan.preview.Some? && plan.resolution.resolved && plan.impact.confirm
    requires DaysUnchanged(EMPTY_SNAPSHOT, plan.preview.value, plan.impact.days)
    ensures Allowed(w, DoExecute(0, plan, 4, 5, 6)) && Genuine(w, DoExecute(0, plan, 4, 5, 6))
    ensures HasProposed(Take(w, DoExecute(0, plan, 4, 5, 6)).db, plan)
  {
    hide EditorsPlan, Execute, PageOk, Take;
    ProposalIsAllowed(w, plan);
    ProposalIsGenuine(w, DoExecute(0, plan, 4, 5, 6));
    ProposalTaken(w, DoExecute(0, plan, 4, 5, 6));
    ProposeInDb(w.db, plan);
  }

  /** The proposal has been accepted as version 7. */
  ghost predicate HasAccepted(db: Db, plan: EditPlan) {
    && plan.preview.Some?
    && Live(db, 1) && db.routebooks[1].current == Some(7)
    && db.versions.Keys == {3, 7} && db.versions[3].snapshot == EMPTY_SNAPSHOT
    && db.versions[7].snapshot == plan.preview.value && db.versions[7].parent == Some(3)
    && db.runs.Keys == {2, 4}
  }

  lemma ThenAccept(w: World, plan: EditPlan)
    requires Sound(w) && HasProposed(w.db, plan)
    ensures Allowed(w, DoDecide(5, true, 7)) && HasAccepted(Take(w, DoDecide(5, true, 7)).db, plan)
  {
    hide ResolveProposal, Execute, SavePlan, SaveRequirements, SaveEnrichments, Undo, Finalize, CommitInitial, Inv;
    DecisionOutcome(w.db, 5, true, 7);
  }

  /** The accepted edit has been undone by version 9. */
  ghost predicate HasUndone(db: Db, plan: EditPlan) {
    && plan.preview.Some? && Live(db, 1) && db.routebooks[1].current == Some(9)
    && 7 in db.versions && db.versions[7].snapshot == plan.preview.value
    && 9 in db.versions && db.versions[9].parent == Some(7) && db.versions[9].snapshot == EMPTY_SNAPSHOT
  }

  lemma ThenUndo(w: World, plan: EditPlan)
    requires Sound(w) && HasAccepted(w.db, plan)
    ensures Allowed(w, DoUndo(1, 8, 9)) && HasUndone(Take(w, DoUndo(1, 8, 9)).db, plan)
  {
    hide DaysUnchanged, Evolves, Linear, Pages, SavePlan;
    UndoOutcome(w.db, 1, 8, 9);
  }

  lemma OneStepMore(ws: seq<World>, steps: seq<Step>, step: Step) returns (ws': seq<World>, steps': seq<Step>)
    requires IsGenuineRun(ws, steps) && Allowed(ws[|steps|], step) && Genuine(ws[|steps|], step)
    ensures IsGenuineRun(ws', steps') && |steps'| == |steps| + 1 && ws'[|steps'|] == Take(ws[|steps|], step)
    ensures Sound(ws'[|steps'|])
  {
    hide Inv, JobsOk, Take;
    GenuineRunExtends(ws, steps, step);
    ws', steps' := ws + [Take(ws[|steps|], step)], steps + [step];
    AlwaysSound(ws', steps', |steps'|);
  }

  lemma RunProposes() returns (ws: seq<World>, steps: seq<Step>, plan: EditPlan)
    ensures IsGenuineRun(ws, steps) && Sound(ws[|steps|]) && FromEditor(EMPTY_SNAPSHOT, plan)
    ensures HasProposed(ws[|steps|].db, plan)
  {
    hide FromEditor, Inv, PlannersDraft, Take;
    plan := GrowPlan();
    ws, steps := RunBegins();
    ThenRead(ws[|steps|]);
    ws, steps := OneStepMore(ws, steps, ReadForEdit(1));
    ThenPropose(ws[|steps|], plan);
    ws, steps := OneStepMore(ws, steps, DoExecute(0, plan, 4, 5, 6));
  }

  /**
   * There is a genuine run that creates a routebook, commits its first version,
   * proposes an edit of the editor, accepts it as a version and undoes it.
   */
  lemma RunsEdit() returns (ws: seq<World>, steps: seq<Step>, plan: EditPlan)
    ensures IsGenuineRun(ws, steps) && FromEditor(EMPTY_SNAPSHOT, plan) && HasUndone(ws[|steps|].db, plan)
  {
    hide EditorsPlan, Inv, PlannersDraft, Take;
    ws, steps, plan := RunProposes();
    ThenAccept(ws[|steps|], plan);
    ws, steps := OneStepMore(ws, steps, DoDecide(5, true, 7));
    ThenUndo(ws[|steps|], plan);
    ws, steps := OneStepMore(ws, steps, DoUndo(1, 8, 9));
  }
}
