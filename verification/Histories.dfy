/** Linear histories: in every reachable state a routebook's versions form one growing chain, without lost updates. */
module Histories {
  import opened Wrappers
  import opened RequirementData
  import opened SnapshotData
  import opened Editing
  import opened Database
  import opened Invariants
  import opened Transactions
  import opened Protocol
  import PlannerData
  import PlanPersistence

  // ---- the chain of parents -------------------------------------------------------------------

  /** The ancestors of version `v`, oldest first, and `v` itself. */
  ghost function Chain(db: Db, v: Id): (h: seq<Id>)
    requires Linear(db) && v in db.versions
    decreases db.versions[v].number
  {
    assert VersionOk(db, v);
    var parent := db.versions[v].parent;
    if parent.None? then [v] else Chain(db, parent.value) + [v]
  }

  ghost function HistoryOf(db: Db, rb: Id): seq<Id>
    requires Linear(db) && rb in db.routebooks
  {
    assert RoutebookOk(db, rb);
    match db.routebooks[rb].current
    case None => []
    case Some(v) => Chain(db, v)
  }

  /** Version `k` is numbered `k + 1` and follows version `k - 1`. */
  ghost predicate Link(db: Db, rb: Id, h: seq<Id>, k: nat)
    requires k < |h|
  {
    && IsVersion(db, h[k], rb)
    && db.versions[h[k]].number == k + 1
    && db.versions[h[k]].parent == if k == 0 then None else Some(h[k - 1])
  }

  /** The chain ends in the current version and holds every version of the routebook. */
  ghost predicate IsHistory(db: Db, rb: Id, h: seq<Id>)
    requires rb in db.routebooks
  {
    && (forall k: nat {:trigger Link(db, rb, h, k)} :: k < |h| ==> Link(db, rb, h, k))
    && db.routebooks[rb].current == (if h == [] then None else Some(h[|h| - 1]))
    && |h| == LatestNumber(db, rb)
    && forall v :: IsVersion(db, v, rb) ==> v in h
  }

  lemma {:induction false} ChainLinks(db: Db, v: Id)
    requires Linear(db) && v in db.versions
    ensures |Chain(db, v)| == db.versions[v].number && Chain(db, v)[|Chain(db, v)| - 1] == v
    ensures forall k: nat {:trigger Link(db, db.versions[v].routebook, Chain(db, v), k)} ::
              k < |Chain(db, v)| ==> Link(db, db.versions[v].routebook, Chain(db, v), k)
    decreases db.versions[v].number
  {
    assert VersionOk(db, v);
    var rb, parent, h := db.versions[v].routebook, db.versions[v].parent, Chain(db, v);
    if parent.Some? {
      ChainLinks(db, parent.value);
      var front := Chain(db, parent.value);
      forall k: nat | k < |h| ensures Link(db, rb, h, k) {
        if k < |front| {
          assert Link(db, rb, front, k);
        }
      }
    } else {
      assert Link(db, rb, h, 0);
    }
  }

  /** Two versions of one routebook with the same number are one version. */
  lemma NumberDetermines(db: Db, v: Id, w: Id)
    requires Linear(db) && v in db.versions && w in db.versions
    requires db.versions[v].routebook == db.versions[w].routebook && db.versions[v].number == db.versions[w].number
    ensures v == w
  {
    assert VersionOk(db, v) && VersionOk(db, w);
  }

  lemma InChain(db: Db, rb: Id, h: seq<Id>, v: Id)
    requires Linear(db) && IsVersion(db, v, rb)
    requires forall k: nat {:trigger Link(db, rb, h, k)} :: k < |h| ==> Link(db, rb, h, k)
    requires db.versions[v].number <= |h|
    ensures v in h
  {
    assert VersionOk(db, v);
    var k := db.versions[v].number - 1;
    assert Link(db, rb, h, k);
    NumberDetermines(db, v, h[k]);
  }

  lemma HistoryIsLinear(db: Db, rb: Id)
    requires Linear(db) && rb in db.routebooks
    ensures IsHistory(db, rb, HistoryOf(db, rb))
  {
    assert RoutebookOk(db, rb);
    var h := HistoryOf(db, rb);
    if db.routebooks[rb].current.Some? {
      ChainLinks(db, db.routebooks[rb].current.value);
    }
    forall v | IsVersion(db, v, rb) ensures v in h {
      assert VersionOk(db, v);
      InChain(db, rb, h, v);
    }
  }

  /** There is only one such chain. */
  lemma HistoryIsUnique(db: Db, rb: Id, h: seq<Id>)
    requires Linear(db) && rb in db.routebooks && IsHistory(db, rb, h)
    ensures h == HistoryOf(db, rb)
  {
    HistoryIsLinear(db, rb);
    var g := HistoryOf(db, rb);
    forall k: nat | k < |h| ensures h[k] == g[k] {
      assert Link(db, rb, h, k) && Link(db, rb, g, k);
      NumberDetermines(db, h[k], g[k]);
    }
  }

  /** No version has two children, and a routebook has one first version. */
  lemma NoForks(db: Db, v: Id, w: Id)
    requires Linear(db) && v in db.versions && w in db.versions
    requires db.versions[v].parent == db.versions[w].parent
    requires db.versions[v].parent.Some? || db.versions[v].routebook == db.versions[w].routebook
    ensures v == w
  {
    assert VersionOk(db, v) && VersionOk(db, w);
    NumberDetermines(db, v, w);
  }

  // ---- growth ---------------------------------------------------------------------------------

  lemma LatestGrows(a: Db, b: Db, rb: Id)
    requires Linear(a) && Linear(b) && Evolves(a, b) && rb in a.routebooks
    ensures rb in b.routebooks && LatestNumber(a, rb) <= LatestNumber(b, rb)
    ensures b.routebooks[rb].current != a.routebooks[rb].current <==> LatestNumber(a, rb) < LatestNumber(b, rb)
  {
    assert RoutebooksEvolve(a, b) && VersionsEvolve(a, b);
    assert RoutebookEvolves(a, b, rb);
    assert RoutebookOk(a, rb);
  }

  lemma HistoryGrows(a: Db, b: Db, rb: Id)
    requires Linear(a) && Linear(b) && Evolves(a, b) && rb in a.routebooks
    ensures rb in b.routebooks && HistoryOf(a, rb) <= HistoryOf(b, rb)
  {
    LatestGrows(a, b, rb);
    HistoryIsLinear(a, rb);
    HistoryIsLinear(b, rb);
    var g, h := HistoryOf(a, rb), HistoryOf(b, rb);
    forall k: nat | k < |g| ensures g[k] == h[k] {
      assert Link(a, rb, g, k) && Link(b, rb, h, k);
      assert VersionsEvolve(a, b);
      NumberDetermines(b, g[k], h[k]);
    }
  }

  /** Once the current version has moved past `base`, `base` is never current again. */
  lemma NeverCurrentAgain(a: Db, b: Db, rb: Id, base: Id)
    requires Linear(a) && Linear(b) && Evolves(a, b) && rb in a.routebooks
    requires IsVersion(a, base, rb) && a.routebooks[rb].current != Some(base)
    ensures rb in b.routebooks && b.routebooks[rb].current != Some(base)
  {
    LatestGrows(a, b, rb);
    assert VersionOk(a, base) && RoutebookOk(a, rb);
    assert a.versions[base].number < LatestNumber(a, rb) by {
      if a.routebooks[rb].current.Some?
      && a.versions[a.routebooks[rb].current.value].number == a.versions[base].number {
        NumberDetermines(a, base, a.routebooks[rb].current.value);
      }
    }
    assert VersionsEvolve(a, b);
    assert RoutebookOk(b, rb);
  }

  // ---- reachable states -----------------------------------------------------------------------

  ghost predicate Siblings(db: Db, rb: Id, v: Id, w: Id) {
    IsVersion(db, v, rb) && IsVersion(db, w, rb) && db.versions[v].parent == db.versions[w].parent
  }

  ghost predicate OnlyChildren(db: Db, rb: Id) {
    forall v, w :: Siblings(db, rb, v, w) ==> v == w
  }

  /** Main result: every reachable state keeps one linear history per routebook. */
  lemma EveryHistoryIsLinear(ws: seq<World>, steps: seq<Step>, i: nat, rb: Id)
    requires IsRun(ws, steps) && i < |ws| && rb in ws[i].db.routebooks
    ensures Linear(ws[i].db) && IsHistory(ws[i].db, rb, HistoryOf(ws[i].db, rb))
    ensures OnlyChildren(ws[i].db, rb)
  {
    AlwaysSound(ws, steps, i);
    HistoryIsLinear(ws[i].db, rb);
    forall v, w | Siblings(ws[i].db, rb, v, w) ensures v == w {
      NoForks(ws[i].db, v, w);
    }
  }

  /** Histories only grow at the end, and what is in them never changes. */
  lemma HistoriesOnlyGrow(ws: seq<World>, steps: seq<Step>, i: nat, j: nat, rb: Id)
    requires IsRun(ws, steps) && i <= j < |ws| && rb in ws[i].db.routebooks
    ensures Linear(ws[i].db) && Linear(ws[j].db) && rb in ws[j].db.routebooks
    ensures HistoryOf(ws[i].db, rb) <= HistoryOf(ws[j].db, rb)
    ensures Extends(ws[i].db.versions, ws[j].db.versions)
  {
    AlwaysSound(ws, steps, i);
    AlwaysSound(ws, steps, j);
    NothingTakenBack(ws, steps, i, j);
    HistoryGrows(ws[i].db, ws[j].db, rb);
  }

  // ---- lost updates ---------------------------------------------------------------------------

  /** The plan an edit's version has on record: its fingerprint, or that of the proposal its run was made for. */
  function RecordedPlan(db: Db, x: Version): Option<EditPlan> {
    if x.message.Fingerprint? then Some(x.message.plan)
    else if x.run in db.runs && db.runs[x.run].proposal.Some? && db.runs[x.run].proposal.value in db.proposals then
      Some(db.proposals[db.runs[x.run].proposal.value].plan)
    else None
  }

  /**
   * A version changes its parent's snapshot only where its job
   * is meant to; an edit holds the preview of its recorded plan.
   */
  ghost predicate BuildsOnParent(db: Db, x: Version) {
    var before := SnapshotAt(db, x.parent);
    && x.source == before
    && x.run in db.runs
    && TaskContent(db.runs[x.run].kind, before, x.snapshot)
    && (db.runs[x.run].kind == Operating ==>
          if x.change == Undone then UndoesParent(db, x)
          else x.change == Changed && RecordedPlan(db, x).Some?
               && EditContent(RecordedPlan(db, x).value, before, x.snapshot))
  }

  ghost predicate UndoesParent(db: Db, x: Version) {
    && x.parent.Some? && x.parent.value in db.versions && db.versions[x.parent.value].parent.Some?
    && x.snapshot == SnapshotAt(db, db.versions[x.parent.value].parent)
  }

  /** Main result: no committed version ever overwrites work its author had not seen. */
  lemma NoLostUpdate(ws: seq<World>, steps: seq<Step>, i: nat, v: Id)
    requires IsRun(ws, steps) && i < |ws| && v in ws[i].db.versions
    ensures BuildsOnParent(ws[i].db, ws[i].db.versions[v])
  {
    hide Pages;
    AlwaysSound(ws, steps, i);
    var db := ws[i].db;
    assert VersionOk(db, v) && ContentOk(db, v);
  }

  /** A job whose base version is no longer current commits nothing, however long it waits. */
  lemma StaleJobCommitsNothing(ws: seq<World>, steps: seq<Step>, i: nat, j: nat, k: nat)
    requires IsRun(ws, steps) && i <= j < |steps| && k < |ws[i].jobs|
    requires ws[i].jobs[k].base.Some? && ws[i].jobs[k].routebook in ws[i].db.routebooks
    requires ws[i].db.routebooks[ws[i].jobs[k].routebook].current != ws[i].jobs[k].base
    requires (steps[j].DoRequirements? || steps[j].DoPlan? || steps[j].DoEnrichments? || steps[j].DoExecute?)
    requires steps[j].job == k
    ensures ws[j + 1].db.versions == ws[j].db.versions
  {
    AlwaysSound(ws, steps, i);
    AlwaysSound(ws, steps, j);
    NothingTakenBack(ws, steps, i, j);
    JobsKept(ws, steps, i, j);
    var job := ws[i].jobs[k];
    assert JobOk(ws[i].db, ws[i].jobs[k]) && JobOk(ws[j].db, ws[j].jobs[k]);
    NeverCurrentAgain(ws[i].db, ws[j].db, job.routebook, job.base.value);
    assert StepAt(ws, steps, j);
    StaleStepCommitsNothing(ws[j], steps[j]);
  }

  lemma {:induction false} JobsKept(ws: seq<World>, steps: seq<Step>, i: nat, j: nat)
    requires IsRun(ws, steps) && i <= j < |ws|
    ensures ws[i].jobs <= ws[j].jobs
    decreases j - i
  {
    if i < j {
      JobsKept(ws, steps, i, j - 1);
      assert StepAt(ws, steps, j - 1);
    }
  }

  lemma StaleCommit(db: Db, c: Change, id: Id)
    requires c.routebook in db.routebooks && db.routebooks[c.routebook].current != c.base
    ensures Commit(db, c, id).db == db
  {
  }

  lemma StaleRequirements(
    db: Db, rb: Id, run: Id, base: Option<Id>, seen: Snapshot, requirements: Requirements, text: string, id: Id)
    requires rb in db.routebooks && base.Some? && db.routebooks[rb].current != base
    ensures SaveRequirements(db, rb, run, base, seen, requirements, text, id)
         == Outcome(db, Err(if Live(db, rb) then VersionConflict else NotFound))
  {
  }

  /** Saving a plan adds the versions of its commit. */
  lemma SavedVersions(
    db: Db, rb: Id, run: Id, base: Id, seen: Snapshot, loaded: Snapshot,
    result: PlannerData.PlanningResult, spare: Id, id: Id)
    ensures var saved := SavePlan(db, rb, run, base, seen, loaded, result, spare, id).db;
      if !result.feasible || result.draft.None? || !Live(db, rb) then saved == db
      else
        var row := if run in db.runs then run else spare;
        var started :=
          if run in db.runs then db else AddRun(db, spare, Run(Planning, rb, Some(base), None, None));
        var content := PlanPersistence.PlanSnapshot(loaded, result.draft.value);
        var change := Change(rb, row, Some(base), content, seen, Changed, NoMessage);
        saved.versions == Commit(started, change, id).db.versions
  {
    hide Commit, PlanPersistence.PlanSnapshot, AddRun;
  }

  lemma StalePlan(
    db: Db, rb: Id, run: Id, base: Id, seen: Snapshot, loaded: Snapshot,
    result: PlannerData.PlanningResult, spare: Id, id: Id)
    requires rb in db.routebooks && db.routebooks[rb].current != Some(base)
    ensures SavePlan(db, rb, run, base, seen, loaded, result, spare, id).db.versions == db.versions
  {
    hide SavePlan, Commit, PlanPersistence.PlanSnapshot;
    SavedVersions(db, rb, run, base, seen, loaded, result, spare, id);
    if result.feasible && result.draft.Some? {
      var content := PlanPersistence.PlanSnapshot(loaded, result.draft.value);
      if run in db.runs {
        StaleCommit(db, Change(rb, run, Some(base), content, seen, Changed, NoMessage), id);
      } else {
        StaleCommit(AddRun(db, spare, Run(Planning, rb, Some(base), None, None)),
                    Change(rb, spare, Some(base), content, seen, Changed, NoMessage), id);
      }
    }
  }

  lemma StaleEdit(db: Db, rb: Id, base: Id, seen: Snapshot, plan: EditPlan, operation: Id, proposal: Id, id: Id)
    requires rb in db.routebooks && db.routebooks[rb].current != Some(base)
    ensures Execute(db, rb, base, seen, plan, operation, proposal, id).db.versions == db.versions
  {
    if plan.preview.Some? {
      StaleCommit(EditStarted(db, rb, base, operation),
                  Change(rb, operation, Some(base), plan.preview.value, seen, Changed, Fingerprint(plan)), id);
    }
  }

  lemma StaleEnrichments(db: Db, rb: Id, run: Id, seen: Snapshot, enrichments: seq<Enrichment>, id: Id)
    requires rb in db.routebooks && (run in db.runs ==> db.routebooks[rb].current != db.runs[run].base)
    ensures SaveEnrichments(db, rb, run, seen, enrichments, id).db.versions == db.versions
  {
    if run in db.runs {
      StaleCommit(db, Change(rb, run, db.runs[run].base, seen.(enrichments := enrichments), seen, Changed, NoMessage),
                  id);
    }
  }

  lemma StaleStepCommitsNothing(w: World, step: Step)
    requires Sound(w) && Allowed(w, step)
    requires step.DoRequirements? || step.DoPlan? || step.DoEnrichments? || step.DoExecute?
    requires w.jobs[step.job].base.Some? && w.jobs[step.job].routebook in w.db.routebooks
    requires w.db.routebooks[w.jobs[step.job].routebook].current != w.jobs[step.job].base
    ensures Next(w, step).versions == w.db.versions
  {
    hide Inv, SaveRequirements, SavePlan, SaveEnrichments, Execute, ResolveProposal, Undo, Finalize;
    JobRead(w, step.job);
    var job := w.jobs[step.job];
    match step {
      case DoRequirements(_, requirements, text, v) =>
        StaleRequirements(w.db, job.routebook, job.run.value, job.base, job.seen, requirements, text, v);
      case DoPlan(_, loaded, result, run, v) =>
        StalePlan(w.db, job.routebook, job.run.value, job.base.value, job.seen, loaded, result, run, v);
      case DoEnrichments(_, enrichments, v) =>
        StaleEnrichments(w.db, job.routebook, job.run.value, job.seen, enrichments, v);
      case DoExecute(_, plan, operation, p, v) =>
        StaleEdit(w.db, job.routebook, job.base.value, job.seen, plan, operation, p, v);
    }
  }
}
