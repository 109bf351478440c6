/** The life of a change proposal over whole runs. */
module ProposalRuns {
  import opened Wrappers
  import opened RequirementData
  import opened SnapshotData
  import opened Editing
  import opened Database
  import opened Invariants
  import opened Preservation
  import opened Transactions
  import opened Protocol
  import opened Histories

  // ---- acceptance is a version ----------------------------------------------------------------

  ghost predicate CarriesRun(db: Db, v: Id, run: Id) {
    v in db.versions && db.versions[v].run == run
  }

  /** A run has at most one version, and its result points to that version. */
  lemma OneVersionPerRun(db: Db, v: Id, w: Id)
    requires Linear(db) && v in db.versions && w in db.versions && db.versions[v].run == db.versions[w].run
    ensures v == w
    ensures db.versions[v].run in db.runs && db.runs[db.versions[v].run].result == Some(v)
  {
    assert VersionOk(db, v) && VersionOk(db, w);
  }

  ghost predicate OneVersion(db: Db, p: Proposal) {
    exists v :: AcceptedAs(db, p, v) && forall w :: CarriesRun(db, w, p.run) ==> w == v
  }

  /**
   * A proposal is accepted exactly when one version carries its run, and that version follows the proposal's base
   * and holds its preview; it is never found expired.
   */
  lemma AcceptedIffCommitted(ws: seq<World>, steps: seq<Step>, i: nat, proposal: Id)
    requires IsRun(ws, steps) && i < |ws| && proposal in ws[i].db.proposals
    ensures ws[i].db.proposals[proposal].status in {Pending, Accepted, Rejected}
    ensures ws[i].db.proposals[proposal].status == Accepted <==> OneVersion(ws[i].db, ws[i].db.proposals[proposal])
    ensures ws[i].db.proposals[proposal].status == Accepted <==>
              exists v :: CarriesRun(ws[i].db, v, ws[i].db.proposals[proposal].run)
  {
    AlwaysSound(ws, steps, i);
    AcceptedMeansVersion(ws[i].db, proposal);
  }

  lemma AcceptedMeansVersion(db: Db, proposal: Id)
    requires Inv(db) && proposal in db.proposals
    ensures db.proposals[proposal].status in {Pending, Accepted, Rejected}
    ensures db.proposals[proposal].status == Accepted <==> OneVersion(db, db.proposals[proposal])
    ensures db.proposals[proposal].status == Accepted <==> exists v :: CarriesRun(db, v, db.proposals[proposal].run)
  {
    assert ProposalOk(db, proposal);
    var p := db.proposals[proposal];
    forall v | CarriesRun(db, v, p.run) ensures p.run in db.versionOf && db.versionOf[p.run] == v {
      assert VersionOk(db, v);
    }
    if p.status == Accepted {
      var v := db.versionOf[p.run];
      assert AcceptedAs(db, p, v) && CarriesRun(db, v, p.run);
    }
    forall v | AcceptedAs(db, p, v) ensures CarriesRun(db, v, p.run) {
    }
  }

  // ---- decided once ---------------------------------------------------------------------------

  /** A proposal leaves pending at most once, and nothing else about it ever changes. */
  lemma DecidedOnce(ws: seq<World>, steps: seq<Step>, i: nat, j: nat, proposal: Id)
    requires IsRun(ws, steps) && i <= j < |ws| && proposal in ws[i].db.proposals
    ensures proposal in ws[j].db.proposals
    ensures ws[i].db.proposals[proposal].status != Pending ==>
              ws[j].db.proposals[proposal].status == ws[i].db.proposals[proposal].status
    ensures ws[j].db.proposals[proposal] == ws[i].db.proposals[proposal].(status := ws[j].db.proposals[proposal].status)
  {
    NothingTakenBack(ws, steps, i, j);
    assert ProposalsEvolve(ws[i].db, ws[j].db);
  }

  // ---- no revival -----------------------------------------------------------------------------

  ghost predicate IsStale(db: Db, proposal: Id)
    requires proposal in db.proposals
  {
    var p := db.proposals[proposal];
    p.status == Pending && p.routebook in db.routebooks && db.routebooks[p.routebook].current != Some(p.base)
  }

  /** The successor of an outdated base is already there, so whoever follows that base later did so all along. */
  lemma SuccessorIsOld(a: Db, b: Db, rb: Id, base: Id, v: Id)
    requires Linear(a) && Linear(b) && Evolves(a, b)
    requires rb in a.routebooks && IsVersion(a, base, rb) && a.routebooks[rb].current != Some(base)
    requires v in b.versions && b.versions[v].parent == Some(base)
    ensures v in a.versions
  {
    SuccessorExists(a, rb, base);
    assert VersionsEvolve(a, b);
    var w :| IsVersion(a, w, rb) && a.versions[w].parent == Some(base);
    NoForks(b, v, w);
  }

  lemma AcceptedAllAlong(a: Db, b: Db, proposal: Id)
    requires Inv(a) && Inv(b) && Evolves(a, b) && proposal in a.proposals && proposal in b.proposals
    requires a.proposals[proposal].routebook in a.routebooks
    requires a.routebooks[a.proposals[proposal].routebook].current != Some(a.proposals[proposal].base)
    requires b.proposals[proposal].status == Accepted
    ensures a.proposals[proposal].status == Accepted
  {
    assert ProposalsEvolve(a, b) && VersionsEvolve(a, b);
    var p := a.proposals[proposal];
    assert ProposalOk(a, proposal) && ProposalOk(b, proposal);
    var v := b.versionOf[p.run];
    SuccessorIsOld(a, b, p.routebook, p.base, v);
    assert VersionOk(a, v);
  }

  lemma StaleIsNeverAccepted(a: Db, b: Db, proposal: Id)
    requires Inv(a) && Inv(b) && Evolves(a, b)
    requires proposal in a.proposals && IsStale(a, proposal)
    ensures proposal in b.proposals && b.proposals[proposal].status != Accepted
    ensures b.proposals[proposal].routebook in b.routebooks
    ensures b.routebooks[b.proposals[proposal].routebook].current != Some(b.proposals[proposal].base)
  {
    assert ProposalsEvolve(a, b);
    assert ProposalOk(a, proposal);
    NeverCurrentAgain(a, b, a.proposals[proposal].routebook, a.proposals[proposal].base);
    if b.proposals[proposal].status == Accepted {
      AcceptedAllAlong(a, b, proposal);
    }
  }

  lemma SuccessorExists(db: Db, rb: Id, base: Id)
    requires Linear(db) && rb in db.routebooks && IsVersion(db, base, rb) && db.routebooks[rb].current != Some(base)
    ensures exists v :: IsVersion(db, v, rb) && db.versions[v].parent == Some(base)
  {
    HistoryIsLinear(db, rb);
    var h := HistoryOf(db, rb);
    var k: nat :| k < |h| && h[k] == base;
    assert Link(db, rb, h, k) && Link(db, rb, h, k + 1);
    assert IsVersion(db, h[k + 1], rb);
  }

  /**
   * Main result: once the current version has moved past a pending proposal's base, no later state shows it as
   * accepted, and every decision about it while it is pending is refused without any trace.
   */
  lemma NoRevival(ws: seq<World>, steps: seq<Step>, i: nat, j: nat, proposal: Id, accept: bool, id: Id)
    requires IsRun(ws, steps) && i <= j < |ws| && id !in ws[j].db.versions
    requires proposal in ws[i].db.proposals && IsStale(ws[i].db, proposal)
    ensures proposal in ws[j].db.proposals && ws[j].db.proposals[proposal].status != Accepted
    ensures ws[j].db.proposals[proposal].status == Pending ==>
              Settle(ws[j].db, ResolveProposal(ws[j].db, proposal, accept, id)).db == ws[j].db
              && ResolveProposal(ws[j].db, proposal, accept, id).result.Err?
  {
    AlwaysSound(ws, steps, i);
    AlwaysSound(ws, steps, j);
    NothingTakenBack(ws, steps, i, j);
    StaleIsNeverAccepted(ws[i].db, ws[j].db, proposal);
    StaleIsRefused(ws[j].db, proposal, accept, id);
  }

  lemma StaleIsRefused(db: Db, proposal: Id, accept: bool, id: Id)
    requires Inv(db) && proposal in db.proposals && db.proposals[proposal].routebook in db.routebooks
    requires db.routebooks[db.proposals[proposal].routebook].current != Some(db.proposals[proposal].base)
    ensures db.proposals[proposal].status == Pending ==>
              Settle(db, ResolveProposal(db, proposal, accept, id)).db == db
              && ResolveProposal(db, proposal, accept, id).result.Err?
  {
    assert ProposalOk(db, proposal);
  }

  // ---- what an edit may write -----------------------------------------------------------------

  /** When a new operation may write: resolved, every unaffected day kept and, if committed directly, not outdated. */
  predicate MayWrite(db: Db, rb: Id, base: Id, seen: Snapshot, plan: EditPlan) {
    && plan.resolution.resolved && plan.preview.Some?
    && DaysUnchanged(seen, plan.preview.value, plan.impact.days)
    && (plan.impact.confirm || (Live(db, rb) && db.routebooks[rb].current == Some(base)))
  }

  lemma EditCommitOutcome(db: Db, rb: Id, base: Id, seen: Snapshot, plan: EditPlan, operation: Id, id: Id)
    requires Inv(db) && operation !in db.runs && id !in db.versions && rb in db.routebooks
    requires HasRead(db, rb, Some(base), seen) && plan.preview.Some?
    ensures var started := EditStarted(db, rb, base, operation);
      var c := Change(rb, operation, Some(base), plan.preview.value, seen, Changed, Fingerprint(plan));
      if Live(db, rb) && db.routebooks[rb].current == Some(base)
      then Commit(started, c, id) == Outcome(Append(started, c, id), Ok(id))
      else Commit(started, c, id).result.Err?
  {
    EditStartedKeeps(db, rb, base, seen, operation);
    CommitSucceedsIff(EditStarted(db, rb, base, operation),
                      Change(rb, operation, Some(base), plan.preview.value, seen, Changed, Fingerprint(plan)), id);
  }

  /** What a new operation writes besides its own run: a proposal or a version, never both. */
  ghost predicate Writes(
    db: Db, after: Db, rb: Id, base: Id, seen: Snapshot, plan: EditPlan, operation: Id, proposal: Id, id: Id)
    requires plan.preview.Some?
  {
    var preview := plan.preview.value;
    if plan.impact.confirm then
      && after.versions == db.versions && after.routebooks == db.routebooks
      && after.proposals == db.proposals[proposal := Proposal(rb, base, operation, preview, plan, Pending, seen)]
    else
      && after.proposals == db.proposals
      && after.versions == db.versions[
           id := Version(rb, NextNumber(db, Some(base)), Some(base), preview, Changed,
                         Fingerprint(plan), operation, seen)]
  }

  /** A known operation writes nothing. */
  lemma KnownOperation(
    db: Db, rb: Id, base: Id, seen: Snapshot, plan: EditPlan, operation: Id, proposal: Id, id: Id)
    requires operation in db.runs
    ensures Settle(db, Execute(db, rb, base, seen, plan, operation, proposal, id)).db == db
  {
  }

  /** A commit adds at most its own version, under its own run. */
  lemma CommitBrings(db: Db, c: Change, id: Id)
    ensures var after := Commit(db, c, id).db;
      && after.proposals == db.proposals
      && (forall r :: r in db.runs ==> r in after.runs && after.runs[r].kind == db.runs[r].kind)
      && (forall v :: v in after.versions && v !in db.versions ==>
            c.run in db.runs && after.versions[v] == NewVersion(c, NextNumber(db, c.base)))
  {
    var after := Commit(db, c, id).db;
    if after != db {
      assert after == Append(db, c, id);
    }
  }

  /** A new operation that is answered has an operation run. */
  lemma OperationIsRun(
    db: Db, rb: Id, base: Id, seen: Snapshot, plan: EditPlan, operation: Id, proposal: Id, id: Id)
    requires operation !in db.runs
    ensures var after := Settle(db, Execute(db, rb, base, seen, plan, operation, proposal, id));
      after.result.Ok? ==> operation in after.db.runs && after.db.runs[operation].kind == Operating
  {
    hide DaysUnchanged, Commit;
    if plan.preview.Some? {
      CommitBrings(AddRun(db, operation, Run(Operating, rb, Some(base), None, None)),
                   Change(rb, operation, Some(base), plan.preview.value, seen, Changed, Fingerprint(plan)), id);
    }
  }

  lemma ExecuteWrites(db: Db, rb: Id, base: Id, seen: Snapshot, plan: EditPlan, operation: Id, proposal: Id, id: Id)
    requires Inv(db) && operation !in db.runs && proposal !in db.proposals && id !in db.versions
    requires HasRead(db, rb, Some(base), seen) && rb in db.routebooks
    requires MayWrite(db, rb, base, seen, plan)
    ensures Execute(db, rb, base, seen, plan, operation, proposal, id).result.Ok?
    ensures Writes(db, Execute(db, rb, base, seen, plan, operation, proposal, id).db,
                   rb, base, seen, plan, operation, proposal, id)
  {
    hide DaysUnchanged, Inv;
    if !plan.impact.confirm {
      EditCommitOutcome(db, rb, base, seen, plan, operation, id);
    }
  }

  /** Main result: a new operation creates a version or a proposal exactly when it may, and otherwise nothing. */
  lemma ExecuteWritesIff(db: Db, rb: Id, base: Id, seen: Snapshot, plan: EditPlan, operation: Id, proposal: Id, id: Id)
    requires Inv(db) && operation !in db.runs && proposal !in db.proposals && id !in db.versions
    requires HasRead(db, rb, Some(base), seen) && rb in db.routebooks
    ensures var after := Settle(db, Execute(db, rb, base, seen, plan, operation, proposal, id));
      if MayWrite(db, rb, base, seen, plan)
      then after.result.Ok? && Writes(db, after.db, rb, base, seen, plan, operation, proposal, id)
      else after.result.Err? && after.db == db
  {
    if MayWrite(db, rb, base, seen, plan) {
      ExecuteWrites(db, rb, base, seen, plan, operation, proposal, id);
    } else if plan.preview.Some? {
      EditCommitOutcome(db, rb, base, seen, plan, operation, id);
    }
  }
}
