/** Idempotent delivery: a repeated request returns the first answer and writes nothing, in every later state. */
module Delivery {
  import opened Wrappers
  import opened RequirementData
  import opened SnapshotData
  import opened Editing
  import opened Database
  import opened Invariants
  import opened Preservation
  import opened Transactions
  import opened Protocol
  import opened ProposalRuns

  // ---- creation keys --------------------------------------------------------------------------

  ghost predicate CreationRecorded(db: Db, key: string, hash: string, reply: CreationReply) {
    key in db.creations && db.creations[key] == Creation(hash, reply.routebook, reply.run)
  }

  lemma CreateRecords(db: Db, key: string, hash: string, rb: Id, run: Id)
    requires Create(db, key, hash, rb, run).result.Ok?
    ensures CreationRecorded(Create(db, key, hash, rb, run).db, key, hash, Create(db, key, hash, rb, run).result.value)
  {
  }

  /**
   * Once a creation key has been used, every later use returns the same routebook and run, or is refused when its
   * content differs, and changes nothing.
   */
  lemma RepeatedCreation(
    ws: seq<World>, steps: seq<Step>, i: nat, j: nat, key: string, hash: string, rb: Id, run: Id, reply: CreationReply,
    hash': string, rb': Id, run': Id)
    requires IsRun(ws, steps) && i < j < |ws| && steps[i] == DoCreate(key, hash, rb, run)
    requires Create(ws[i].db, key, hash, rb, run).result == Ok(reply)
    ensures Create(ws[j].db, key, hash', rb', run') ==
            Outcome(ws[j].db, if hash' == hash then Ok(reply.(reused := true)) else Err(IdempotencyConflict))
  {
    assert StepAt(ws, steps, i);
    CreateRecords(ws[i].db, key, hash, rb, run);
    NothingTakenBack(ws, steps, i + 1, j);
    assert Extends(ws[i + 1].db.creations, ws[j].db.creations);
  }

  // ---- operation ids --------------------------------------------------------------------------

  /** The operation's run keeps its plan, in its proposal or in its version, and its answer. */
  ghost predicate OperationRecorded(db: Db, rb: Id, operation: Id, plan: EditPlan, reply: EditReply) {
    && operation in db.runs && db.runs[operation].routebook == rb
    && db.runs[operation].proposal == reply.proposal
    && (reply.version.Some? ==> db.runs[operation].result == reply.version)
    && (reply.proposal.None? ==> reply.version.Some?)
    && StoredFingerprint(db, db.runs[operation]) == Fingerprint(plan)
  }

  lemma ExecuteRecords(
    db: Db, rb: Id, base: Id, seen: Snapshot, plan: EditPlan, operation: Id, proposal: Id, id: Id)
    requires Inv(db) && id !in db.versions && proposal !in db.proposals && rb in db.routebooks
    requires HasRead(db, rb, Some(base), seen)
    requires Execute(db, rb, base, seen, plan, operation, proposal, id).result.Ok?
    ensures var after := Execute(db, rb, base, seen, plan, operation, proposal, id);
      OperationRecorded(after.db, rb, operation, plan, after.result.value)
  {
    hide DaysUnchanged, Inv;
    if operation !in db.runs && !plan.impact.confirm {
      EditCommitOutcome(db, rb, base, seen, plan, operation, id);
    }
  }

  lemma OperationStaysRecorded(a: Db, b: Db, rb: Id, operation: Id, plan: EditPlan, reply: EditReply)
    requires Inv(a) && Evolves(a, b) && OperationRecorded(a, rb, operation, plan, reply)
    ensures OperationRecorded(b, rb, operation, plan, reply)
  {
    assert RunsEvolve(a, b) && ProposalsEvolve(a, b) && VersionsEvolve(a, b);
    assert RunOk(a, operation);
  }

  /** An operation id answers as before for the same plan on the same routebook, and is refused for anything else. */
  lemma RecordedOperationReplays(
    db: Db, rb: Id, operation: Id, plan: EditPlan, reply: EditReply,
    rb': Id, base': Id, seen': Snapshot, plan': EditPlan, proposal': Id, id': Id)
    requires OperationRecorded(db, rb, operation, plan, reply)
    requires plan'.resolution.resolved && plan'.preview.Some?
    ensures Execute(db, rb', base', seen', plan', operation, proposal', id') ==
            Outcome(db, if rb' == rb && plan' == plan
                        then Ok(EditReply(reply.proposal, db.runs[operation].result, true))
                        else Err(IdempotencyConflict))
    ensures reply.version.Some? ==> db.runs[operation].result == reply.version
  {
  }

  /** Main result for edits: a repeated operation id is answered from its record in every later state. */
  lemma RepeatedOperation(
    ws: seq<World>, steps: seq<Step>, i: nat, j: nat, reply: EditReply,
    rb': Id, base': Id, seen': Snapshot, plan': EditPlan, proposal': Id, id': Id)
    requires IsRun(ws, steps) && i < j < |ws| && steps[i].DoExecute? && Allowed(ws[i], steps[i])
    requires var s, job := steps[i], ws[i].jobs[steps[i].job];
      Execute(ws[i].db, job.routebook, job.base.value, job.seen,
              s.plan, s.operation, s.newProposal, s.newVersion).result
      == Ok(reply)
    requires plan'.resolution.resolved && plan'.preview.Some?
    ensures var operation := steps[i].operation;
      && operation in ws[j].db.runs
      && (reply.version.Some? ==> ws[j].db.runs[operation].result == reply.version)
      && Execute(ws[j].db, rb', base', seen', plan', operation, proposal', id') ==
         Outcome(ws[j].db, if rb' == ws[i].jobs[steps[i].job].routebook && plan' == steps[i].plan
                           then Ok(EditReply(reply.proposal, ws[j].db.runs[operation].result, true))
                           else Err(IdempotencyConflict))
  {
    var s, job := steps[i], ws[i].jobs[steps[i].job];
    OperationIsRecorded(ws, steps, i, j, reply);
    RecordedOperationReplays(ws[j].db, job.routebook, s.operation, s.plan,
                             reply, rb', base', seen', plan', proposal', id');
  }

  lemma OperationIsRecorded(ws: seq<World>, steps: seq<Step>, i: nat, j: nat, reply: EditReply)
    requires IsRun(ws, steps) && i < j < |ws| && steps[i].DoExecute? && Allowed(ws[i], steps[i])
    requires var s, job := steps[i], ws[i].jobs[steps[i].job];
      Execute(ws[i].db, job.routebook, job.base.value, job.seen,
              s.plan, s.operation, s.newProposal, s.newVersion).result
      == Ok(reply)
    ensures OperationRecorded(ws[j].db, ws[i].jobs[steps[i].job].routebook, steps[i].operation, steps[i].plan, reply)
  {
    hide Evolves, Execute, Inv, SavePlan;
    var s, job := steps[i], ws[i].jobs[steps[i].job];
    AlwaysSound(ws, steps, i);
    AlwaysSound(ws, steps, i + 1);
    assert StepAt(ws, steps, i) && JobOk(ws[i].db, ws[i].jobs[s.job]);
    ExecuteRecords(ws[i].db, job.routebook, job.base.value, job.seen, s.plan, s.operation, s.newProposal, s.newVersion);
    NothingTakenBack(ws, steps, i + 1, j);
    OperationStaysRecorded(ws[i + 1].db, ws[j].db, job.routebook, s.operation, s.plan, reply);
  }

  lemma UndoRecords(db: Db, rb: Id, operation: Id, v: Id, reply: EditReply)
    requires Inv(db) && v !in db.versions && Undo(db, rb, operation, v).result == Ok(reply)
    ensures var after := Undo(db, rb, operation, v).db;
      operation in after.runs && after.runs[operation].routebook == rb && after.runs[operation].result == reply.version
    ensures operation !in db.runs ==> reply.version == Some(v)
  {
    if operation !in db.runs {
      UndoOutcome(db, rb, operation, v);
    }
  }

  /**
   * An undo's operation id answers with the result of its run in every later state, which is the version of the first
   * answer if that had one, and changes nothing; a different routebook is refused.
   */
  lemma RepeatedUndo(
    ws: seq<World>, steps: seq<Step>, i: nat, j: nat, rb: Id, operation: Id, v: Id, reply: EditReply, rb': Id, id': Id)
    requires IsRun(ws, steps) && i < j < |ws| && steps[i] == DoUndo(rb, operation, v)
    requires Undo(ws[i].db, rb, operation, v).result == Ok(reply)
    ensures operation in ws[j].db.runs && (reply.version.Some? ==> ws[j].db.runs[operation].result == reply.version)
    ensures operation !in ws[i].db.runs ==> reply.version == Some(v)
    ensures Undo(ws[j].db, rb', operation, id') ==
            Outcome(ws[j].db, if rb' == rb then Ok(EditReply(None, ws[j].db.runs[operation].result, true))
                else Err(IdempotencyConflict))
  {
    hide Commit;
    AlwaysSound(ws, steps, i);
    assert StepAt(ws, steps, i);
    UndoRecords(ws[i].db, rb, operation, v, reply);
    NothingTakenBack(ws, steps, i + 1, j);
    assert RunsEvolve(ws[i + 1].db, ws[j].db);
  }

  // ---- decisions ------------------------------------------------------------------------------

  function Verdict(accept: bool): ProposalStatus {
    if accept then Accepted else Rejected
  }

  ghost predicate Decided(db: Db, proposal: Id, accept: bool, reply: EditReply) {
    && proposal in db.proposals && db.proposals[proposal].status == Verdict(accept)
    && db.proposals[proposal].run in db.runs
    && reply.proposal == Some(proposal) && reply.version == db.runs[db.proposals[proposal].run].result
    && (accept <==> reply.version.Some?)
  }

  /** In a sound state a decided proposal has a version exactly when it was accepted. */
  lemma DecidedHasResult(db: Db, proposal: Id, accept: bool)
    requires Inv(db) && proposal in db.proposals && db.proposals[proposal].status == Verdict(accept)
    ensures db.proposals[proposal].run in db.runs
    ensures Decided(db, proposal, accept, EditReply(Some(proposal), db.runs[db.proposals[proposal].run].result, true))
  {
    assert ProposalOk(db, proposal);
    var run := db.proposals[proposal].run;
    assert RunOk(db, run);
    if run in db.versionOf {
      assert VersionOk(db, db.versionOf[run]);
    } else {
      NoResultYet(db, run);
    }
  }

  lemma DecisionIsRecorded(db: Db, proposal: Id, accept: bool, id: Id)
    requires Inv(db) && id !in db.versions && ResolveProposal(db, proposal, accept, id).result.Ok?
    ensures var after := ResolveProposal(db, proposal, accept, id);
      && proposal in after.db.proposals && after.db.proposals[proposal].status == Verdict(accept)
      && after.db.proposals[proposal].run in after.db.runs
      && after.result.value.proposal == Some(proposal)
      && (after.result.value.version.Some? ==>
            after.db.runs[after.db.proposals[proposal].run].result == after.result.value.version)
      && (after.result.value.version.None? ==> after.db.runs[after.db.proposals[proposal].run].result.None?)
  {
    assert ProposalOk(db, proposal);
    DecisionOutcome(db, proposal, accept, id);
    if Acceptable(db, proposal) && !accept {
      NoResultYet(db, db.proposals[proposal].run);
    }
  }

  lemma DecisionStays(a: Db, b: Db, proposal: Id, accept: bool, reply: EditReply)
    requires Inv(b) && Evolves(a, b) && Decided(a, proposal, accept, reply)
    ensures Decided(b, proposal, accept, reply)
  {
    assert ProposalsEvolve(a, b) && RunsEvolve(a, b);
    DecidedHasResult(b, proposal, accept);
  }

  lemma DecidedReplays(db: Db, proposal: Id, accept: bool, reply: EditReply, accept': bool, id': Id)
    requires Decided(db, proposal, accept, reply)
    ensures ResolveProposal(db, proposal, accept', id') ==
            Outcome(db, if accept' == accept then Ok(reply.(reused := true)) else Err(StateConflict))
  {
  }

  lemma DecisionRecords(w: World, proposal: Id, accept: bool, v: Id, after: World, reply: EditReply)
    requires Sound(w) && Sound(after) && v !in w.db.versions
    requires after.db == Settle(w.db, ResolveProposal(w.db, proposal, accept, v)).db
    requires ResolveProposal(w.db, proposal, accept, v).result == Ok(reply)
    ensures Decided(after.db, proposal, accept, reply)
  {
    DecisionIsRecorded(w.db, proposal, accept, v);
    DecidedHasResult(after.db, proposal, accept);
  }

  /** Main result for decisions: repeating one returns its answer, the opposite one is refused, nothing changes. */
  lemma RepeatedDecision(
    ws: seq<World>, steps: seq<Step>, i: nat, j: nat, proposal: Id,
    accept: bool, v: Id, reply: EditReply, accept': bool, id': Id)
    requires IsRun(ws, steps) && i < j < |ws| && steps[i] == DoDecide(proposal, accept, v)
    requires ResolveProposal(ws[i].db, proposal, accept, v).result == Ok(reply)
    ensures ResolveProposal(ws[j].db, proposal, accept', id') ==
            Outcome(ws[j].db, if accept' == accept then Ok(reply.(reused := true)) else Err(StateConflict))
  {
    hide Inv;
    AlwaysSound(ws, steps, i);
    AlwaysSound(ws, steps, i + 1);
    AlwaysSound(ws, steps, j);
    assert StepAt(ws, steps, i);
    DecisionRecords(ws[i], proposal, accept, v, ws[i + 1], reply);
    NothingTakenBack(ws, steps, i + 1, j);
    DecisionStays(ws[i + 1].db, ws[j].db, proposal, accept, reply);
    DecidedReplays(ws[j].db, proposal, accept, reply, accept', id');
  }

  // ---- run ids --------------------------------------------------------------------------------

  /**
   * Main result for runs: a run has at most one version ever,
   * its result is written once, and committing again returns it.
   */
  lemma RepeatedCommit(ws: seq<World>, steps: seq<Step>, i: nat, j: nat, v: Id, c: Change, id: Id)
    requires IsRun(ws, steps) && i <= j < |ws| && v in ws[i].db.versions && c.run == ws[i].db.versions[v].run
    ensures Commit(ws[j].db, c, id) == Outcome(ws[j].db, Ok(v))
    ensures ws[j].db.runs[c.run].result == Some(v)
    ensures forall w :: CarriesRun(ws[j].db, w, c.run) ==> w == v
  {
    AlwaysSound(ws, steps, i);
    AlwaysSound(ws, steps, j);
    NothingTakenBack(ws, steps, i, j);
    assert VersionsEvolve(ws[i].db, ws[j].db);
    assert VersionOk(ws[j].db, v);
    forall w | CarriesRun(ws[j].db, w, c.run) ensures w == v {
      OneVersionPerRun(ws[j].db, w, v);
    }
  }
}
