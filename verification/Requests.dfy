/**
 * The transactions of the backend on valid tables. Each one leaves the tables valid, takes nothing
 * back and tells its caller what it has achieved; a refusal leaves the tables as they were.
 */
module Requests {
  import opened Wrappers
  import opened RequirementData
  import opened SnapshotData
  import opened Editing
  import opened Invariants
  import opened Transactions
  import opened Outcomes
  import opened Store
  import Database
  import Delivery
  import Histories
  import PlannerData
  import PlanPersistence
  import ProposalRuns
  import UndoRuns

  /**
   * A new key is recorded with its routebook and run; a known
   * one is answered from its record, unless its content differs.
   */
  method Create(
    session: Session, key: string, hash: string, rb: Id, run: Id)
    returns (r: Result<Database.CreationReply, Failure>)
    requires session.Valid() && rb !in session.routebooks && run !in session.runs
    modifies session
    ensures session.Valid() && Evolves(old(session.Tables()), session.Tables())
    ensures r.Ok? ==> Delivery.CreationRecorded(session.Tables(), key, hash, r.value)
    ensures r.Ok? && r.value.reused ==> session.Tables() == old(session.Tables())
    ensures r.Ok? ==> r.value.run in session.runs && session.runs[r.value.run].routebook == r.value.routebook
    ensures r.Err? ==>
        session.Tables() == old(session.Tables()) && key in session.creations && session.creations[key].hash != hash
  {
    CreateKeeps(session.Tables(), key, hash, rb, run);
    CreateAchieves(session.Tables(), key, hash, rb, run);
    r := session.Create(key, hash, rb, run);
  }

  /** The first version of a routebook: empty, and committed only where there is no other. */
  method CommitInitial(session: Session, run: Id, id: Id) returns (r: Result<Id, Failure>)
    requires session.Valid() && id !in session.versions
    requires run in session.runs ==> session.runs[run].kind == Database.Creating
    modifies session
    ensures session.Valid() && Evolves(old(session.Tables()), session.Tables())
    ensures r.Ok? ==> run in old(session.runs)
    ensures r.Ok? ==>
        Committed(old(session.Tables()), session.Tables(),
                  old(session.runs)[run].routebook, run, None, EMPTY_SNAPSHOT, r.value)
    ensures r.Err? ==> session.Tables() == old(session.Tables())
  {
    CommitInitialKeeps(session.Tables(), run, id);
    InitialAchieves(session.Tables(), run, id);
    r := session.CommitInitial(run, id);
  }

  /** The requirements go on top of what the job had read, even if an empty first version came in between. */
  method SaveRequirements(
    session: Session, rb: Id, run: Id, base: Option<Id>, seen: Snapshot,
    requirements: Requirements, text: string, id: Id)
    returns (r: Result<Id, Failure>)
    requires session.Valid() && id !in session.versions && HasRead(session.Tables(), rb, base, seen)
    requires run in session.runs ==> session.runs[run].kind == Database.Refining && session.runs[run].routebook == rb
    modifies session
    ensures session.Valid() && Evolves(old(session.Tables()), session.Tables())
    ensures r.Ok? ==> rb in old(session.routebooks)
    ensures r.Ok? ==>
        Committed(old(session.Tables()), session.Tables(), rb, run,
                  old(session.routebooks)[rb].current, seen.(requirements := requirements), r.value)
    ensures r.Err? ==> session.Tables() == old(session.Tables())
  {
    SaveRequirementsKeeps(session.Tables(), rb, run, base, seen, requirements, text, id);
    RequirementsAchieve(session.Tables(), rb, run, base, seen, requirements, text, id);
    r := session.SaveRequirements(rb, run, base, seen, requirements, text, id);
  }

  /**
   * A feasible plan goes on top of the version it was planned
   * from, under its run or, if that is missing, under a new one.
   */
  method SavePlan(
    session: Session, rb: Id, run: Id, base: Id, seen: Snapshot, loaded: Snapshot,
    result: PlannerData.PlanningResult, spare: Id, id: Id)
    returns (r: Result<Id, Failure>)
    requires session.Valid() && id !in session.versions && spare !in session.runs
    requires HasRead(session.Tables(), rb, Some(base), seen) && LoadedFrom(seen, loaded)
    requires run in session.runs ==> session.runs[run].kind == Database.Planning && session.runs[run].routebook == rb
    modifies session
    ensures session.Valid() && Evolves(old(session.Tables()), session.Tables())
    ensures r.Ok? ==> result.feasible && result.draft.Some?
    ensures r.Ok? ==>
        Committed(old(session.Tables()), session.Tables(), rb, if run in old(session.runs) then run else spare,
                  Some(base), PlanPersistence.PlanSnapshot(loaded, result.draft.value), r.value)
    ensures r.Err? ==> session.Tables() == old(session.Tables())
  {
    SavePlanKeeps(session.Tables(), rb, run, base, seen, loaded, result, spare, id);
    PlanAchieves(session.Tables(), rb, run, base, seen, loaded, result, spare, id);
    r := session.SavePlan(rb, run, base, seen, loaded, result, spare, id);
  }

  /** Enrichments go on top of the version they were made for. */
  method SaveEnrichments(
    session: Session, rb: Id, run: Id, seen: Snapshot, enrichments: seq<Enrichment>, id: Id)
    returns (r: Result<Option<Id>, Failure>)
    requires session.Valid() && id !in session.versions
    requires run in session.runs ==>
      session.runs[run].kind == Database.Enriching && session.runs[run].routebook == rb && HasRead(session.Tables(), rb,
          session.runs[run].base, seen)
    modifies session
    ensures session.Valid() && Evolves(old(session.Tables()), session.Tables())
    ensures r.Ok? && r.value.Some? ==> run in old(session.runs)
    ensures r.Ok? && r.value.Some? ==>
        Committed(old(session.Tables()), session.Tables(), rb, run, old(session.runs)[run].base,
                  seen.(enrichments := enrichments), r.value.value)
    ensures r.Err? || r.value.None? ==> session.Tables() == old(session.Tables())
  {
    SaveEnrichmentsKeeps(session.Tables(), rb, run, seen, enrichments, id);
    EnrichmentsAchieve(session.Tables(), rb, run, seen, enrichments, id);
    r := session.SaveEnrichments(rb, run, seen, enrichments, id);
  }

  /** An answered edit is on record with its plan; a new one has proposed or committed exactly if it might. */
  method Execute(
    session: Session, rb: Id, base: Id, seen: Snapshot, plan: EditPlan, operation: Id, proposal: Id, id: Id)
    returns (r: Result<Database.EditReply, Failure>)
    requires session.Valid() && id !in session.versions && proposal !in session.proposals
    requires rb in session.routebooks && HasRead(session.Tables(), rb, Some(base), seen)
    modifies session
    ensures session.Valid() && Evolves(old(session.Tables()), session.Tables())
    ensures r.Ok? ==>
        Executed(old(session.Tables()), session.Tables(), rb, base, seen, plan, operation, proposal, id, r.value)
    ensures r.Err? ==> session.Tables() == old(session.Tables())
    ensures old(operation !in session.runs && ProposalRuns.MayWrite(session.Tables(), rb, base, seen, plan)) ==> r.Ok?
  {
    ExecuteKeeps(session.Tables(), rb, base, seen, plan, operation, proposal, id);
    ExecuteAchieves(session.Tables(), rb, base, seen, plan, operation, proposal, id);
    r := session.Execute(rb, base, seen, plan, operation, proposal, id);
  }

  /** An answered decision is the one on record; it was to accept exactly when one version carries the proposal. */
  method Decide(session: Session, proposal: Id, accept: bool, id: Id) returns (r: Result<Database.EditReply, Failure>)
    requires session.Valid() && id !in session.versions
    modifies session
    ensures session.Valid() && Evolves(old(session.Tables()), session.Tables())
    ensures r.Ok? ==> proposal in session.proposals && session.proposals[proposal].status == Delivery.Verdict(accept)
    ensures r.Ok? ==> (accept <==> ProposalRuns.OneVersion(session.Tables(), session.proposals[proposal]))
    ensures r.Err? ==> session.Tables() == old(session.Tables())
  {
    DecideKeeps(session.Tables(), proposal, accept, id);
    DecideAchieves(session.Tables(), proposal, accept, id);
    r := session.Decide(proposal, accept, id);
  }

  /** A new undo succeeds exactly with two versions or more, and puts the snapshot before the last on top. */
  method Undo(session: Session, rb: Id, operation: Id, id: Id) returns (r: Result<Database.EditReply, Failure>)
    requires session.Valid() && id !in session.versions
    modifies session
    ensures session.Valid() && Evolves(old(session.Tables()), session.Tables())
    ensures old(operation !in session.runs) ==>
      if old(Database.Live(session.Tables(), rb) && |Histories.HistoryOf(session.Tables(), rb)| >= 2)
      then r.Ok? && UndoRuns.UndoneOnce(old(session.Tables()), session.Tables(), rb, operation, id)
      else r.Err? && session.Tables() == old(session.Tables())
  {
    UndoKeeps(session.Tables(), rb, operation, id);
    if operation !in session.runs {
      UndoAchieves(session.Tables(), rb, operation, id);
    }
    r := session.Undo(rb, operation, id);
  }

  /**
   * A published page is the only active one of the current
   * version, which has no issue, and its link shows that version.
   */
  method Finalize(
    session: Session, rb: Id, version: Id, policy: string, token: string, page: Id)
    returns (r: Result<Id, Failure>)
    requires session.Valid() && page !in session.pages
    modifies session
    ensures session.Valid() && Evolves(old(session.Tables()), session.Tables())
    ensures r.Ok? ==> r.value == page && Published(session.Tables(), rb, version, policy, token, page)
    ensures r.Err? ==> session.Tables() == old(session.Tables())
  {
    FinalizeKeeps(session.Tables(), rb, version, policy, token, page);
    FinalizeAchieves(session.Tables(), rb, version, policy, token, page);
    r := session.Finalize(rb, version, policy, token, page);
  }

  method Revoke(session: Session, rb: Id, page: Id) returns (r: Result<Id, Failure>)
    requires session.Valid()
    modifies session
    ensures session.Valid() && Evolves(old(session.Tables()), session.Tables())
    ensures r.Ok? ==> Withdrawn(old(session.Tables()), session.Tables(), page)
    ensures r.Err? ==> session.Tables() == old(session.Tables())
  {
    RevokeKeeps(session.Tables(), rb, page);
    RevokeAchieves(session.Tables(), rb, page);
    r := session.Revoke(rb, page);
  }

  method Delete(session: Session, rb: Id) returns (r: Result<Id, Failure>)
    requires session.Valid()
    modifies session
    ensures session.Valid() && Evolves(old(session.Tables()), session.Tables())
    ensures r.Ok? ==> Gone(session.Tables(), rb)
    ensures r.Err? ==> session.Tables() == old(session.Tables()) && !Database.Live(session.Tables(), rb)
  {
    DeleteKeeps(session.Tables(), rb);
    DeleteAchieves(session.Tables(), rb);
    r := session.Delete(rb);
  }
}
