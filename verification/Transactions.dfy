/** Each transaction of the backend, settled, keeps the invariants and takes nothing back. */
module Transactions {
  import opened Wrappers
  import opened RequirementData
  import opened SnapshotData
  import opened Editing
  import opened Database
  import opened Invariants
  import opened Preservation
  import PlannerData
  import PlanPersistence

  ghost predicate Safe(a: Db, b: Db) {
    Inv(b) && Evolves(a, b)
  }

  lemma SafeAfter(a: Db, b: Db, c: Db)
    requires Evolves(a, b) && Safe(b, c)
    ensures Safe(a, c)
  {
    EvolvesTransitive(a, b, c);
  }

  lemma EvolvesReflexive(db: Db)
    ensures Evolves(db, db)
  {
  }

  /** What a job holds after its read transaction: a base version and that version's snapshot. */
  ghost predicate HasRead(db: Db, rb: Id, base: Option<Id>, seen: Snapshot) {
    (base.Some? ==> IsVersion(db, base.value, rb)) && seen == SnapshotAt(db, base)
  }

  /** A later state still holds what was read: versions are immutable. */
  lemma HasReadLasts(a: Db, b: Db, rb: Id, base: Option<Id>, seen: Snapshot)
    requires HasRead(a, rb, base, seen) && Evolves(a, b)
    ensures HasRead(b, rb, base, seen)
  {
    assert VersionsEvolve(a, b);
  }

  // ---- creation -------------------------------------------------------------------------------

  lemma CreateIsSideWrite(db: Db, key: string, hash: string, rb: Id, run: Id)
    requires Inv(db) && rb !in db.routebooks && run !in db.runs && key !in db.creations
    ensures SideWrite(db, Create(db, key, hash, rb, run).db)
  {
    var after := Create(db, key, hash, rb, run).db;
    forall r | r in after.runs ensures RunOk(after, r) {
      assert r != run ==> RunOk(db, r);
    }
  }

  lemma CreateKeepsCreations(db: Db, key: string, hash: string, rb: Id, run: Id)
    requires Creations(db) && run !in db.runs && key !in db.creations
    ensures var after := Create(db, key, hash, rb, run).db; Creations(after) && Extends(db.creations, after.creations)
  {
  }

  lemma CreateKeeps(db: Db, key: string, hash: string, rb: Id, run: Id)
    requires Inv(db) && rb !in db.routebooks && run !in db.runs
    ensures Safe(db, Settle(db, Create(db, key, hash, rb, run)).db)
  {
    var after := Create(db, key, hash, rb, run).db;
    if key in db.creations {
      EvolvesReflexive(db);
    } else {
      CreateIsSideWrite(db, key, hash, rb, run);
      SideWriteKeepsLinear(db, after);
      SideWriteKeepsContents(db, after);
      ProposalsUntouched(db, after);
      PagesUntouched(db, after);
      CreateKeepsCreations(db, key, hash, rb, run);
      SideWriteEvolves(db, after);
    }
  }

  lemma QueueKeeps(db: Db, rb: Id, kind: RunKind, run: Id)
    requires Inv(db) && run !in db.runs && kind in {Refining, Planning, Enriching}
    ensures Safe(db, Settle(db, Queue(db, rb, kind, run)).db)
  {
    EvolvesReflexive(db);
    if rb in db.routebooks {
      assert RoutebookOk(db, rb);
      if Queue(db, rb, kind, run).result.Ok? {
        AddRunKeeps(db, run, Run(kind, rb, db.routebooks[rb].current, None, None));
      }
    }
  }

  lemma QueueEnrichmentKeeps(db: Db, version: Id, run: Id)
    requires Inv(db) && run !in db.runs
    ensures Safe(db, Settle(db, QueueEnrichment(db, version, run)).db)
  {
    EvolvesReflexive(db);
    if version in db.versions {
      assert VersionOk(db, version);
      AddRunKeeps(db, run, Run(Enriching, db.versions[version].routebook, Some(version), None, None));
    }
  }

  // ---- jobs that commit ----------------------------------------------------------------------

  /** A job's run has no proposal, unless it is an operation. */
  lemma TaskRun(db: Db, run: Id)
    requires Linear(db) && run in db.runs && db.runs[run].kind != Operating
    ensures db.runs[run].proposal.None?
    ensures db.runs[run].base.Some? ==> IsVersion(db, db.runs[run].base.value, db.runs[run].routebook)
    ensures db.runs[run].kind == Creating ==> db.runs[run].base.None?
  {
    assert RunOk(db, run);
  }

  lemma CommitInitialKeeps(db: Db, run: Id, id: Id)
    requires Inv(db) && id !in db.versions
    requires run in db.runs ==> db.runs[run].kind == Creating
    ensures Safe(db, Settle(db, CommitInitial(db, run, id)).db)
  {
    EvolvesReflexive(db);
    if run in db.runs {
      TaskRun(db, run);
      var change := Change(db.runs[run].routebook, run, None, EMPTY_SNAPSHOT, EMPTY_SNAPSHOT, Created, NoMessage);
      CommitKeeps(db, change, id);
    }
  }

  /** Rebasing onto an empty version is harmless: the job had read the empty snapshot. */
  lemma RebaseReadsTheSame(db: Db, rb: Id, base: Option<Id>, seen: Snapshot)
    requires HasRead(db, rb, base, seen) && RequirementBase(db, rb, base).Ok?
    ensures seen == SnapshotAt(db, RequirementBase(db, rb, base).value)
    ensures RequirementBase(db, rb, base).value == db.routebooks[rb].current
  {
  }

  lemma SaveRequirementsKeeps(
    db: Db, rb: Id, run: Id, base: Option<Id>, seen: Snapshot, requirements: Requirements, text: string, id: Id)
    requires Inv(db) && id !in db.versions && HasRead(db, rb, base, seen)
    requires run in db.runs ==> db.runs[run].kind == Refining && db.runs[run].routebook == rb
    ensures Safe(db, Settle(db, SaveRequirements(db, rb, run, base, seen, requirements, text, id)).db)
  {
    EvolvesReflexive(db);
    if RequirementBase(db, rb, base).Ok? {
      RebaseReadsTheSame(db, rb, base, seen);
      if run in db.runs {
        TaskRun(db, run);
      }
      var resolved := RequirementBase(db, rb, base).value;
      CommitKeeps(db, Change(rb, run, resolved, seen.(requirements := requirements), seen,
                             if resolved.Some? then Changed else Created, UserText(text)), id);
    }
  }

  /** `loaded` is what `load_input` makes of `seen`. */
  ghost predicate LoadedFrom(seen: Snapshot, loaded: Snapshot) {
    loaded == seen.(requirements := loaded.requirements) && OnlyMusts(loaded.requirements, seen.requirements)
  }

  lemma ResultAlreadySet(db: Db, run: Id)
    requires Linear(db) && run in db.runs && run in db.versionOf
    ensures SetResult(db, run, db.versionOf[run]) == db
  {
    assert VersionOk(db, db.versionOf[run]);
    assert db.runs[run].(result := Some(db.versionOf[run])) == db.runs[run];
    assert db.runs[run := db.runs[run]] == db.runs;
  }

  lemma PlanChangeKeeps(
    db: Db, rb: Id, row: Id, base: Id, seen: Snapshot, loaded: Snapshot, draft: PlannerData.Draft, id: Id)
    requires Inv(db) && id !in db.versions && HasRead(db, rb, Some(base), seen) && LoadedFrom(seen, loaded)
    requires row in db.runs && db.runs[row].kind == Planning && db.runs[row].routebook == rb
    ensures var c := Change(rb, row, Some(base), PlanPersistence.PlanSnapshot(loaded, draft), seen, Changed, NoMessage);
      var committed := Commit(db, c, id);
      && Safe(db, committed.db)
      && (committed.result.Ok? ==>
            row in committed.db.runs && SetResult(committed.db, row, committed.result.value) == committed.db)
  {
    var c := Change(rb, row, Some(base), PlanPersistence.PlanSnapshot(loaded, draft), seen, Changed, NoMessage);
    TaskRun(db, row);
    CommitKeeps(db, c, id);
    CommitSucceedsIff(db, c, id);
    var committed := Commit(db, c, id);
    if committed.result.Ok? {
      ResultAlreadySet(committed.db, row);
    }
  }

  lemma PlanOnNewRunKeeps(
    db: Db, rb: Id, base: Id, seen: Snapshot, loaded: Snapshot, draft: PlannerData.Draft, spare: Id, id: Id)
    requires Inv(db) && id !in db.versions && spare !in db.runs && rb in db.routebooks
    requires HasRead(db, rb, Some(base), seen) && LoadedFrom(seen, loaded)
    ensures var started := AddRun(db, spare, Run(Planning, rb, Some(base), None, None));
      var c := Change(rb, spare, Some(base), PlanPersistence.PlanSnapshot(loaded, draft), seen, Changed, NoMessage);
      var committed := Commit(started, c, id);
      && Safe(db, committed.db)
      && (committed.result.Ok? ==>
            spare in committed.db.runs && SetResult(committed.db, spare, committed.result.value) == committed.db)
  {
    var row := Run(Planning, rb, Some(base), None, None);
    var started := AddRun(db, spare, row);
    AddRunKeeps(db, spare, row);
    HasReadLasts(db, started, rb, Some(base), seen);
    PlanChangeKeeps(started, rb, spare, base, seen, loaded, draft, id);
    var planned := PlanPersistence.PlanSnapshot(loaded, draft);
    SafeAfter(db, started, Commit(started, Change(rb, spare, Some(base), planned, seen, Changed, NoMessage), id).db);
  }

  lemma SavePlanKeeps(
    db: Db, rb: Id, run: Id, base: Id, seen: Snapshot, loaded: Snapshot,
    result: PlannerData.PlanningResult, spare: Id, id: Id)
    requires Inv(db) && id !in db.versions && spare !in db.runs
    requires HasRead(db, rb, Some(base), seen) && LoadedFrom(seen, loaded)
    requires run in db.runs ==> db.runs[run].kind == Planning && db.runs[run].routebook == rb
    ensures Safe(db, Settle(db, SavePlan(db, rb, run, base, seen, loaded, result, spare, id)).db)
  {
    hide Commit, Inv, PlanPersistence.PlanSnapshot;
    EvolvesReflexive(db);
    if result.feasible && result.draft.Some? && Live(db, rb) {
      if run in db.runs {
        PlanChangeKeeps(db, rb, run, base, seen, loaded, result.draft.value, id);
      } else {
        PlanOnNewRunKeeps(db, rb, base, seen, loaded, result.draft.value, spare, id);
      }
    }
  }

  lemma SaveEnrichmentsKeeps(db: Db, rb: Id, run: Id, seen: Snapshot, enrichments: seq<Enrichment>, id: Id)
    requires Inv(db) && id !in db.versions
    requires run in db.runs ==>
      db.runs[run].kind == Enriching && db.runs[run].routebook == rb && HasRead(db, rb, db.runs[run].base, seen)
    ensures Safe(db, Settle(db, SaveEnrichments(db, rb, run, seen, enrichments, id)).db)
  {
    EvolvesReflexive(db);
    if run in db.runs && enrichments != [] {
      TaskRun(db, run);
      CommitKeeps(db, Change(rb, run, db.runs[run].base, seen.(enrichments := enrichments), seen, Changed, NoMessage),
                  id);
    }
  }

  // ---- proposals ------------------------------------------------------------------------------

  /** A pending proposal that may be attached to its run. */
  ghost predicate NewProposal(db: Db, p: Proposal, id: Id) {
    && id !in db.proposals && p.status == Pending
    && p.run in db.runs && db.runs[p.run] == Run(Operating, p.routebook, Some(p.base), None, None)
    && p.run !in db.versionOf
    && IsVersion(db, p.base, p.routebook) && p.source == db.versions[p.base].snapshot
    && EditContent(p.plan, p.source, p.preview)
  }

  lemma AttachKeepsRun(db: Db, p: Proposal, id: Id, r: Id)
    requires NewProposal(db, p, id) && r in db.runs && RunOk(db, r)
    ensures RunOk(AttachProposal(db, p, id), r)
  {
    hide EditContent;
  }

  lemma AttachKeepsRows(db: Db, p: Proposal, id: Id)
    requires NewProposal(db, p, id)
    ensures var after := AttachProposal(db, p, id);
      && after.runs.Keys == db.runs.Keys && SameHistories(db, after) && RoutebooksKept(db, after)
      && RunsKept(db, after) && ProposalsEvolve(db, after)
  {
    hide EditContent;
  }

  lemma AttachIsSideWrite(db: Db, p: Proposal, id: Id)
    requires Linear(db) && NewProposal(db, p, id)
    ensures SideWrite(db, AttachProposal(db, p, id))
  {
    hide RunOk, EditContent, AttachProposal, VersionOk, IndexesOk;
    var after := AttachProposal(db, p, id);
    AttachKeepsRows(db, p, id);
    forall r | r in after.runs ensures RunOk(after, r) {
      assert RunOk(db, r);
      AttachKeepsRun(db, p, id, r);
    }
  }

  lemma AttachKeepsProposal(db: Db, p: Proposal, id: Id, q: Id)
    requires Inv(db) && NewProposal(db, p, id) && q in AttachProposal(db, p, id).proposals
    ensures ProposalOk(AttachProposal(db, p, id), q)
  {
    if q != id {
      assert ProposalOk(db, q);
    }
  }

  lemma AttachKeeps(db: Db, p: Proposal, id: Id)
    requires Inv(db) && NewProposal(db, p, id)
    ensures Safe(db, AttachProposal(db, p, id))
  {
    var after := AttachProposal(db, p, id);
    AttachIsSideWrite(db, p, id);
    SideWriteKeepsLinear(db, after);
    SideWriteKeepsContents(db, after);
    forall q | q in after.proposals ensures ProposalOk(after, q) {
      AttachKeepsProposal(db, p, id, q);
    }
    PagesUntouched(db, after);
    CreationsUntouched(db, after);
    SideWriteEvolves(db, after);
  }

  /** The state in which an edit commits or proposes. */
  function EditStarted(db: Db, rb: Id, base: Id, operation: Id): Db {
    AddRun(db, operation, Run(Operating, rb, Some(base), None, None))
  }

  lemma EditStartedKeeps(db: Db, rb: Id, base: Id, seen: Snapshot, operation: Id)
    requires Inv(db) && rb in db.routebooks && operation !in db.runs && HasRead(db, rb, Some(base), seen)
    ensures Inv(EditStarted(db, rb, base, operation)) && Evolves(db, EditStarted(db, rb, base, operation))
    ensures operation !in db.versionOf
  {
    AddRunKeeps(db, operation, Run(Operating, rb, Some(base), None, None));
    RunWithoutRow(db, operation);
  }

  lemma ProposeKeeps(
    started: Db, rb: Id, base: Id, seen: Snapshot, plan: EditPlan, operation: Id, proposal: Id)
    requires Inv(started) && proposal !in started.proposals && HasRead(started, rb, Some(base), seen)
    requires operation in started.runs && started.runs[operation] == Run(Operating, rb, Some(base), None, None)
    requires operation !in started.versionOf
    requires plan.preview.Some? && DaysUnchanged(seen, plan.preview.value, plan.impact.days)
    ensures Safe(started,
                 AttachProposal(started, Proposal(rb, base, operation, plan.preview.value, plan, Pending, seen),
                                proposal))
  {
    AttachKeeps(started, Proposal(rb, base, operation, plan.preview.value, plan, Pending, seen), proposal);
  }

  lemma CommitEditKeeps(started: Db, rb: Id, base: Id, seen: Snapshot, plan: EditPlan, operation: Id, id: Id)
    requires Inv(started) && id !in started.versions && HasRead(started, rb, Some(base), seen)
    requires operation in started.runs && started.runs[operation] == Run(Operating, rb, Some(base), None, None)
    requires plan.preview.Some? && DaysUnchanged(seen, plan.preview.value, plan.impact.days)
    ensures var c := Change(rb, operation, Some(base), plan.preview.value, seen, Changed, Fingerprint(plan));
      Safe(started, Commit(started, c, id).db)
  {
    CommitKeeps(started, Change(rb, operation, Some(base), plan.preview.value, seen, Changed, Fingerprint(plan)), id);
  }

  lemma ExecuteKeeps(db: Db, rb: Id, base: Id, seen: Snapshot, plan: EditPlan, operation: Id, proposal: Id, id: Id)
    requires Inv(db) && id !in db.versions && proposal !in db.proposals && rb in db.routebooks
    requires HasRead(db, rb, Some(base), seen)
    ensures Safe(db, Settle(db, Execute(db, rb, base, seen, plan, operation, proposal, id)).db)
  {
    hide Commit, DaysUnchanged, Evolves, Inv;
    EvolvesReflexive(db);
    if plan.resolution.resolved && plan.preview.Some? && operation !in db.runs
       && DaysUnchanged(seen, plan.preview.value, plan.impact.days) {
      var started := EditStarted(db, rb, base, operation);
      EditStartedKeeps(db, rb, base, seen, operation);
      if plan.impact.confirm {
        ProposeKeeps(started, rb, base, seen, plan, operation, proposal);
      } else {
        CommitEditKeeps(started, rb, base, seen, plan, operation, id);
      }
      SafeAfter(db, started, Execute(db, rb, base, seen, plan, operation, proposal, id).db);
    }
  }

  /** Only the status of a proposal changes, and only away from pending. */
  lemma SetStatusIsSideWrite(db: Db, proposal: Id, status: ProposalStatus)
    requires Linear(db) && proposal in db.proposals && db.proposals[proposal].status == Pending
    ensures SideWrite(db, SetStatus(db, proposal, status))
  {
    var after := SetStatus(db, proposal, status);
    forall r | r in after.runs ensures RunOk(after, r) {
      assert RunOk(db, r);
    }
  }

  lemma RejectKeepsProposals(db: Db, proposal: Id)
    requires Proposals(db) && proposal in db.proposals && db.proposals[proposal].status == Pending
    ensures Proposals(SetStatus(db, proposal, Rejected))
  {
    var after := SetStatus(db, proposal, Rejected);
    forall q | q in after.proposals ensures ProposalOk(after, q) {
      assert ProposalOk(db, q);
    }
  }

  lemma RejectKeeps(db: Db, proposal: Id)
    requires Inv(db) && proposal in db.proposals && db.proposals[proposal].status == Pending
    ensures Safe(db, SetStatus(db, proposal, Rejected))
  {
    var after := SetStatus(db, proposal, Rejected);
    SetStatusIsSideWrite(db, proposal, Rejected);
    SideWriteKeepsLinear(db, after);
    SideWriteKeepsContents(db, after);
    RejectKeepsProposals(db, proposal);
    PagesUntouched(db, after);
    CreationsUntouched(db, after);
    SideWriteEvolves(db, after);
  }

  function AcceptedChange(p: Proposal): Change {
    Change(p.routebook, p.run, Some(p.base), p.preview, p.source, Changed, NoMessage)
  }

  /** A pending proposal whose base is still the current version. */
  ghost predicate Acceptable(db: Db, proposal: Id) {
    && proposal in db.proposals
    && db.proposals[proposal].status == Pending
    && db.proposals[proposal].routebook in db.routebooks
    && db.routebooks[db.proposals[proposal].routebook].current == Some(db.proposals[proposal].base)
  }

  lemma AcceptableIsAppendable(db: Db, proposal: Id, id: Id)
    requires Inv(db) && Acceptable(db, proposal) && id !in db.versions
    ensures var c := AcceptedChange(db.proposals[proposal]);
      Appendable(db, c, id) && ContentOk(Append(db, c, id), id)
  {
    assert ProposalOk(db, proposal);
    var c := AcceptedChange(db.proposals[proposal]);
    assert Appendable(db, c, id);
    AppendedContent(db, c, id);
  }

  lemma AcceptKeepsProposal(db: Db, proposal: Id, id: Id, q: Id)
    requires Linear(db) && Proposals(db) && Acceptable(db, proposal) && id !in db.versions && q in db.proposals
    requires var c := AcceptedChange(db.proposals[proposal]); Appendable(db, c, id)
    ensures ProposalOk(SetStatus(Append(db, AcceptedChange(db.proposals[proposal]), id), proposal, Accepted), q)
  {
    hide Linear, Appendable, Append, SetStatus;
    assert ProposalOk(db, q) && ProposalOk(db, proposal);
    if q == proposal {
      AcceptedIsOk(db, proposal, id);
    } else {
      OtherProposalKept(db, proposal, id, q);
    }
  }

  lemma AcceptedIsOk(db: Db, proposal: Id, id: Id)
    requires Acceptable(db, proposal) && id !in db.versions && ProposalOk(db, proposal)
    requires var c := AcceptedChange(db.proposals[proposal]); Appendable(db, c, id)
    ensures ProposalOk(SetStatus(Append(db, AcceptedChange(db.proposals[proposal]), id), proposal, Accepted), proposal)
  {
    hide EditContent, Linear;
  }

  lemma OtherProposalKept(db: Db, proposal: Id, id: Id, q: Id)
    requires Linear(db) && Acceptable(db, proposal) && id !in db.versions && q in db.proposals && q != proposal
    requires ProposalOk(db, proposal) && ProposalOk(db, q)
    requires var c := AcceptedChange(db.proposals[proposal]); Appendable(db, c, id)
    ensures ProposalOk(SetStatus(Append(db, AcceptedChange(db.proposals[proposal]), id), proposal, Accepted), q)
  {
    hide EditContent;
  }

  lemma AcceptKeeps(db: Db, proposal: Id, id: Id)
    requires Inv(db) && Acceptable(db, proposal) && id !in db.versions
    ensures var c := AcceptedChange(db.proposals[proposal]);
      Appendable(db, c, id) && Safe(db, SetStatus(Append(db, c, id), proposal, Accepted))
  {
    hide DaysUnchanged, PageOk;
    var c := AcceptedChange(db.proposals[proposal]);
    AcceptableIsAppendable(db, proposal, id);
    var appended := Append(db, c, id);
    AppendKeepsLinear(db, c, id);
    AppendKeepsContents(db, c, id);
    AppendEvolves(db, c, id);
    PagesUntouched(db, appended);
    CreationsUntouchedByAppend(db, c, id);
    var after := SetStatus(appended, proposal, Accepted);
    SetStatusIsSideWrite(appended, proposal, Accepted);
    SideWriteKeepsLinear(appended, after);
    SideWriteKeepsContents(appended, after);
    PagesUntouched(appended, after);
    CreationsUntouched(appended, after);
    SideWriteEvolves(appended, after);
    forall q | q in after.proposals ensures ProposalOk(after, q) {
      AcceptKeepsProposal(db, proposal, id, q);
    }
    EvolvesTransitive(db, appended, after);
  }

  lemma CreationsUntouchedByAppend(db: Db, c: Change, id: Id)
    requires Linear(db) && Appendable(db, c, id) && Creations(db)
    ensures Creations(Append(db, c, id))
  {
  }

  /** What deciding a proposal comes to in a sound state; a stale decision leaves no trace. */
  lemma DecisionOutcome(db: Db, proposal: Id, accept: bool, id: Id)
    requires Inv(db) && id !in db.versions
    ensures var after := Settle(db, ResolveProposal(db, proposal, accept, id));
      if proposal in db.proposals && db.proposals[proposal].status == Pending
      && Live(db, db.proposals[proposal].routebook)
      && db.routebooks[db.proposals[proposal].routebook].current == Some(db.proposals[proposal].base)
      then
        if accept then
          && Appendable(db, AcceptedChange(db.proposals[proposal]), id)
          && after
             == Outcome(SetStatus(Append(db, AcceptedChange(db.proposals[proposal]), id), proposal, Accepted),
                     Ok(EditReply(Some(proposal), Some(id), false)))
        else after == Outcome(SetStatus(db, proposal, Rejected), Ok(EditReply(Some(proposal), None, false)))
      else after.db == db
  {
    if proposal in db.proposals {
      assert ProposalOk(db, proposal);
      var p := db.proposals[proposal];
      if Live(db, p.routebook) && Acceptable(db, proposal) && accept {
        AcceptableIsAppendable(db, proposal, id);
        CommitSucceedsIff(db, AcceptedChange(p), id);
      }
    }
  }

  lemma DecideKeeps(db: Db, proposal: Id, accept: bool, id: Id)
    requires Inv(db) && id !in db.versions
    ensures Safe(db, Settle(db, ResolveProposal(db, proposal, accept, id)).db)
  {
    EvolvesReflexive(db);
    DecisionOutcome(db, proposal, accept, id);
    if Acceptable(db, proposal) && Live(db, db.proposals[proposal].routebook) {
      if accept {
        AcceptKeeps(db, proposal, id);
      } else {
        RejectKeeps(db, proposal);
      }
    }
  }

  // ---- undo -----------------------------------------------------------------------------------

  ghost predicate Undoable(db: Db, rb: Id) {
    && Live(db, rb)
    && db.routebooks[rb].current.Some? && db.routebooks[rb].current.value in db.versions
    && db.versions[db.routebooks[rb].current.value].parent.Some?
  }

  /** The version an undo commits. */
  function UndoChange(db: Db, rb: Id, operation: Id): Change
    requires Undoable(db, rb)
  {
    var current := db.routebooks[rb].current;
    Change(rb, operation, current, SnapshotAt(db, db.versions[current.value].parent),
           SnapshotAt(db, current), Undone, NoMessage)
  }

  /** The state in which an undo commits its version. */
  function UndoStarted(db: Db, rb: Id, operation: Id): Db
    requires Undoable(db, rb)
  {
    AddRun(db, operation, Run(Operating, rb, db.routebooks[rb].current, None, None))
  }

  lemma AppendShows(db: Db, c: Change, id: Id)
    requires Appendable(db, c, id)
    ensures var after := Append(db, c, id);
      && after.versions.Keys == db.versions.Keys + {id} && after.runs.Keys == db.runs.Keys
      && after.versions[id] == NewVersion(c, NextNumber(db, c.base))
      && c.routebook in after.routebooks
      && after.routebooks[c.routebook] == db.routebooks[c.routebook].(current := Some(id))
  {
  }

  /** A fresh undo succeeds exactly when the current version has a parent. */
  lemma UndoOutcome(db: Db, rb: Id, operation: Id, id: Id)
    requires Inv(db) && id !in db.versions && operation !in db.runs
    ensures var after := Settle(db, Undo(db, rb, operation, id));
      if Undoable(db, rb) then
        && Inv(UndoStarted(db, rb, operation)) && Evolves(db, UndoStarted(db, rb, operation))
        && Appendable(UndoStarted(db, rb, operation), UndoChange(db, rb, operation), id)
        && after
           == Outcome(Append(UndoStarted(db, rb, operation), UndoChange(db, rb, operation), id),
                   Ok(EditReply(None, Some(id), false)))
      else after.db == db && after.result.Err?
  {
    hide Append, ContentOk, EditContent, Evolves;
    if Undoable(db, rb) {
      var current := db.routebooks[rb].current;
      assert RoutebookOk(db, rb) && VersionOk(db, current.value);
      AddRunKeeps(db, operation, Run(Operating, rb, current, None, None));
      RunWithoutRow(db, operation);
      CommitSucceedsIff(UndoStarted(db, rb, operation), UndoChange(db, rb, operation), id);
    }
  }

  lemma UndoKeeps(db: Db, rb: Id, operation: Id, id: Id)
    requires Inv(db) && id !in db.versions
    ensures Safe(db, Settle(db, Undo(db, rb, operation, id)).db)
  {
    hide Append, DaysUnchanged, PageOk;
    EvolvesReflexive(db);
    if operation !in db.runs {
      UndoOutcome(db, rb, operation, id);
      if Undoable(db, rb) {
        var started := UndoStarted(db, rb, operation);
        AppendedContent(started, UndoChange(db, rb, operation), id);
        AppendKeeps(started, UndoChange(db, rb, operation), id);
        EvolvesTransitive(db, started, Append(started, UndoChange(db, rb, operation), id));
      }
    }
  }

  // ---- pages and deletion ---------------------------------------------------------------------

  lemma PageWriteKeeps(a: Db, b: Db)
    requires Inv(a) && SameHistories(a, b) && RoutebooksKept(a, b)
    requires a.runs == b.runs && a.proposals == b.proposals && a.creations == b.creations
    requires a.routebooks.Keys == b.routebooks.Keys
    requires Pages(b) && PagesEvolve(a, b)
    ensures Safe(a, b)
  {
    hide ContentOk, EditContent, Pages;
    forall r | r in b.runs ensures RunOk(b, r) {
      assert RunOk(a, r);
    }
    assert ProposalsEvolve(a, b);
    SideWriteKeepsLinear(a, b);
    SideWriteKeepsContents(a, b);
    ProposalsUntouched(a, b);
    SideWriteEvolves(a, b);
  }

  lemma FinalizeKeepsPage(db: Db, rb: Id, version: Id, policy: string, token: string, page: Id, p: Id)
    requires Inv(db) && page !in db.pages
    requires Finalize(db, rb, version, policy, token, page).result.Ok?
    requires p in Finalize(db, rb, version, policy, token, page).db.pages
    ensures PageOk(Finalize(db, rb, version, policy, token, page).db, p)
  {
    assert p != page ==> PageOk(db, p);
  }

  /** Before a page is added, no active page shows its version under its policy. */
  lemma NoRivalYet(db: Db, rb: Id, version: Id, policy: string, token: string, p: Id)
    requires Pages(db) && IsVersion(db, version, rb) && p in db.pages
    requires !HasActivePage(db, rb, version, policy)
    ensures !Rivals(db.pages[p], Page(rb, version, token, policy, false))
    ensures !Rivals(Page(rb, version, token, policy, false), db.pages[p])
  {
    assert PageOk(db, p);
    assert !ActiveFor(db.pages[p], rb, version, policy);
  }

  lemma FinalizeKeepsOneActive(db: Db, rb: Id, version: Id, policy: string, token: string, page: Id)
    requires Inv(db) && page !in db.pages
    requires Finalize(db, rb, version, policy, token, page).result.Ok?
    ensures OneActive(Finalize(db, rb, version, policy, token, page).db)
  {
    var after := Finalize(db, rb, version, policy, token, page).db;
    forall p | p in db.pages
      ensures !Rivals(after.pages[p], after.pages[page]) && !Rivals(after.pages[page], after.pages[p])
    {
      NoRivalYet(db, rb, version, policy, token, p);
    }
    forall p, q | p in after.pages && q in after.pages && Rivals(after.pages[p], after.pages[q]) ensures p == q {
      assert p != page && q != page ==> Rivals(db.pages[p], db.pages[q]);
    }
  }

  lemma FinalizeKeepsPages(db: Db, rb: Id, version: Id, policy: string, token: string, page: Id)
    requires Inv(db) && page !in db.pages
    requires Finalize(db, rb, version, policy, token, page).result.Ok?
    ensures Pages(Finalize(db, rb, version, policy, token, page).db)
  {
    var after := Finalize(db, rb, version, policy, token, page).db;
    forall p | p in after.pages ensures PageOk(after, p) {
      FinalizeKeepsPage(db, rb, version, policy, token, page, p);
    }
    FinalizeKeepsOneActive(db, rb, version, policy, token, page);
  }

  lemma FinalizeWritesPage(db: Db, rb: Id, version: Id, policy: string, token: string, page: Id)
    requires page !in db.pages && Finalize(db, rb, version, policy, token, page).result.Ok?
    ensures var after := Finalize(db, rb, version, policy, token, page).db;
      && SameHistories(db, after) && RoutebooksKept(db, after) && PagesEvolve(db, after)
      && db.runs == after.runs && db.proposals == after.proposals && db.creations == after.creations
      && db.routebooks.Keys == after.routebooks.Keys
  {
  }

  lemma FinalizeKeeps(db: Db, rb: Id, version: Id, policy: string, token: string, page: Id)
    requires Inv(db) && page !in db.pages
    ensures Safe(db, Settle(db, Finalize(db, rb, version, policy, token, page)).db)
  {
    hide Inv, Evolves, Finalize;
    EvolvesReflexive(db);
    if Finalize(db, rb, version, policy, token, page).result.Ok? {
      FinalizeWritesPage(db, rb, version, policy, token, page);
      FinalizeKeepsPages(db, rb, version, policy, token, page);
      PageWriteKeeps(db, Finalize(db, rb, version, policy, token, page).db);
    }
  }

  function Revoked(db: Db, page: Id): Db
    requires page in db.pages
  {
    db.(pages := db.pages[page := db.pages[page].(revoked := true)])
  }

  lemma RevokeKeepsPage(db: Db, page: Id, p: Id)
    requires Inv(db) && page in db.pages && p in db.pages
    ensures PageOk(Revoked(db, page), p) && PageEvolves(db.pages[p], Revoked(db, page).pages[p])
  {
    assert PageOk(db, p);
  }

  lemma RevokeKeepsOneActive(db: Db, page: Id)
    requires OneActive(db) && page in db.pages
    ensures OneActive(Revoked(db, page))
  {
    var after := Revoked(db, page);
    forall p, q | p in after.pages && q in after.pages && Rivals(after.pages[p], after.pages[q]) ensures p == q {
      assert Rivals(db.pages[p], db.pages[q]);
    }
  }

  lemma RevokeKeepsPages(db: Db, page: Id)
    requires Inv(db) && page in db.pages
    ensures Pages(Revoked(db, page)) && PagesEvolve(db, Revoked(db, page))
  {
    var after := Revoked(db, page);
    forall p | p in after.pages ensures PageOk(after, p) && PageEvolves(db.pages[p], after.pages[p]) {
      RevokeKeepsPage(db, page, p);
    }
    RevokeKeepsOneActive(db, page);
  }

  lemma RevokeKeeps(db: Db, rb: Id, page: Id)
    requires Inv(db)
    ensures Safe(db, Settle(db, Revoke(db, rb, page)).db)
  {
    EvolvesReflexive(db);
    if Revoke(db, rb, page).result.Ok? {
      RevokeKeepsPages(db, page);
      PageWriteKeeps(db, Revoked(db, page));
    }
  }

  lemma DeleteKeeps(db: Db, rb: Id)
    requires Inv(db)
    ensures Safe(db, Settle(db, Delete(db, rb)).db)
  {
    EvolvesReflexive(db);
    if Live(db, rb) {
      var after := Delete(db, rb).db;
      PagesUntouched(db, after);
      PageWriteKeeps(db, after);
    }
  }
}
