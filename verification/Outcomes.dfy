/** What each transaction has achieved when it answers, in sound tables. */
module Outcomes {
  import opened Wrappers
  import opened RequirementData
  import opened SnapshotData
  import opened Editing
  import opened FinalChecks
  import opened Database
  import opened Invariants
  import opened Preservation
  import opened Transactions
  import opened Histories
  import opened ProposalRuns
  import opened Delivery
  import opened UndoRuns
  import PlannerData
  import PlanPersistence

  // ---- committed contents ---------------------------------------------------------------------

  /** Version `v` is the result of its run and holds `content`; it follows `base` and is current. */
  ghost predicate OnTop(db: Db, rb: Id, run: Id, base: Option<Id>, content: Snapshot, v: Id) {
    && IsVersion(db, v, rb) && db.versions[v].run == run && db.versions[v].snapshot == content
       && db.versions[v].parent == base
    && run in db.runs && db.runs[run].result == Some(v)
    && rb in db.routebooks && db.routebooks[rb].current == Some(v)
  }

  /** The first commit of a run puts its content on top; a later one returns its version and changes nothing. */
  ghost predicate Committed(before: Db, after: Db, rb: Id, run: Id, base: Option<Id>, content: Snapshot, v: Id) {
    if run in before.versionOf then after == before && v == before.versionOf[run]
    else OnTop(after, rb, run, base, content, v)
  }

  lemma CommitAchieves(db: Db, c: Change, id: Id)
    requires Linear(db)
    ensures var o := Commit(db, c, id);
      if o.result.Ok? then Committed(db, o.db, c.routebook, c.run, c.base, c.snapshot, o.result.value) else o.db == db
  {
    CommitSucceedsIff(db, c, id);
  }

  lemma CreateAchieves(db: Db, key: string, hash: string, rb: Id, run: Id)
    requires Inv(db) && rb !in db.routebooks && run !in db.runs
    ensures var o := Create(db, key, hash, rb, run);
      if o.result.Ok? then
        && CreationRecorded(o.db, key, hash, o.result.value)
        && o.result.value.run in o.db.runs && o.db.runs[o.result.value.run].routebook == o.result.value.routebook
        && (o.result.value.reused ==> o.db == db)
      else o.db == db && key in db.creations && db.creations[key].hash != hash
  {
  }

  /** The first version of a routebook is empty, and is committed only where there is no other. */
  lemma InitialAchieves(db: Db, run: Id, id: Id)
    requires Inv(db) && (run in db.runs ==> db.runs[run].kind == Creating)
    ensures var o := CommitInitial(db, run, id);
      if o.result.Ok? then
        run in db.runs && Committed(db, o.db, db.runs[run].routebook, run, None, EMPTY_SNAPSHOT, o.result.value)
      else o.db == db
  {
    if run in db.runs {
      TaskRun(db, run);
      CommitAchieves(db, Change(db.runs[run].routebook, run, None, EMPTY_SNAPSHOT, EMPTY_SNAPSHOT, Created, NoMessage),
                     id);
    }
  }

  lemma RequirementsAchieve(
    db: Db, rb: Id, run: Id, base: Option<Id>, seen: Snapshot, requirements: Requirements, text: string, id: Id)
    requires Inv(db) && HasRead(db, rb, base, seen)
    ensures var o := SaveRequirements(db, rb, run, base, seen, requirements, text, id);
      if o.result.Ok? then
        rb in db.routebooks
        && Committed(db, o.db, rb, run, db.routebooks[rb].current, seen.(requirements := requirements), o.result.value)
      else o.db == db
  {
    var resolved := RequirementBase(db, rb, base);
    if resolved.Ok? {
      CommitAchieves(db, Change(rb, run, resolved.value, seen.(requirements := requirements), seen,
                                if resolved.value.Some? then Changed else Created, UserText(text)), id);
    }
  }

  lemma KnownPlanAchieves(
    db: Db, rb: Id, run: Id, base: Id, seen: Snapshot, loaded: Snapshot,
    result: PlannerData.PlanningResult, spare: Id, id: Id)
    requires Inv(db) && id !in db.versions && HasRead(db, rb, Some(base), seen) && LoadedFrom(seen, loaded)
    requires run in db.runs && db.runs[run].kind == Planning && db.runs[run].routebook == rb
    requires result.feasible && result.draft.Some?
    ensures var o := Settle(db, SavePlan(db, rb, run, base, seen, loaded, result, spare, id));
      if o.result.Ok? then
        Committed(db, o.db, rb, run, Some(base),
                  PlanPersistence.PlanSnapshot(loaded, result.draft.value), o.result.value)
      else o.db == db
  {
    hide EditContent, Linear, PlanPersistence.PlanSnapshot, Safe;
    var content := PlanPersistence.PlanSnapshot(loaded, result.draft.value);
    CommitAchieves(db, Change(rb, run, Some(base), content, seen, Changed, NoMessage), id);
    PlanChangeKeeps(db, rb, run, base, seen, loaded, result.draft.value, id);
  }

  lemma NewPlanAchieves(
    db: Db, rb: Id, run: Id, base: Id, seen: Snapshot, loaded: Snapshot,
    result: PlannerData.PlanningResult, spare: Id, id: Id)
    requires Inv(db) && id !in db.versions && spare !in db.runs && HasRead(db, rb, Some(base), seen)
    requires LoadedFrom(seen, loaded)
    requires run !in db.runs && Live(db, rb)
    requires result.feasible && result.draft.Some?
    ensures var o := Settle(db, SavePlan(db, rb, run, base, seen, loaded, result, spare, id));
      if o.result.Ok? then
        Committed(db, o.db, rb, spare, Some(base),
                  PlanPersistence.PlanSnapshot(loaded, result.draft.value), o.result.value)
      else o.db == db
  {
    hide Commit, EditContent, Linear, Pages, PlanPersistence.PlanSnapshot, RoutebooksEvolve;
    var content := PlanPersistence.PlanSnapshot(loaded, result.draft.value);
    var started := AddRun(db, spare, Run(Planning, rb, Some(base), None, None));
    AddRunKeeps(db, spare, Run(Planning, rb, Some(base), None, None));
    RunWithoutRow(db, spare);
    CommitAchieves(started, Change(rb, spare, Some(base), content, seen, Changed, NoMessage), id);
    PlanOnNewRunKeeps(db, rb, base, seen, loaded, result.draft.value, spare, id);
  }

  /** A plan goes on top of its base, under its run or, if that is missing, under a new one. */
  lemma PlanAchieves(
    db: Db, rb: Id, run: Id, base: Id, seen: Snapshot, loaded: Snapshot,
    result: PlannerData.PlanningResult, spare: Id, id: Id)
    requires Inv(db) && id !in db.versions && spare !in db.runs && HasRead(db, rb, Some(base), seen)
    requires LoadedFrom(seen, loaded)
    requires run in db.runs ==> db.runs[run].kind == Planning && db.runs[run].routebook == rb
    ensures var o := Settle(db, SavePlan(db, rb, run, base, seen, loaded, result, spare, id));
      if o.result.Ok? then
        result.feasible && result.draft.Some?
        && Committed(db, o.db, rb, if run in db.runs then run else spare, Some(base),
                     PlanPersistence.PlanSnapshot(loaded, result.draft.value), o.result.value)
      else o.db == db
  {
    if result.feasible && result.draft.Some? && Live(db, rb) {
      if run in db.runs {
        KnownPlanAchieves(db, rb, run, base, seen, loaded, result, spare, id);
      } else {
        NewPlanAchieves(db, rb, run, base, seen, loaded, result, spare, id);
      }
    }
  }

  lemma EnrichmentsAchieve(db: Db, rb: Id, run: Id, seen: Snapshot, enrichments: seq<Enrichment>, id: Id)
    requires Inv(db)
    ensures var o := SaveEnrichments(db, rb, run, seen, enrichments, id);
      if o.result.Ok? && o.result.value.Some? then
        run in db.runs
        && Committed(db, o.db, rb, run, db.runs[run].base, seen.(enrichments := enrichments), o.result.value.value)
      else o.db == db
  {
    if run in db.runs && enrichments != [] {
      CommitAchieves(db,
                     Change(rb, run, db.runs[run].base, seen.(enrichments := enrichments), seen, Changed, NoMessage),
                     id);
    }
  }

  // ---- edits ----------------------------------------------------------------------------------

  /**
   * The operation is on record with its plan; a new one has written its proposal or its version, and only if it might.
   */
  ghost predicate Executed(
    before: Db, after: Db, rb: Id, base: Id, seen: Snapshot,
    plan: EditPlan, operation: Id, proposal: Id, id: Id, reply: EditReply)
  {
    && OperationRecorded(after, rb, operation, plan, reply)
    && if operation in before.runs then after == before
       else MayWrite(before, rb, base, seen, plan)
            && Writes(before, after, rb, base, seen, plan, operation, proposal, id)
  }

  lemma ExecuteAchieves(db: Db, rb: Id, base: Id, seen: Snapshot, plan: EditPlan, operation: Id, proposal: Id, id: Id)
    requires Inv(db) && id !in db.versions && proposal !in db.proposals && rb in db.routebooks
    requires HasRead(db, rb, Some(base), seen)
    ensures var o := Settle(db, Execute(db, rb, base, seen, plan, operation, proposal, id));
      if o.result.Ok?
      then Executed(db, o.db, rb, base, seen, plan, operation, proposal, id, o.result.value)
      else o.db == db
    ensures operation !in db.runs && MayWrite(db, rb, base, seen, plan) ==>
              Execute(db, rb, base, seen, plan, operation, proposal, id).result.Ok?
  {
    if operation !in db.runs {
      ExecuteWritesIff(db, rb, base, seen, plan, operation, proposal, id);
    }
    if Execute(db, rb, base, seen, plan, operation, proposal, id).result.Ok? {
      ExecuteRecords(db, rb, base, seen, plan, operation, proposal, id);
    }
  }

  /** A decision that is answered is the one on record, and an accepted preview is a version. */
  lemma DecideAchieves(db: Db, proposal: Id, accept: bool, id: Id)
    requires Inv(db) && id !in db.versions
    ensures var o := Settle(db, ResolveProposal(db, proposal, accept, id));
      if o.result.Ok? then
        && proposal in o.db.proposals && o.db.proposals[proposal].status == Verdict(accept)
        && (accept <==> OneVersion(o.db, o.db.proposals[proposal]))
      else o.db == db
  {
    if ResolveProposal(db, proposal, accept, id).result.Ok? {
      DecisionIsRecorded(db, proposal, accept, id);
      DecideKeeps(db, proposal, accept, id);
      AcceptedMeansVersion(ResolveProposal(db, proposal, accept, id).db, proposal);
    }
  }

  /**
   * A new undo succeeds exactly with a history of two versions or more, and extends it by the snapshot before the last.
   */
  lemma UndoAchieves(db: Db, rb: Id, operation: Id, id: Id)
    requires Inv(db) && id !in db.versions && operation !in db.runs
    ensures var o := Settle(db, Undo(db, rb, operation, id));
      if Live(db, rb) && |HistoryOf(db, rb)| >= 2 then
        o.result == Ok(EditReply(None, Some(id), false)) && UndoneOnce(db, o.db, rb, operation, id)
      else o.result.Err? && o.db == db
  {
    if Live(db, rb) && |HistoryOf(db, rb)| >= 2 {
      UndoOnce(db, rb, operation, id);
    } else {
      UndoOutcome(db, rb, operation, id);
      if Undoable(db, rb) {
        LongHistory(db, rb);
      }
    }
  }

  lemma LongHistory(db: Db, rb: Id)
    requires Linear(db) && Undoable(db, rb)
    ensures |HistoryOf(db, rb)| >= 2
  {
    HistoryIsLinear(db, rb);
    assert VersionOk(db, db.routebooks[rb].current.value);
  }

  // ---- pages ----------------------------------------------------------------------------------

  /** The page is the only active one of the current, issue-free version, and its link shows that version. */
  ghost predicate Published(db: Db, rb: Id, version: Id, policy: string, token: string, page: Id) {
    && rb in db.routebooks && db.routebooks[rb].current == Some(version) && version in db.versions
    && ValidateFinal(db.versions[version].snapshot) == []
    && (forall p :: p in db.pages && ActiveFor(db.pages[p], rb, version, policy) <==> p == page)
    && LoadShared(db, token) ==
       Ok(Shared(rb, version, db.versions[version].number, ShownUnder(policy, db.versions[version].snapshot), policy))
  }

  lemma FinalizeAchieves(db: Db, rb: Id, version: Id, policy: string, token: string, page: Id)
    requires Inv(db) && page !in db.pages
    ensures var o := Finalize(db, rb, version, policy, token, page);
      if o.result.Ok? then o.result == Ok(page) && Published(o.db, rb, version, policy, token, page) else o.db == db
  {
    var o := Finalize(db, rb, version, policy, token, page);
    if o.result.Ok? {
      forall p | p in o.db.pages && p != page ensures !ActiveFor(o.db.pages[p], rb, version, policy) {
        assert o.db.pages[p] == db.pages[p];
      }
    }
  }

  /** The page's link is dead, and every other page is what it was. */
  ghost predicate Withdrawn(before: Db, after: Db, page: Id) {
    && page in before.pages && after.pages.Keys == before.pages.Keys && after.pageOf == before.pageOf
    && after.pages[page] == before.pages[page].(revoked := true) && LoadShared(after, before.pages[page].token).Err?
    && forall p :: p in before.pages && p != page ==> after.pages[p] == before.pages[p]
  }

  lemma RevokeAchieves(db: Db, rb: Id, page: Id)
    requires Inv(db)
    ensures var o := Revoke(db, rb, page);
      if o.result.Ok? then Withdrawn(db, o.db, page) else o.db == db
  {
    if page in db.pages {
      assert PageOk(db, page);
    }
  }

  /** The routebook is gone with all its links. */
  ghost predicate Gone(db: Db, rb: Id) {
    && rb in db.routebooks && !Live(db, rb)
    && forall p :: p in db.pages && db.pages[p].routebook == rb ==> LoadShared(db, db.pages[p].token).Err?
  }

  lemma DeleteAchieves(db: Db, rb: Id)
    requires Inv(db)
    ensures var o := Delete(db, rb);
      if o.result.Ok? then Gone(o.db, rb) else o.db == db && !Live(db, rb)
  {
    var o := Delete(db, rb);
    if o.result.Ok? {
      forall p | p in o.db.pages && o.db.pages[p].routebook == rb ensures LoadShared(o.db, o.db.pages[p].token).Err? {
        assert PageOk(db, p);
      }
    }
  }
}
