/** The services as they are written: row by row, on tables updated in place. */
module Store {
  import opened Wrappers
  import opened RequirementData
  import opened SnapshotData
  import opened Editing
  import opened FinalChecks
  import Database
  import Invariants
  import PlannerData
  import PlanPersistence

  type Db = Database.Db
  type Failure = Database.Failure

  class Session {
    var routebooks: map<Id, Database.Routebook>
    var runs: map<Id, Database.Run>
    var versions: map<Id, Database.Version>
    var versionOf: map<Id, Id>
    var numbered: map<(Id, nat), Id>
    var proposals: map<Id, Database.Proposal>
    var pages: map<Id, Database.Page>
    var pageOf: map<string, Id>
    var creations: map<string, Database.Creation>

    constructor ()
      ensures Tables() == Database.EMPTY_DB && Valid()
    {
      routebooks, runs, versions, versionOf, numbered := map[], map[], map[], map[], map[];
      proposals, pages, pageOf, creations := map[], map[], map[], map[];
    }

    function Tables(): Db
      reads this
    {
      Database.Db(routebooks, runs, versions, versionOf, numbered, proposals, pages, pageOf, creations)
    }

    /** Linear histories, and sound contents, proposals, pages and creation records. */
    ghost predicate Valid()
      reads this
    {
      Invariants.Inv(Tables())
    }

    /** The end of `session.begin()` after an exception. */
    method RollBack(before: Db)
      modifies this
      ensures Tables() == before
    {
      routebooks, runs, versions := before.routebooks, before.runs, before.versions;
      versionOf, numbered := before.versionOf, before.numbered;
      proposals, pages, pageOf, creations := before.proposals, before.pages, before.pageOf, before.creations;
    }

    // ---- versions -----------------------------------------------------------------------------

    /**
     * `UPDATE routebooks SET current_version_id = id WHERE id = rb AND current_version_id IS NOT DISTINCT FROM base`.
     */
    method CompareAndSet(rb: Id, base: Option<Id>, id: Id) returns (swapped: bool)
      requires rb in routebooks
      modifies this`routebooks
      ensures swapped <==> old(routebooks)[rb].current == base
      ensures routebooks
           == if swapped then old(routebooks)[rb := old(routebooks)[rb].(current := Some(id))] else old(routebooks)
    {
      swapped := routebooks[rb].current == base;
      if swapped {
        routebooks := routebooks[rb := routebooks[rb].(current := Some(id))];
      }
    }

    method Commit(c: Database.Change, id: Id) returns (r: Result<Id, Failure>)
      modifies this
      ensures Database.Outcome(Tables(), r) == Database.Commit(old(Tables()), c, id)
    {
      if c.run !in runs {
        return Err(Database.NotFound);
      }
      if c.run in versionOf {
        return Ok(versionOf[c.run]);
      }
      if c.routebook !in routebooks || routebooks[c.routebook].deleted {
        return Err(Database.NotFound);
      }
      if routebooks[c.routebook].current != c.base {
        return Err(Database.VersionConflict);
      }
      var number := 1;
      if c.base.Some? && c.base.value in versions {
        number := versions[c.base.value].number + 1;
      }
      if (c.routebook, number) in numbered {
        return Err(Database.VersionConflict);
      }
      versions := versions[id := Database.NewVersion(c, number)];
      versionOf := versionOf[c.run := id];
      numbered := numbered[(c.routebook, number) := id];
      var swapped := CompareAndSet(c.routebook, c.base, id);
      if swapped {
        runs := runs[c.run := runs[c.run].(result := Some(id))];
        r := Ok(id);
      } else {
        r := Err(Database.VersionConflict);
      }
    }

    method CommitInitial(run: Id, id: Id) returns (r: Result<Id, Failure>)
      modifies this
      ensures Database.Outcome(Tables(), r) == Database.CommitInitial(old(Tables()), run, id)
    {
      if run !in runs {
        return Err(Database.NotFound);
      }
      var base := runs[run].base;
      r := Commit(Database.Change(runs[run].routebook, run, base, EMPTY_SNAPSHOT, Database.SnapshotAt(Tables(), base),
                                  Database.Created, Database.NoMessage), id);
    }

    /** `resolve_requirement_base`, then the commit of the requirement job. */
    method SaveRequirements(
      rb: Id, run: Id, base: Option<Id>, seen: Snapshot, requirements: Requirements, text: string, id: Id)
      returns (r: Result<Id, Failure>)
      modifies this
      ensures Database.Outcome(Tables(), r) ==
              Database.Settle(old(Tables()),
                              Database.SaveRequirements(old(Tables()), rb, run, base, seen, requirements, text, id))
    {
      var before := Tables();
      var resolved := Database.RequirementBase(Tables(), rb, base);
      if resolved.Err? {
        return Err(resolved.error);
      }
      var change := if resolved.value.Some? then Database.Changed else Database.Created;
      r := Commit(Database.Change(rb, run, resolved.value, seen.(requirements := requirements), seen, change,
                                  Database.UserText(text)), id);
      if r.Err? {
        RollBack(before);
      }
    }

    method Create(key: string, hash: string, rb: Id, run: Id) returns (r: Result<Database.CreationReply, Failure>)
      modifies this
      ensures Database.Outcome(Tables(), r) == Database.Create(old(Tables()), key, hash, rb, run)
    {
      if key in creations {
        var existing := creations[key];
        if existing.hash != hash {
          return Err(Database.IdempotencyConflict);
        }
        return Ok(Database.CreationReply(existing.routebook, existing.run, true));
      }
      routebooks := routebooks[rb := Database.Routebook(None, None, false)];
      runs := runs[run := Database.Run(Database.Creating, rb, None, None, None)];
      creations := creations[key := Database.Creation(hash, rb, run)];
      r := Ok(Database.CreationReply(rb, run, false));
    }

    method SavePlan(
      rb: Id, run: Id, base: Id, seen: Snapshot, loaded: Snapshot,
      result: PlannerData.PlanningResult, spare: Id, id: Id)
      returns (r: Result<Id, Failure>)
      modifies this
      ensures Database.Outcome(Tables(), r) ==
              Database.Settle(old(Tables()),
                              Database.SavePlan(old(Tables()), rb, run, base, seen, loaded, result, spare, id))
    {
      var before := Tables();
      if !result.feasible || result.draft.None? {
        return Err(Database.StateConflict);
      }
      if rb !in routebooks || routebooks[rb].deleted {
        return Err(Database.NotFound);
      }
      var row := run;
      if run !in runs {
        row := spare;
        runs := runs[row := Database.Run(Database.Planning, rb, Some(base), None, None)];
      }
      var content := PlanPersistence.PlanSnapshot(loaded, result.draft.value);
      r := Commit(Database.Change(rb, row, Some(base), content, seen, Database.Changed, Database.NoMessage), id);
      if r.Err? {
        RollBack(before);
      } else if row in runs {
        runs := runs[row := runs[row].(result := Some(r.value))];
      }
    }

    method SaveEnrichments(rb: Id, run: Id, seen: Snapshot, enrichments: seq<Enrichment>, id: Id)
      returns (r: Result<Option<Id>, Failure>)
      modifies this
      ensures Database.Outcome(Tables(), r) ==
              Database.Settle(old(Tables()), Database.SaveEnrichments(old(Tables()), rb, run, seen, enrichments, id))
    {
      var before := Tables();
      if run !in runs || enrichments == [] {
        return Ok(None);
      }
      var committed := Commit(Database.Change(rb, run, runs[run].base, seen.(enrichments := enrichments), seen,
                                              Database.Changed, Database.NoMessage), id);
      match committed {
        case Ok(v) => r := Ok(Some(v));
        case Err(e) => RollBack(before); r := Err(e);
      }
    }

    // ---- edits --------------------------------------------------------------------------------

    method Propose(p: Database.Proposal, id: Id)
      requires p.run in runs
      modifies this
      ensures Tables() == Database.AttachProposal(old(Tables()), p, id)
    {
      proposals := proposals[id := p];
      runs := runs[p.run := runs[p.run].(proposal := Some(id))];
    }

    method Execute(
      rb: Id, base: Id, seen: Snapshot, plan: EditPlan, operation: Id, proposal: Id, id: Id)
      returns (r: Result<Database.EditReply, Failure>)
      modifies this
      ensures Database.Outcome(Tables(), r) ==
              Database.Settle(old(Tables()),
                              Database.Execute(old(Tables()), rb, base, seen, plan, operation, proposal, id))
    {
      if !plan.resolution.resolved || plan.preview.None? {
        return Err(Database.StateConflict);
      }
      if operation in runs {
        var run := runs[operation];
        if run.routebook != rb || Database.StoredFingerprint(Tables(), run) != Database.Fingerprint(plan) {
          return Err(Database.IdempotencyConflict);
        }
        return Ok(Database.EditReply(run.proposal, run.result, true));
      }
      if !DaysUnchanged(seen, plan.preview.value, plan.impact.days) {
        return Err(Database.StateConflict);
      }
      r := Perform(rb, base, seen, plan, operation, proposal, id);
    }

    /** The writing part of `execute`. */
    method Perform(
      rb: Id, base: Id, seen: Snapshot, plan: EditPlan, operation: Id, proposal: Id, id: Id)
      returns (r: Result<Database.EditReply, Failure>)
      requires plan.resolution.resolved && plan.preview.Some? && operation !in runs
      requires DaysUnchanged(seen, plan.preview.value, plan.impact.days)
      modifies this
      ensures Database.Outcome(Tables(), r) ==
              Database.Settle(old(Tables()),
                              Database.Execute(old(Tables()), rb, base, seen, plan, operation, proposal, id))
    {
      var before := Tables();
      runs := runs[operation := Database.Run(Database.Operating, rb, Some(base), None, None)];
      if plan.impact.confirm {
        Propose(Database.Proposal(rb, base, operation, plan.preview.value, plan, Database.Pending, seen), proposal);
        return Ok(Database.EditReply(Some(proposal), None, false));
      }
      var committed := Commit(Database.Change(rb, operation, Some(base), plan.preview.value, seen, Database.Changed,
                                              Database.Fingerprint(plan)), id);
      match committed {
        case Ok(v) => r := Ok(Database.EditReply(None, Some(v), false));
        case Err(e) => RollBack(before); r := Err(e);
      }
    }

    /** As `resolve_proposal` has it: a stale proposal is marked as expired before the conflict is raised. */
    method ResolveProposal(proposal: Id, accept: bool, id: Id) returns (r: Result<Database.EditReply, Failure>)
      modifies this
      ensures Database.Outcome(Tables(), r) == Database.ResolveProposal(old(Tables()), proposal, accept, id)
    {
      if proposal !in proposals || proposals[proposal].run !in runs {
        return Err(Database.NotFound);
      }
      var p := proposals[proposal];
      if p.status != Database.Pending {
        var expected := if accept then Database.Accepted else Database.Rejected;
        if p.status == expected {
          return Ok(Database.EditReply(Some(proposal), runs[p.run].result, true));
        }
        return Err(Database.StateConflict);
      }
      if p.routebook !in routebooks || routebooks[p.routebook].deleted {
        return Err(Database.NotFound);
      }
      if routebooks[p.routebook].current != Some(p.base) {
        proposals := proposals[proposal := p.(status := Database.Expired)];
        return Err(Database.VersionConflict);
      }
      if !accept {
        proposals := proposals[proposal := p.(status := Database.Rejected)];
        return Ok(Database.EditReply(Some(proposal), None, false));
      }
      var committed := Commit(Database.Change(p.routebook, p.run, Some(p.base), p.preview, p.source, Database.Changed,
                                              Database.NoMessage), id);
      match committed {
        case Ok(v) =>
          proposals := proposals[proposal := p.(status := Database.Accepted)];
          r := Ok(Database.EditReply(Some(proposal), Some(v), false));
        case Err(e) => r := Err(e);
      }
    }

    /**
     * The decision request: the proposal is resolved in a transaction, so a conflict leaves no expired proposal behind.
     */
    method Decide(proposal: Id, accept: bool, id: Id) returns (r: Result<Database.EditReply, Failure>)
      modifies this
      ensures Database.Outcome(Tables(), r) ==
              Database.Settle(old(Tables()), Database.ResolveProposal(old(Tables()), proposal, accept, id))
      ensures r.Err? ==> Tables() == old(Tables())
    {
      var before := Tables();
      r := ResolveProposal(proposal, accept, id);
      if r.Err? {
        RollBack(before);
      }
    }

    method Undo(rb: Id, operation: Id, id: Id) returns (r: Result<Database.EditReply, Failure>)
      modifies this
      ensures Database.Outcome(Tables(), r)
           == Database.Settle(old(Tables()), Database.Undo(old(Tables()), rb, operation, id))
    {
      var before := Tables();
      if operation in runs {
        if runs[operation].routebook != rb {
          return Err(Database.IdempotencyConflict);
        }
        return Ok(Database.EditReply(None, runs[operation].result, true));
      }
      if rb !in routebooks || routebooks[rb].deleted {
        return Err(Database.NotFound);
      }
      var current := routebooks[rb].current;
      if current.None? || current.value !in versions || versions[current.value].parent.None? {
        return Err(Database.StateConflict);
      }
      var parent := versions[current.value].parent.value;
      if parent !in versions {
        return Err(Database.NotFound);
      }
      runs := runs[operation := Database.Run(Database.Operating, rb, current, None, None)];
      var committed := Commit(Database.Change(rb, operation, current, versions[parent].snapshot,
                                              versions[current.value].snapshot, Database.Undone, Database.NoMessage),
                              id);
      match committed {
        case Ok(v) => r := Ok(Database.EditReply(None, Some(v), false));
        case Err(e) => RollBack(before); r := Err(e);
      }
    }

    // ---- pages --------------------------------------------------------------------------------

    method Finalize(rb: Id, version: Id, policy: string, token: string, page: Id) returns (r: Result<Id, Failure>)
      modifies this
      ensures Database.Outcome(Tables(), r) == Database.Finalize(old(Tables()), rb, version, policy, token, page)
    {
      if rb !in routebooks || routebooks[rb].deleted || version !in versions || versions[version].routebook != rb {
        return Err(Database.NotFound);
      }
      if routebooks[rb].current != Some(version) {
        return Err(Database.VersionConflict);
      }
      var issues := ValidateFinal(versions[version].snapshot);
      if issues != [] {
        return Err(Database.NotPublishable(issues));
      }
      if Database.HasActivePage(Tables(), rb, version, policy) {
        return Err(Database.VersionConflict);
      }
      if token in pageOf {
        return Err(Database.DuplicateToken);
      }
      pages := pages[page := Database.Page(rb, version, token, policy, false)];
      pageOf := pageOf[token := page];
      routebooks := routebooks[rb := routebooks[rb].(latestFinal := Some(version))];
      r := Ok(page);
    }

    method Revoke(rb: Id, page: Id) returns (r: Result<Id, Failure>)
      modifies this
      ensures Database.Outcome(Tables(), r) == Database.Revoke(old(Tables()), rb, page)
    {
      if rb !in routebooks || routebooks[rb].deleted || page !in pages || pages[page].routebook != rb {
        return Err(Database.NotFound);
      }
      if !pages[page].revoked {
        pages := pages[page := pages[page].(revoked := true)];
      }
      r := Ok(page);
      assert pages == old(pages)[page := old(pages)[page].(revoked := true)];
    }

    method Delete(rb: Id) returns (r: Result<Id, Failure>)
      modifies this
      ensures Database.Outcome(Tables(), r) == Database.Delete(old(Tables()), rb)
    {
      if rb !in routebooks || routebooks[rb].deleted {
        return Err(Database.NotFound);
      }
      routebooks := routebooks[rb := routebooks[rb].(deleted := true)];
      r := Ok(rb);
    }
  }
}
