/** Every transaction keeps the invariants and takes nothing back. */
module Preservation {
  import opened Wrappers
  import opened RequirementData
  import opened Database
  import opened Invariants
  // ---- writes beside the histories ------------------------------------------------------------

  ghost predicate SameHistories(a: Db, b: Db) {
    a.versions == b.versions && a.versionOf == b.versionOf && a.numbered == b.numbered
  }

  /** Known routebooks keep their current version, and new ones have none. */
  ghost predicate RoutebooksKept(a: Db, b: Db) {
    && (forall rb :: rb in a.routebooks ==>
          && rb in b.routebooks && b.routebooks[rb].current == a.routebooks[rb].current
          && (a.routebooks[rb].deleted ==> b.routebooks[rb].deleted))
    && (forall rb :: rb in b.routebooks && rb !in a.routebooks ==> b.routebooks[rb].current.None?)
  }

  /** Known runs keep their result, and at most gain a proposal. */
  ghost predicate RunsKept(a: Db, b: Db) {
    forall r :: r in a.runs ==> r in b.runs && RunEvolves(a.runs[r], b.runs[r]) && b.runs[r].result == a.runs[r].result
  }

  /** A write that commits no version. */
  ghost predicate SideWrite(a: Db, b: Db) {
    && SameHistories(a, b) && RoutebooksKept(a, b) && RunsKept(a, b)
    && ProposalsEvolve(a, b)
    && forall r {:trigger RunOk(b, r)} :: r in b.runs ==> RunOk(b, r)
  }

  lemma SideWriteKeepsVersion(a: Db, b: Db, v: Id)
    requires Linear(a) && SideWrite(a, b) && v in a.versions
    ensures VersionOk(b, v)
  {
    assert VersionOk(a, v);
    assert ParentOk(b, a.versions[v]);
  }

  lemma SideWriteKeepsRoutebook(a: Db, b: Db, rb: Id)
    requires Linear(a) && SideWrite(a, b) && rb in b.routebooks
    ensures RoutebookOk(b, rb)
    ensures rb in a.routebooks ==> RoutebookEvolves(a, b, rb)
  {
    assert rb in a.routebooks ==> RoutebookOk(a, rb);
  }

  lemma SideWriteKeepsIndexes(a: Db, b: Db)
    requires IndexesOk(a) && SameHistories(a, b)
    ensures IndexesOk(b)
  {
  }

  lemma SideWriteKeepsLinear(a: Db, b: Db)
    requires Linear(a) && SideWrite(a, b)
    ensures Linear(b)
  {
    SideWriteKeepsIndexes(a, b);
    forall v | v in b.versions ensures VersionOk(b, v) {
      SideWriteKeepsVersion(a, b, v);
    }
    forall rb | rb in b.routebooks ensures RoutebookOk(b, rb) {
      SideWriteKeepsRoutebook(a, b, rb);
    }
  }

  lemma SideWriteKeepsContent(a: Db, b: Db, v: Id)
    requires SideWrite(a, b) && v in a.versions && ContentOk(a, v)
    ensures ContentOk(b, v)
  {
    var x := a.versions[v];
    assert RunEvolves(a.runs[x.run], b.runs[x.run]);
    if a.runs[x.run].kind == Operating {
      assert OperationContent(b, x, b.runs[x.run]);
    }
  }

  lemma SideWriteKeepsContents(a: Db, b: Db)
    requires SideWrite(a, b) && Contents(a)
    ensures Contents(b)
  {
    forall v | v in b.versions ensures ContentOk(b, v) {
      assert ContentOk(a, v);
      SideWriteKeepsContent(a, b, v);
    }
  }

  lemma SideWriteEvolves(a: Db, b: Db)
    requires Linear(a) && SideWrite(a, b) && PagesEvolve(a, b) && Extends(a.creations, b.creations)
    ensures Evolves(a, b)
  {
    assert VersionsEvolve(a, b);
    assert RunsEvolve(a, b);
    assert RoutebooksEvolve(a, b) by {
      forall rb | rb in a.routebooks ensures rb in b.routebooks && RoutebookEvolves(a, b, rb) {
        SideWriteKeepsRoutebook(a, b, rb);
      }
    }
  }

  /** Proposals stay sound when the runs and proposals already there are untouched. */
  lemma ProposalsUntouched(a: Db, b: Db)
    requires Proposals(a) && SameHistories(a, b) && a.proposals == b.proposals && Extends(a.runs, b.runs)
    ensures Proposals(b)
  {
    forall p | p in b.proposals ensures ProposalOk(b, p) {
      assert ProposalOk(a, p);
    }
  }

  lemma PageUntouched(a: Db, b: Db, p: Id)
    requires p in a.pages && PageOk(a, p)
    requires Extends(a.versions, b.versions) && a.pages == b.pages && a.pageOf == b.pageOf
    requires forall rb :: rb in a.routebooks ==> rb in b.routebooks
    ensures PageOk(b, p)
  {
  }

  lemma PagesUntouched(a: Db, b: Db)
    requires Pages(a) && Extends(a.versions, b.versions) && a.pages == b.pages && a.pageOf == b.pageOf
    requires forall rb :: rb in a.routebooks ==> rb in b.routebooks
    ensures Pages(b) && PagesEvolve(a, b)
  {
    hide PageOk;
    forall p | p in b.pages ensures PageOk(b, p) {
      assert PageOk(a, p);
      PageUntouched(a, b, p);
    }
    assert OneActive(b) by {
      forall p, q | p in b.pages && q in b.pages && Rivals(b.pages[p], b.pages[q]) ensures p == q {
        assert Rivals(a.pages[p], a.pages[q]);
      }
    }
  }

  lemma CreationsUntouched(a: Db, b: Db)
    requires Creations(a) && a.creations == b.creations && RunsKept(a, b)
    ensures Creations(b) && Extends(a.creations, b.creations)
  {
  }

  /** A run that may be inserted. */
  ghost predicate NewRun(db: Db, run: Id, row: Run) {
    && run !in db.runs
    && row.routebook in db.routebooks && row.result.None? && row.proposal.None?
    && (row.base.Some? ==> IsVersion(db, row.base.value, row.routebook))
    && (row.kind == Creating ==> row.base.None?)
  }

  lemma AddRunIsSideWrite(db: Db, run: Id, row: Run)
    requires Linear(db) && NewRun(db, run, row)
    ensures SideWrite(db, AddRun(db, run, row))
  {
    var after := AddRun(db, run, row);
    forall r | r in after.runs ensures RunOk(after, r) {
      assert r != run ==> RunOk(db, r);
    }
  }

  lemma RunWithoutRow(db: Db, run: Id)
    requires Linear(db) && run !in db.runs
    ensures run !in db.versionOf
  {
    assert run in db.versionOf ==> VersionOk(db, db.versionOf[run]);
  }

  lemma AddRunKeeps(db: Db, run: Id, row: Run)
    requires Inv(db) && NewRun(db, run, row)
    ensures Inv(AddRun(db, run, row)) && Evolves(db, AddRun(db, run, row))
  {
    var after := AddRun(db, run, row);
    AddRunIsSideWrite(db, run, row);
    SideWriteKeepsLinear(db, after);
    SideWriteKeepsContents(db, after);
    ProposalsUntouched(db, after);
    PagesUntouched(db, after);
    CreationsUntouched(db, after);
    SideWriteEvolves(db, after);
  }

  // ---- committing a version -------------------------------------------------------------------

  /** The commit's guard, in the state in which its update is written. */
  ghost predicate Appendable(db: Db, c: Change, id: Id) {
    && c.run in db.runs && db.runs[c.run].routebook == c.routebook && c.run !in db.versionOf
    && c.routebook in db.routebooks && db.routebooks[c.routebook].current == c.base
    && id !in db.versions
    && c.source == SnapshotAt(db, c.base)
  }

  /** Two versions of a routebook never carry the same number, so the next number is free. */
  lemma NextNumberIsFree(db: Db, rb: Id)
    requires Linear(db) && rb in db.routebooks
    ensures (rb, NextNumber(db, db.routebooks[rb].current)) !in db.numbered
  {
    var key := (rb, NextNumber(db, db.routebooks[rb].current));
    assert key in db.numbered ==> VersionOk(db, db.numbered[key]);
  }

  lemma AppendedVersion(db: Db, c: Change, id: Id)
    requires Linear(db) && Appendable(db, c, id)
    ensures VersionOk(Append(db, c, id), id)
    ensures LatestNumber(Append(db, c, id), c.routebook) == LatestNumber(db, c.routebook) + 1
  {
    var after := Append(db, c, id);
    assert RoutebookOk(db, c.routebook);
    assert c.base.Some? ==> VersionOk(db, c.base.value);
    assert after.versions[id] == NewVersion(c, NextNumber(db, c.base));
    assert ParentOk(after, after.versions[id]);
  }

  lemma AppendKeepsVersion(db: Db, c: Change, id: Id, v: Id)
    requires Linear(db) && Appendable(db, c, id) && v in db.versions
    ensures VersionOk(Append(db, c, id), v)
  {
    assert VersionOk(db, v);
    AppendedVersion(db, c, id);
    NextNumberIsFree(db, c.routebook);
    assert ParentOk(Append(db, c, id), db.versions[v]);
  }

  lemma NoResultYet(db: Db, run: Id)
    requires Linear(db) && run in db.runs && run !in db.versionOf
    ensures db.runs[run].result.None?
  {
    assert RunOk(db, run);
    assert db.runs[run].result.Some? ==> VersionOk(db, db.runs[run].result.value);
  }

  lemma AppendKeepsRun(db: Db, c: Change, id: Id, r: Id)
    requires Linear(db) && Appendable(db, c, id) && r in db.runs
    ensures RunOk(Append(db, c, id), r) && RunEvolves(db.runs[r], Append(db, c, id).runs[r])
  {
    assert RunOk(db, r);
    NoResultYet(db, c.run);
  }

  lemma AppendKeepsRoutebook(db: Db, c: Change, id: Id, rb: Id)
    requires Linear(db) && Appendable(db, c, id) && rb in db.routebooks
    ensures RoutebookOk(Append(db, c, id), rb) && RoutebookEvolves(db, Append(db, c, id), rb)
  {
    assert RoutebookOk(db, rb);
    AppendedVersion(db, c, id);
  }

  lemma AppendKeepsIndexes(db: Db, c: Change, id: Id)
    requires Linear(db) && Appendable(db, c, id)
    ensures IndexesOk(Append(db, c, id))
    ensures forall r ::
        r in db.versionOf ==> r in Append(db, c, id).versionOf && Append(db, c, id).versionOf[r] == db.versionOf[r]
  {
  }

  lemma AppendKeepsLinear(db: Db, c: Change, id: Id)
    requires Linear(db) && Appendable(db, c, id)
    ensures Linear(Append(db, c, id))
  {
    var after := Append(db, c, id);
    AppendKeepsIndexes(db, c, id);
    forall v | v in after.versions ensures VersionOk(after, v) {
      if v == id {
        AppendedVersion(db, c, id);
      } else {
        AppendKeepsVersion(db, c, id, v);
      }
    }
    forall r | r in after.runs ensures RunOk(after, r) {
      AppendKeepsRun(db, c, id, r);
    }
    forall rb | rb in after.routebooks ensures RoutebookOk(after, rb) {
      AppendKeepsRoutebook(db, c, id, rb);
    }
  }

  lemma AppendKeepsRows(db: Db, c: Change, id: Id)
    requires Appendable(db, c, id)
    ensures var after := Append(db, c, id);
      && VersionsEvolve(db, after) && after.runs.Keys == db.runs.Keys && after.routebooks.Keys == db.routebooks.Keys
      && after.proposals == db.proposals && after.pages == db.pages && after.pageOf == db.pageOf
      && after.creations == db.creations
  {
  }

  lemma AppendEvolves(db: Db, c: Change, id: Id)
    requires Linear(db) && Appendable(db, c, id)
    ensures Evolves(db, Append(db, c, id))
  {
    hide Append, RoutebookEvolves, VersionOk, RunOk, RoutebookOk;
    var after := Append(db, c, id);
    AppendKeepsRows(db, c, id);
    assert RunsEvolve(db, after) by {
      forall r | r in db.runs ensures RunEvolves(db.runs[r], after.runs[r]) {
        AppendKeepsRun(db, c, id, r);
      }
    }
    assert RoutebooksEvolve(db, after) by {
      forall rb | rb in db.routebooks ensures RoutebookEvolves(db, after, rb) {
        AppendKeepsRoutebook(db, c, id, rb);
      }
    }
  }

  lemma AppendKeepsContent(db: Db, c: Change, id: Id, v: Id)
    requires Linear(db) && Appendable(db, c, id) && v in db.versions && ContentOk(db, v)
    ensures ContentOk(Append(db, c, id), v)
  {
    hide EditContent;
    var after := Append(db, c, id);
    var x := db.versions[v];
    assert VersionOk(db, v);
    if db.runs[x.run].kind == Operating && x.change == Undone {
      assert VersionOk(db, x.parent.value);
    }
    assert db.runs[x.run].kind == Operating ==> OperationContent(after, x, after.runs[x.run]);
  }

  lemma AppendKeepsContents(db: Db, c: Change, id: Id)
    requires Linear(db) && Appendable(db, c, id) && Contents(db)
    requires ContentOk(Append(db, c, id), id)
    ensures Contents(Append(db, c, id))
  {
    var after := Append(db, c, id);
    forall v | v in after.versions ensures ContentOk(after, v) {
      if v != id {
        assert ContentOk(db, v);
        AppendKeepsContent(db, c, id, v);
      }
    }
  }

  lemma AppendKeepsProposals(db: Db, c: Change, id: Id)
    requires Linear(db) && Appendable(db, c, id) && Proposals(db) && db.runs[c.run].proposal.None?
    ensures Proposals(Append(db, c, id))
  {
    var after := Append(db, c, id);
    forall p | p in after.proposals ensures ProposalOk(after, p) {
      assert ProposalOk(db, p);
    }
  }

  lemma AppendKeeps(db: Db, c: Change, id: Id)
    requires Inv(db) && Appendable(db, c, id) && db.runs[c.run].proposal.None?
    requires ContentOk(Append(db, c, id), id)
    ensures Inv(Append(db, c, id)) && Evolves(db, Append(db, c, id))
  {
    AppendKeepsLinear(db, c, id);
    AppendEvolves(db, c, id);
    PagesUntouched(db, Append(db, c, id));
    AppendKeepsContents(db, c, id);
    AppendKeepsProposals(db, c, id);
  }

  /** In a sound state a commit fails exactly when the run or routebook is missing or the base is stale. */
  lemma CommitSucceedsIff(db: Db, c: Change, id: Id)
    requires Linear(db)
    ensures Commit(db, c, id).result.Ok? <==>
      c.run in db.runs
      && (c.run in db.versionOf || (Live(db, c.routebook) && db.routebooks[c.routebook].current == c.base))
    ensures Commit(db, c, id).result.Ok? && c.run !in db.versionOf ==>
        Commit(db, c, id) == Outcome(Append(db, c, id), Ok(id))
    ensures c.run in db.runs && c.run in db.versionOf ==> Commit(db, c, id) == Outcome(db, Ok(db.versionOf[c.run]))
    ensures Commit(db, c, id).result.Err? ==> Commit(db, c, id).db == db
  {
    if c.routebook in db.routebooks {
      NextNumberIsFree(db, c.routebook);
    }
  }

  /** A commit by a job that had read its base. */
  lemma CommitKeeps(db: Db, c: Change, id: Id)
    requires Inv(db) && id !in db.versions
    requires c.run in db.runs ==> db.runs[c.run].routebook == c.routebook && db.runs[c.run].proposal.None?
    requires c.source == SnapshotAt(db, c.base)
    requires c.run in db.runs ==> TaskContent(db.runs[c.run].kind, c.source, c.snapshot)
    requires c.run in db.runs && Commit(db, c, id).result.Ok? && c.run !in db.versionOf
             && db.runs[c.run].kind == Operating ==>
        OperationContent(db, NewVersion(c, NextNumber(db, c.base)), db.runs[c.run])
    ensures Inv(Commit(db, c, id).db) && Evolves(db, Commit(db, c, id).db)
  {
    hide Append, Linear, Pages;
    CommitSucceedsIff(db, c, id);
    if Commit(db, c, id).result.Ok? && c.run !in db.versionOf {
      AppendKeepsLinear(db, c, id);
      AppendedContent(db, c, id);
      AppendKeeps(db, c, id);
    }
  }

  lemma AppendedContent(db: Db, c: Change, id: Id)
    requires Inv(db) && Appendable(db, c, id)
    requires TaskContent(db.runs[c.run].kind, c.source, c.snapshot)
    requires db.runs[c.run].kind == Operating ==>
               OperationContent(db, NewVersion(c, NextNumber(db, c.base)), db.runs[c.run])
    ensures ContentOk(Append(db, c, id), id)
  {
    var after := Append(db, c, id);
    var x := NewVersion(c, NextNumber(db, c.base));
    assert after.versions[id] == x;
    if db.runs[c.run].kind == Operating {
      if x.change == Undone {
        assert VersionOk(db, x.parent.value);
      }
      assert OperationContent(after, x, after.runs[c.run]);
    }
  }
}
