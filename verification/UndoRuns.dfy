/** Repeated undo swaps between the last two snapshots and never alters a version. */
module UndoRuns {
  import opened Wrappers
  import opened Sequences
  import opened RequirementData
  import opened SnapshotData
  import opened Database
  import opened Invariants
  import opened Transactions
  import opened Histories

  /** One undo after another, each in its own transaction. */
  ghost function UndoAll(db: Db, rb: Id, operations: seq<Id>, ids: seq<Id>): Db
    requires |operations| == |ids|
    decreases |operations|
  {
    if operations == [] then db
    else UndoAll(Settle(db, Undo(db, rb, operations[0], ids[0])).db, rb, operations[1..], ids[1..])
  }

  /** Distinct new run and version ids. */
  ghost predicate FreshIds(db: Db, operations: seq<Id>, ids: seq<Id>) {
    && |operations| == |ids| && Distinct(operations) && Distinct(ids)
    && forall k :: 0 <= k < |ids| ==> operations[k] !in db.runs && ids[k] !in db.versions
  }

  /** The snapshot `back` versions before the end of the history. */
  ghost function SnapshotBack(db: Db, h: seq<Id>, back: nat): Snapshot
    requires back < |h|
  {
    SnapshotAt(db, Some(h[|h| - 1 - back]))
  }

  ghost predicate Alternates(before: Db, after: Db, rb: Id, ids: seq<Id>)
    requires Linear(before) && rb in before.routebooks && |HistoryOf(before, rb)| >= 2
  {
    var h := HistoryOf(before, rb);
    && Linear(after) && Live(after, rb) && Extends(before.versions, after.versions)
    && HistoryOf(after, rb) == h + ids
    && SnapshotAt(after, after.routebooks[rb].current) == SnapshotBack(before, h, |ids| % 2)
  }

  lemma HistoryIsStored(db: Db, rb: Id)
    requires Linear(db) && rb in db.routebooks
    ensures forall v :: v in HistoryOf(db, rb) ==> v in db.versions
    ensures HistoryOf(db, rb) != [] ==>
              db.routebooks[rb].current == Some(HistoryOf(db, rb)[|HistoryOf(db, rb)| - 1])
    ensures |HistoryOf(db, rb)| >= 2 ==>
              var h := HistoryOf(db, rb); db.versions[h[|h| - 1]].parent == Some(h[|h| - 2])
  {
    HistoryIsLinear(db, rb);
    var h := HistoryOf(db, rb);
    forall v | v in h ensures v in db.versions {
      var k: nat :| k < |h| && h[k] == v;
      assert Link(db, rb, h, k);
    }
    if |h| >= 2 {
      assert Link(db, rb, h, |h| - 1);
    }
  }

  /** What one fresh undo changes. */
  ghost predicate UndoneOnce(db: Db, after: Db, rb: Id, operation: Id, id: Id)
    requires Linear(db) && rb in db.routebooks && |HistoryOf(db, rb)| >= 2
  {
    var h := HistoryOf(db, rb);
    && Linear(after) && Live(after, rb) && Extends(db.versions, after.versions)
    && HistoryOf(after, rb) == h + [id]
    && after.versions.Keys == db.versions.Keys + {id} && after.runs.Keys == db.runs.Keys + {operation}
    && h[|h| - 2] in db.versions && after.versions[id].snapshot == db.versions[h[|h| - 2]].snapshot
  }

  lemma UndoWrites(db: Db, rb: Id, operation: Id, id: Id)
    requires Inv(db) && Undoable(db, rb) && operation !in db.runs && id !in db.versions
    ensures var after := Settle(db, Undo(db, rb, operation, id));
      && after.result == Ok(EditReply(None, Some(id), false))
      && Live(after.db, rb) && after.db.routebooks[rb].current == Some(id)
      && after.db.versions.Keys == db.versions.Keys + {id} && after.db.runs.Keys == db.runs.Keys + {operation}
      && after.db.versions[id].snapshot == SnapshotAt(db, db.versions[db.routebooks[rb].current.value].parent)
      && after.db.versions[id].number == LatestNumber(db, rb) + 1
  {
    hide Undo, Append, Inv, Evolves;
    UndoOutcome(db, rb, operation, id);
    AppendShows(UndoStarted(db, rb, operation), UndoChange(db, rb, operation), id);
  }

  /** One undo: the history gains one version, whose snapshot is the second last one. */
  lemma UndoOnce(db: Db, rb: Id, operation: Id, id: Id)
    requires Inv(db) && Live(db, rb) && operation !in db.runs && id !in db.versions
    requires |HistoryOf(db, rb)| >= 2
    ensures Settle(db, Undo(db, rb, operation, id)).result == Ok(EditReply(None, Some(id), false))
    ensures Inv(Settle(db, Undo(db, rb, operation, id)).db)
    ensures UndoneOnce(db, Settle(db, Undo(db, rb, operation, id)).db, rb, operation, id)
  {
    hide Pages, Undo;
    HistoryIsStored(db, rb);
    assert Undoable(db, rb);
    UndoWrites(db, rb, operation, id);
    UndoKeeps(db, rb, operation, id);
    var after := Settle(db, Undo(db, rb, operation, id)).db;
    HistoryGrows(db, after, rb);
    HistoryIsLinear(db, rb);
    HistoryIsLinear(after, rb);
    HistoryIsStored(after, rb);
    assert |HistoryOf(after, rb)| == |HistoryOf(db, rb)| + 1;
  }

  lemma FreshTail(db: Db, after: Db, operations: seq<Id>, ids: seq<Id>)
    requires FreshIds(db, operations, ids) && operations != []
    requires after.versions.Keys == db.versions.Keys + {ids[0]} && after.runs.Keys == db.runs.Keys + {operations[0]}
    ensures FreshIds(after, operations[1..], ids[1..])
  {
    forall k | 0 <= k < |ids[1..]| ensures operations[1..][k] !in after.runs && ids[1..][k] !in after.versions {
      assert operations[k + 1] != operations[0] && ids[k + 1] != ids[0];
      assert operations[1..][k] !in after.runs.Keys && ids[1..][k] !in after.versions.Keys;
    }
  }

  lemma ShiftBack(db: Db, after: Db, rb: Id, operation: Id, id: Id, k: nat)
    requires Linear(db) && rb in db.routebooks && |HistoryOf(db, rb)| >= 2 && id !in db.versions
    requires UndoneOnce(db, after, rb, operation, id)
    ensures var h := HistoryOf(db, rb);
      && HistoryOf(after, rb)[|h| - k % 2] in after.versions
      && h[|h| - 1 - (k + 1) % 2] in db.versions
      && SnapshotBack(after, HistoryOf(after, rb), k % 2) == SnapshotBack(db, h, (k + 1) % 2)
  {
    HistoryIsStored(db, rb);
    HistoryIsStored(after, rb);
    var h := HistoryOf(db, rb);
    if k % 2 == 0 {
      assert (k + 1) % 2 == 1 && HistoryOf(after, rb)[|h|] == id;
    } else {
      assert (k + 1) % 2 == 0 && HistoryOf(after, rb)[|h| - 1] == h[|h| - 1];
    }
  }

  /**
   * Main result: from a history of at least two versions, k fresh undos append k versions, alter none of the old ones
   * and leave the last snapshot current when k is even, and the one before it when k is odd.
   */
  lemma {:induction false} UndosAlternate(db: Db, rb: Id, operations: seq<Id>, ids: seq<Id>)
    requires Inv(db) && Live(db, rb) && |HistoryOf(db, rb)| >= 2 && FreshIds(db, operations, ids)
    ensures Inv(UndoAll(db, rb, operations, ids)) && Alternates(db, UndoAll(db, rb, operations, ids), rb, ids)
    decreases |operations|
  {
    hide ContentOk, EditContent, Undo;
    HistoryIsStored(db, rb);
    if operations == [] {
      assert HistoryOf(db, rb) + ids == HistoryOf(db, rb);
    } else {
      var after := Settle(db, Undo(db, rb, operations[0], ids[0])).db;
      UndoOnce(db, rb, operations[0], ids[0]);
      FreshTail(db, after, operations, ids);
      HistoryIsStored(after, rb);
      UndosAlternate(after, rb, operations[1..], ids[1..]);
      AlternatesAfterOne(db, after, UndoAll(after, rb, operations[1..], ids[1..]), rb, operations[0], ids);
    }
  }

  lemma HeadThenTail<T>(s: seq<T>, t: seq<T>)
    requires t != []
    ensures s + [t[0]] + t[1..] == s + t
  {
  }

  lemma AlternatesAfterOne(db: Db, after: Db, end: Db, rb: Id, operation: Id, ids: seq<Id>)
    requires Linear(db) && Live(db, rb) && |HistoryOf(db, rb)| >= 2 && ids != [] && ids[0] !in db.versions
    requires UndoneOnce(db, after, rb, operation, ids[0])
    requires Alternates(after, end, rb, ids[1..])
    ensures Alternates(db, end, rb, ids)
  {
    var h := HistoryOf(db, rb);
    ShiftBack(db, after, rb, operation, ids[0], |ids| - 1);
    HeadThenTail(h, ids);
  }
}
