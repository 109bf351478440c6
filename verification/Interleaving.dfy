/**
 * Commits that overlap in time.  `VersionService.commit` is split into its base check, its insert under the two unique
 * constraints and its compare-and-set; what a transaction has written becomes visible when it ends.  Every commit turns
 * out to have the effect it would have had alone, at the moment it ends.
 */
module Interleaving {
  import opened Wrappers
  import opened RequirementData
  import opened Database
  import opened Invariants
  import opened Preservation
  import opened Histories

  datatype Stage = Checked | Inserted | Swapped

  /** A commit under way; `row` is the run it inserts itself, as edits and undos do. */
  datatype Flight = Flight(change: Change, row: Option<Run>, id: Id, number: nat, stage: Stage)

  /** The committed tables, and the transactions in progress. */
  datatype Concurrent = Concurrent(db: Db, flights: map<Id, Flight>)

  datatype Event =
    | Begin(t: Id, change: Change, row: Option<Run>, id: Id)
    | TryInsert(t: Id)
    | TrySwap(t: Id)
    | End(t: Id)
    | Abort(t: Id)
    | Background(after: Db)

  function Drop(s: Concurrent, t: Id): Concurrent {
    s.(flights := s.flights - {t})
  }

  function Put(s: Concurrent, t: Id, f: Flight): Concurrent {
    s.(flights := s.flights[t := f])
  }

  /** The tables the flight works on: the committed ones, and the run it inserts. */
  function Base(db: Db, f: Flight): Db {
    if f.row.Some? then AddRun(db, f.change.run, f.row.value) else db
  }

  predicate SameKey(f: Flight, g: Flight) {
    f.change.routebook == g.change.routebook && f.number == g.number
  }

  // ---- what may happen ------------------------------------------------------------------------

  /** The first part of a commit: the run is locked and has no version, and the base is the current version. */
  ghost predicate Passes(db: Db, change: Change, row: Option<Run>) {
    && (row.Some? ==> NewRun(db, change.run, row.value) && row.value.routebook == change.routebook)
    && (row.None? ==> change.run in db.runs && db.runs[change.run].routebook == change.routebook)
    && change.run !in db.versionOf
    && Live(db, change.routebook) && db.routebooks[change.routebook].current == change.base
    && change.source == SnapshotAt(db, change.base)
  }

  /** A transaction that commits no version, and that no lock of a flight keeps waiting. */
  ghost predicate Unlocked(s: Concurrent, after: Db) {
    && SideWrite(s.db, after)
    && (forall t :: t in s.flights ==>
          var f := s.flights[t];
          && (f.change.run in s.db.runs <==> f.change.run in after.runs)
          && (f.change.run in s.db.runs ==> after.runs[f.change.run] == s.db.runs[f.change.run]))
    && (forall t :: t in s.flights && s.flights[t].stage == Swapped ==>
          var rb := s.flights[t].change.routebook;
          rb in s.db.routebooks && after.routebooks[rb] == s.db.routebooks[rb])
  }

  /** Whether the event can happen now: other transactions hold no lock it needs. */
  ghost predicate Enabled(s: Concurrent, e: Event) {
    match e
    case Begin(t, change, row, id) =>
      && t !in s.flights && id !in s.db.versions
      && (forall u :: u in s.flights ==> s.flights[u].change.run != change.run && s.flights[u].id != id)
      && Passes(s.db, change, row)
    case TryInsert(t) =>
      && t in s.flights && s.flights[t].stage == Checked
      && forall u :: u in s.flights && s.flights[u].stage != Checked ==> !SameKey(s.flights[u], s.flights[t])
    case TrySwap(t) =>
      && t in s.flights && s.flights[t].stage == Inserted
      && forall u :: u in s.flights && s.flights[u].stage == Swapped ==>
           s.flights[u].change.routebook != s.flights[t].change.routebook
    case End(t) => t in s.flights && s.flights[t].stage == Swapped
    case Abort(t) => t in s.flights
    case Background(after) => Unlocked(s, after)
  }

  /** An insert that meets a committed key, and a swap that finds another current version, raise a conflict. */
  ghost function Act(s: Concurrent, e: Event): Concurrent
    requires Enabled(s, e)
  {
    match e
    case Begin(t, change, row, id) => Put(s, t, Flight(change, row, id, NextNumber(s.db, change.base), Checked))
    case TryInsert(t) =>
      var f := s.flights[t];
      if (f.change.routebook, f.number) in s.db.numbered then Drop(s, t) else Put(s, t, f.(stage := Inserted))
    case TrySwap(t) =>
      var f := s.flights[t];
      if f.change.routebook in s.db.routebooks && s.db.routebooks[f.change.routebook].current == f.change.base
      then Put(s, t, f.(stage := Swapped)) else Drop(s, t)
    case End(t) => Drop(s.(db := Ended(s.db, s.flights[t])), t)
    case Abort(t) => Drop(s, t)
    case Background(after) => s.(db := after)
  }

  /** Everything the flight has written becomes visible. */
  ghost function Ended(db: Db, f: Flight): Db {
    var base := Base(db, f);
    if f.change.routebook in base.routebooks && f.change.run in base.runs then
      Written(base, f.change, f.number, f.id)
    else base
  }

  // ---- what always holds ----------------------------------------------------------------------

  ghost predicate FlightOk(db: Db, f: Flight) {
    && f.id !in db.versions
    && f.change.routebook in db.routebooks
    && (f.change.base.Some? ==> IsVersion(db, f.change.base.value, f.change.routebook))
    && (f.row.Some? ==> NewRun(db, f.change.run, f.row.value) && f.row.value.routebook == f.change.routebook)
    && (f.row.None? ==> f.change.run in db.runs && db.runs[f.change.run].routebook == f.change.routebook)
    && f.change.run !in db.versionOf
    && f.change.source == SnapshotAt(db, f.change.base)
    && f.number == NextNumber(db, f.change.base)
    && (f.stage != Checked ==> (f.change.routebook, f.number) !in db.numbered)
  }

  ghost predicate Apart(f: Flight, g: Flight) {
    && f.change.run != g.change.run && f.id != g.id
    && (f.stage != Checked && g.stage != Checked ==> !SameKey(f, g))
  }

  ghost predicate AllOk(db: Db, flights: map<Id, Flight>) {
    forall t {:trigger FlightOk(db, flights[t])} :: t in flights ==> FlightOk(db, flights[t])
  }

  ghost predicate AllApart(flights: map<Id, Flight>) {
    forall t, u {:trigger Apart(flights[t], flights[u])} ::
      t in flights && u in flights && t != u ==> Apart(flights[t], flights[u])
  }

  ghost predicate Orderly(s: Concurrent) {
    Linear(s.db) && AllOk(s.db, s.flights) && AllApart(s.flights)
  }

  /** Every number up to the latest one is taken. */
  lemma TakenUpToLatest(db: Db, rb: Id, number: nat)
    requires Linear(db) && rb in db.routebooks && 1 <= number <= LatestNumber(db, rb)
    ensures (rb, number) in db.numbered
  {
    HistoryIsLinear(db, rb);
    var h := HistoryOf(db, rb);
    assert Link(db, rb, h, number - 1);
    assert VersionOk(db, h[number - 1]);
  }

  /** A flight whose insert went through finds its base still current: its swap cannot fail. */
  lemma InsertedIsCurrent(db: Db, f: Flight)
    requires Linear(db) && FlightOk(db, f) && f.stage != Checked
    ensures db.routebooks[f.change.routebook].current == f.change.base
  {
    var rb := f.change.routebook;
    assert RoutebookOk(db, rb);
    var current := db.routebooks[rb].current;
    assert current.Some? ==> VersionOk(db, current.value);
    if f.number <= LatestNumber(db, rb) {
      TakenUpToLatest(db, rb, f.number);
    }
    if f.change.base.Some? {
      assert VersionOk(db, f.change.base.value);
      assert current.Some?;
      NumberDetermines(db, current.value, f.change.base.value);
    }
  }

  // ---- ends -----------------------------------------------------------------------------------

  lemma BaseIsLinear(db: Db, f: Flight)
    requires Linear(db) && FlightOk(db, f)
    ensures Linear(Base(db, f)) && f.change.run in Base(db, f).runs && Base(db, f).runs[f.change.run].routebook
        == f.change.routebook
  {
    if f.row.Some? {
      AddRunIsSideWrite(db, f.change.run, f.row.value);
      SideWriteKeepsLinear(db, Base(db, f));
    }
  }

  /** Ending is exactly the commit, run alone, in the state the flight ends in. */
  lemma EndIsCommit(db: Db, f: Flight)
    requires Linear(db) && FlightOk(db, f) && f.stage != Checked
    ensures var base := Base(db, f);
      && Linear(base) && Appendable(base, f.change, f.id)
      && Ended(db, f) == Append(base, f.change, f.id)
      && (Live(db, f.change.routebook) ==> Commit(base, f.change, f.id) == Outcome(Ended(db, f), Ok(f.id)))
  {
    var base := Base(db, f);
    InsertedIsCurrent(db, f);
    BaseIsLinear(db, f);
    CommitSucceedsIff(base, f.change, f.id);
  }

  lemma EndKeepsLinear(db: Db, f: Flight)
    requires Linear(db) && FlightOk(db, f) && f.stage != Checked
    ensures Linear(Ended(db, f))
  {
    EndIsCommit(db, f);
    AppendKeepsLinear(Base(db, f), f.change, f.id);
  }

  /** Other flights are not disturbed by an end: they only learn that their base is outdated. */
  lemma EndKeepsFlight(db: Db, f: Flight, g: Flight, after: Db)
    requires FlightOk(db, f) && FlightOk(db, g) && Apart(f, g) && f.stage != Checked
    requires EndWrites(db, f, after)
    ensures FlightOk(after, g)
  {
  }

  ghost predicate EndWritesVersion(db: Db, f: Flight, after: Db) {
    && after.versions == db.versions[f.id := NewVersion(f.change, f.number)]
    && after.versionOf == db.versionOf[f.change.run := f.id]
    && after.numbered == db.numbered[(f.change.routebook, f.number) := f.id]
  }

  ghost predicate EndWritesRows(db: Db, f: Flight, after: Db) {
    && after.routebooks.Keys == db.routebooks.Keys
    && forall r :: r != f.change.run ==>
         (r in after.runs <==> r in db.runs) && (r in db.runs ==> after.runs[r] == db.runs[r])
  }

  /** The tables after an end, as far as other flights read them. */
  ghost predicate EndWrites(db: Db, f: Flight, after: Db) {
    EndWritesVersion(db, f, after) && EndWritesRows(db, f, after)
  }

  function Written(base: Db, c: Change, number: nat, id: Id): Db
    requires c.routebook in base.routebooks && c.run in base.runs
  {
    SetResult(Advance(Insert(base, c, number, id), c.routebook, id), c.run, id)
  }

  lemma WrittenVersion(base: Db, c: Change, number: nat, id: Id)
    requires c.routebook in base.routebooks && c.run in base.runs
    ensures var after := Written(base, c, number, id);
      && after.versions == base.versions[id := NewVersion(c, number)]
      && after.versionOf == base.versionOf[c.run := id]
      && after.numbered == base.numbered[(c.routebook, number) := id]
  {
  }

  lemma WrittenRows(base: Db, c: Change, number: nat, id: Id)
    requires c.routebook in base.routebooks && c.run in base.runs
    ensures var after := Written(base, c, number, id);
      && after.routebooks == base.routebooks[c.routebook := base.routebooks[c.routebook].(current := Some(id))]
      && after.runs == base.runs[c.run := base.runs[c.run].(result := Some(id))]
  {
  }

  /** Only the flight's own run distinguishes the tables it works on. */
  ghost predicate BaseTables(db: Db, base: Db, run: Id) {
    && base.versions == db.versions && base.versionOf == db.versionOf && base.numbered == db.numbered
    && base.routebooks == db.routebooks
    && forall r :: r != run ==> (r in base.runs <==> r in db.runs) && (r in db.runs ==> base.runs[r] == db.runs[r])
  }

  lemma BaseIsAlmostSame(db: Db, f: Flight)
    ensures BaseTables(db, Base(db, f), f.change.run)
  {
    if f.row.Some? {
      assert Base(db, f) == AddRun(db, f.change.run, f.row.value);
    } else {
      assert Base(db, f) == db;
    }
  }

  lemma WrittenOnBase(db: Db, base: Db, f: Flight)
    requires BaseTables(db, base, f.change.run) && f.change.routebook in base.routebooks && f.change.run in base.runs
    ensures EndWrites(db, f, Written(base, f.change, f.number, f.id))
  {
    WrittenVersion(base, f.change, f.number, f.id);
    WrittenRows(base, f.change, f.number, f.id);
    assert Written(base, f.change, f.number, f.id).routebooks.Keys == db.routebooks.Keys;
  }

  lemma EndedWrites(db: Db, f: Flight)
    requires f.change.routebook in db.routebooks && f.change.run in Base(db, f).runs
    ensures EndWrites(db, f, Ended(db, f))
  {
    BaseIsAlmostSame(db, f);
    WrittenOnBase(db, Base(db, f), f);
  }

  lemma EndKeeps(s: Concurrent, t: Id)
    requires Orderly(s) && t in s.flights && s.flights[t].stage == Swapped
    ensures Orderly(Drop(s.(db := Ended(s.db, s.flights[t])), t))
  {
    var f := s.flights[t];
    assert FlightOk(s.db, s.flights[t]);
    EndKeepsLinear(s.db, f);
    BaseIsLinear(s.db, f);
    EndedWrites(s.db, f);
    var after := Drop(s.(db := Ended(s.db, f)), t);
    forall u | u in after.flights ensures FlightOk(after.db, after.flights[u]) {
      assert FlightOk(s.db, s.flights[u]) && Apart(s.flights[t], s.flights[u]);
      EndKeepsFlight(s.db, f, s.flights[u], after.db);
    }
    StillApart(s.flights, after.flights);
  }

  lemma StillApart(before: map<Id, Flight>, after: map<Id, Flight>)
    requires AllApart(before) && forall u :: u in after ==> u in before && after[u] == before[u]
    ensures AllApart(after)
  {
    forall u, v | u in after && v in after && u != v ensures Apart(after[u], after[v]) {
      assert Apart(before[u], before[v]);
    }
  }

  // ---- the other events -----------------------------------------------------------------------

  lemma DropKeeps(s: Concurrent, t: Id)
    requires Orderly(s)
    ensures Orderly(Drop(s, t))
  {
    var after := Drop(s, t);
    forall u | u in after.flights ensures FlightOk(after.db, after.flights[u]) {
      assert FlightOk(s.db, s.flights[u]);
    }
    StillApart(s.flights, after.flights);
  }

  lemma PutKeeps(s: Concurrent, t: Id, f: Flight)
    requires Orderly(s) && FlightOk(s.db, f)
    requires forall u :: u in s.flights && u != t ==> Apart(s.flights[u], f)
    ensures Orderly(Put(s, t, f))
  {
    var after := Put(s, t, f);
    forall u | u in after.flights ensures FlightOk(after.db, after.flights[u]) {
      assert u != t ==> FlightOk(s.db, s.flights[u]);
    }
    forall u, v | u in after.flights && v in after.flights && u != v ensures Apart(after.flights[u], after.flights[v]) {
      assert u != t && v != t ==> Apart(s.flights[u], s.flights[v]);
    }
  }

  lemma BeginKeeps(s: Concurrent, e: Event)
    requires Orderly(s) && e.Begin? && Enabled(s, e)
    ensures Orderly(Act(s, e))
  {
    var f := Flight(e.change, e.row, e.id, NextNumber(s.db, e.change.base), Checked);
    assert RoutebookOk(s.db, e.change.routebook);
    PutKeeps(s, e.t, f);
  }

  lemma InsertKeeps(s: Concurrent, e: Event)
    requires Orderly(s) && e.TryInsert? && Enabled(s, e)
    ensures Orderly(Act(s, e))
  {
    var f := s.flights[e.t];
    assert FlightOk(s.db, s.flights[e.t]);
    if (f.change.routebook, f.number) in s.db.numbered {
      DropKeeps(s, e.t);
    } else {
      forall u | u in s.flights && u != e.t ensures Apart(s.flights[u], f.(stage := Inserted)) {
        assert Apart(s.flights[u], s.flights[e.t]);
      }
      PutKeeps(s, e.t, f.(stage := Inserted));
    }
  }

  lemma SwapKeeps(s: Concurrent, e: Event)
    requires Orderly(s) && e.TrySwap? && Enabled(s, e)
    ensures Orderly(Act(s, e)) && e.t in Act(s, e).flights
  {
    var f := s.flights[e.t];
    assert FlightOk(s.db, s.flights[e.t]);
    InsertedIsCurrent(s.db, f);
    forall u | u in s.flights && u != e.t ensures Apart(s.flights[u], f.(stage := Swapped)) {
      assert Apart(s.flights[u], s.flights[e.t]);
    }
    PutKeeps(s, e.t, f.(stage := Swapped));
  }

  lemma BackgroundKeepsFlight(s: Concurrent, after: Db, t: Id)
    requires Orderly(s) && Unlocked(s, after) && t in s.flights
    ensures FlightOk(after, s.flights[t])
  {
    assert FlightOk(s.db, s.flights[t]);
  }

  lemma BackgroundKeeps(s: Concurrent, after: Db)
    requires Orderly(s) && Unlocked(s, after)
    ensures Orderly(s.(db := after))
  {
    SideWriteKeepsLinear(s.db, after);
    forall t | t in s.flights ensures FlightOk(after, s.flights[t]) {
      BackgroundKeepsFlight(s, after, t);
    }
  }

  lemma EventKeeps(s: Concurrent, e: Event)
    requires Orderly(s) && Enabled(s, e)
    ensures Orderly(Act(s, e))
  {
    match e {
      case Begin(_, _, _, _) => BeginKeeps(s, e);
      case TryInsert(_) => InsertKeeps(s, e);
      case TrySwap(_) => SwapKeeps(s, e);
      case End(t) => EndKeeps(s, t);
      case Abort(t) => DropKeeps(s, t);
      case Background(after) => BackgroundKeeps(s, after);
    }
  }

  // ---- whole interleavings --------------------------------------------------------------------

  ghost predicate EventAt(ss: seq<Concurrent>, es: seq<Event>, i: nat)
    requires i < |es| < |ss|
  {
    Enabled(ss[i], es[i]) && ss[i + 1] == Act(ss[i], es[i])
  }

  ghost predicate IsInterleaving(ss: seq<Concurrent>, es: seq<Event>) {
    && |ss| == |es| + 1 && ss[0] == Concurrent(EMPTY_DB, map[])
    && forall i: nat {:trigger EventAt(ss, es, i)} :: i < |es| ==> EventAt(ss, es, i)
  }

  lemma {:induction false} AlwaysOrderly(ss: seq<Concurrent>, es: seq<Event>, i: nat)
    requires IsInterleaving(ss, es) && i < |ss|
    ensures Orderly(ss[i])
  {
    if i > 0 {
      AlwaysOrderly(ss, es, i - 1);
      assert EventAt(ss, es, i - 1);
      EventKeeps(ss[i - 1], es[i - 1]);
    }
  }

  /** Main result: under any interleaving of commits, every routebook keeps one linear history. */
  lemma InterleavedHistoriesAreLinear(ss: seq<Concurrent>, es: seq<Event>, i: nat, rb: Id)
    requires IsInterleaving(ss, es) && i < |ss| && rb in ss[i].db.routebooks
    ensures Linear(ss[i].db) && IsHistory(ss[i].db, rb, HistoryOf(ss[i].db, rb))
  {
    AlwaysOrderly(ss, es, i);
    HistoryIsLinear(ss[i].db, rb);
  }

  /**
   * Main result: in any interleaving, the only event that shows a version is the end of a commit, and it has exactly
   * the effect of that commit run alone at that moment.
   */
  lemma CommitsAreAtomic(ss: seq<Concurrent>, es: seq<Event>, i: nat)
    requires IsInterleaving(ss, es) && i < |es|
    ensures !es[i].End? ==> ss[i + 1].db.versions == ss[i].db.versions
    ensures es[i].End? ==>
      && es[i].t in ss[i].flights
      && var f := ss[i].flights[es[i].t];
      && Appendable(Base(ss[i].db, f), f.change, f.id)
      && ss[i + 1].db == Append(Base(ss[i].db, f), f.change, f.id)
      && Commit(Base(ss[i].db, f), f.change, f.id)
         == if Live(ss[i].db, f.change.routebook) then Outcome(ss[i + 1].db, Ok(f.id))
            else Outcome(Base(ss[i].db, f), Err(NotFound))
  {
    AlwaysOrderly(ss, es, i);
    assert EventAt(ss, es, i);
    if es[i].End? {
      var f := ss[i].flights[es[i].t];
      assert FlightOk(ss[i].db, ss[i].flights[es[i].t]);
      EndIsCommit(ss[i].db, f);
    }
  }

  /** The two constraints already decide: a commit that got its row in never fails at the compare-and-set. */
  lemma SwapsNeverFail(ss: seq<Concurrent>, es: seq<Event>, i: nat)
    requires IsInterleaving(ss, es) && i < |es| && es[i].TrySwap?
    ensures es[i].t in ss[i + 1].flights && ss[i + 1].flights[es[i].t].stage == Swapped
  {
    AlwaysOrderly(ss, es, i);
    assert EventAt(ss, es, i);
    assert FlightOk(ss[i].db, ss[i].flights[es[i].t]);
    InsertedIsCurrent(ss[i].db, ss[i].flights[es[i].t]);
  }
}
