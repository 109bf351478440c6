/** Published pages stay what they were when they were published. */
module SharedPages {
  import opened Wrappers
  import opened Sequences
  import opened RequirementData
  import opened SnapshotData
  import opened FinalChecks
  import opened Database
  import opened Invariants
  import opened Protocol

  /**
   * Redaction blanks addresses only: what is shown passes the same
   * final checks and is well formed exactly when the version is.
   */
  lemma RedactionKeepsTheRest(policy: string, s: Snapshot)
    ensures ShownUnder(policy, s).(places := s.places) == s
    ensures |ShownUnder(policy, s).places| == |s.places|
    ensures forall i :: 0 <= i < |s.places| ==>
              ShownUnder(policy, s).places[i]
              == if policy == "redact_addresses" then s.places[i].(address := "") else s.places[i]
    ensures ValidateFinal(ShownUnder(policy, s)) == ValidateFinal(s)
    ensures WF(ShownUnder(policy, s)) <==> WF(s)
  {
    var t := ShownUnder(policy, s);
    SamePlaces(s, t);
    SamePlaces(t, s);
    assert PlaceIds(t) == PlaceIds(s) && ProposedIds(t) == ProposedIds(s);
    assert SegmentIds(t) == SegmentIds(s) && PlannedIds(t) == PlannedIds(s)
           && DanglingSegmentIds(t) == DanglingSegmentIds(s);
  }

  /** Places that differ in their addresses at most are the same to every check. */
  lemma SamePlaces(s: Snapshot, t: Snapshot)
    requires t.(places := s.places) == s && |t.places| == |s.places|
    requires forall i ::
        0 <= i < |s.places| ==> t.places[i].id == s.places[i].id && t.places[i].status == s.places[i].status
    ensures PlaceIds(s) <= PlaceIds(t) && ProposedIds(s) <= ProposedIds(t)
    ensures WF(s) ==> WF(t)
  {
    forall p | p in s.places ensures exists q :: q in t.places && q.id == p.id && q.status == p.status {
      var i :| 0 <= i < |s.places| && s.places[i] == p;
      assert t.places[i] in t.places;
    }
    if WF(s) {
      assert Map(t.places, PLACE_KEY) == Map(s.places, PLACE_KEY);
      forall i | 0 <= i < |t.days| ensures DayGrounded(t, t.days[i]) {
        assert DayGrounded(s, s.days[i]);
        forall id | id in t.days[i].placeIds ensures HasPlace(t.places, id) {
          var p :| p in s.places && p.id == id;
          var q :| q in t.places && q.id == p.id && q.status == p.status;
        }
      }
    }
  }

  /** What the link of a page shows while its routebook exists and it is not revoked. */
  ghost predicate Shows(db: Db, token: string, page: Id, shared: Shared, s: Snapshot) {
    && token in db.pageOf && db.pageOf[token] == page && page in db.pages
    && db.pages[page].routebook == shared.routebook && db.pages[page].version == shared.version
    && db.pages[page].policy == shared.policy
    && shared.routebook in db.routebooks
    && shared.version in db.versions && db.versions[shared.version].number == shared.number
    && db.versions[shared.version].snapshot == s && shared.snapshot == ShownUnder(shared.policy, s)
  }

  lemma FinalizePublishes(db: Db, rb: Id, version: Id, policy: string, token: string, page: Id)
    requires Finalize(db, rb, version, policy, token, page).result.Ok?
    ensures var s := db.versions[version].snapshot;
      && ValidateFinal(s) == []
      && Shows(Finalize(db, rb, version, policy, token, page).db, token, page,
               Shared(rb, version, db.versions[version].number, ShownUnder(policy, s), policy), s)
  {
  }

  lemma StillShows(a: Db, b: Db, token: string, page: Id, shared: Shared, s: Snapshot)
    requires Evolves(a, b) && Shows(a, token, page, shared, s)
    ensures Shows(b, token, page, shared, s)
  {
    assert VersionsEvolve(a, b) && PagesEvolve(a, b) && RoutebooksEvolve(a, b);
  }

  lemma LoadSharedShows(db: Db, token: string, page: Id, shared: Shared, s: Snapshot)
    requires Shows(db, token, page, shared, s)
    ensures LoadShared(db, token) ==
            if db.pages[page].revoked || db.routebooks[shared.routebook].deleted then Err(NotFound) else Ok(shared)
  {
  }

  /**
   * Main result: from its publication on, whatever edits, undos and plans follow, a link shows the validated snapshot
   * it was published with, exactly until the page is revoked or the routebook deleted.
   */
  lemma SharedPageIsPinned(
    ws: seq<World>, steps: seq<Step>, i: nat, j: nat, rb: Id, version: Id, policy: string, token: string, page: Id)
    requires IsRun(ws, steps) && i < j < |ws| && steps[i] == DoFinalize(rb, version, policy, token, page)
    requires Finalize(ws[i].db, rb, version, policy, token, page).result.Ok?
    ensures ValidateFinal(ws[i].db.versions[version].snapshot) == []
    ensures page in ws[j].db.pages && rb in ws[j].db.routebooks
    ensures LoadShared(ws[j].db, token) ==
            if ws[j].db.pages[page].revoked || ws[j].db.routebooks[rb].deleted then Err(NotFound)
            else Ok(Shared(rb, version, ws[i].db.versions[version].number,
                           ShownUnder(policy, ws[i].db.versions[version].snapshot), policy))
  {
    hide Execute, SavePlan, ValidateFinal;
    var s := ws[i].db.versions[version].snapshot;
    var shared := Shared(rb, version, ws[i].db.versions[version].number, ShownUnder(policy, s), policy);
    assert StepAt(ws, steps, i);
    FinalizePublishes(ws[i].db, rb, version, policy, token, page);
    NothingTakenBack(ws, steps, i + 1, j);
    StillShows(ws[i + 1].db, ws[j].db, token, page, shared, s);
    LoadSharedShows(ws[j].db, token, page, shared, s);
  }

  /** A revoked page or a deleted routebook never comes back. */
  lemma GoneForGood(ws: seq<World>, steps: seq<Step>, i: nat, j: nat, token: string)
    requires IsRun(ws, steps) && i <= j < |ws| && token in ws[i].db.pageOf
    requires LoadShared(ws[i].db, token).Err?
    ensures LoadShared(ws[j].db, token).Err?
  {
    AlwaysSound(ws, steps, i);
    NothingTakenBack(ws, steps, i, j);
    StaysGone(ws[i].db, ws[j].db, token);
  }

  lemma StaysGone(a: Db, b: Db, token: string)
    requires Pages(a) && Evolves(a, b) && token in a.pageOf && LoadShared(a, token).Err?
    ensures LoadShared(b, token).Err?
  {
    var page := a.pageOf[token];
    assert PageOk(a, page);
    assert VersionsEvolve(a, b) && PagesEvolve(a, b) && RoutebooksEvolve(a, b);
    assert RoutebookEvolves(a, b, a.pages[page].routebook);
  }

  /** In every reachable state a version has at most one active page per policy. */
  lemma OneActivePage(ws: seq<World>, steps: seq<Step>, i: nat, p: Id, q: Id)
    requires IsRun(ws, steps) && i < |ws| && p in ws[i].db.pages && q in ws[i].db.pages
    requires !ws[i].db.pages[p].revoked && !ws[i].db.pages[q].revoked
    requires ws[i].db.pages[p].version == ws[i].db.pages[q].version
    requires ws[i].db.pages[p].policy == ws[i].db.pages[q].policy
    ensures p == q
  {
    AlwaysSound(ws, steps, i);
    assert Rivals(ws[i].db.pages[p], ws[i].db.pages[q]);
  }
}
