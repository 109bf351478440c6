/** What every transaction keeps: linear histories, sound proposals, pages and idempotency records. */
module Invariants {
  import opened Wrappers
  import opened RequirementData
  import opened SnapshotData
  import opened Editing
  import opened FinalChecks
  import opened Database

  // ---- histories ------------------------------------------------------------------------------

  predicate IsVersion(db: Db, v: Id, rb: Id) {
    v in db.versions && db.versions[v].routebook == rb
  }

  function LatestNumber(db: Db, rb: Id): nat {
    if rb in db.routebooks then NextNumber(db, db.routebooks[rb].current) - 1 else 0
  }

  ghost predicate RoutebookOk(db: Db, rb: Id)
    requires rb in db.routebooks
  {
    var current := db.routebooks[rb].current;
    current.Some? ==> IsVersion(db, current.value, rb)
  }

  ghost predicate RunOk(db: Db, r: Id)
    requires r in db.runs
  {
    var run := db.runs[r];
    && run.routebook in db.routebooks
    && (run.base.Some? ==> IsVersion(db, run.base.value, run.routebook))
    && (run.kind == Creating ==> run.base.None?)
    && (run.result.Some? ==> run.result.value in db.versions && db.versions[run.result.value].run == r)
    && (run.proposal.Some? ==>
          run.kind == Operating && run.proposal.value in db.proposals && db.proposals[run.proposal.value].run == r)
  }

  ghost predicate ParentOk(db: Db, x: Version) {
    && (x.parent.None? <==> x.number == 1)
    && (x.parent.Some? ==>
          IsVersion(db, x.parent.value, x.routebook) && db.versions[x.parent.value].number + 1 == x.number)
    && x.source == SnapshotAt(db, x.parent)
  }

  ghost predicate VersionOk(db: Db, v: Id)
    requires v in db.versions
  {
    var x := db.versions[v];
    && 1 <= x.number <= LatestNumber(db, x.routebook)
    && x.routebook in db.routebooks
    && x.run in db.runs && db.runs[x.run].routebook == x.routebook && db.runs[x.run].result == Some(v)
    && x.run in db.versionOf && db.versionOf[x.run] == v
    && (x.routebook, x.number) in db.numbered && db.numbered[(x.routebook, x.number)] == v
    && ParentOk(db, x)
  }

  ghost predicate IndexesOk(db: Db) {
    && (forall r :: r in db.versionOf ==> db.versionOf[r] in db.versions && db.versions[db.versionOf[r]].run == r)
    && (forall key :: key in db.numbered ==>
          db.numbered[key] in db.versions
          && (db.versions[db.numbered[key]].routebook, db.versions[db.numbered[key]].number) == key)
  }

  ghost predicate Linear(db: Db) {
    && (forall rb {:trigger RoutebookOk(db, rb)} :: rb in db.routebooks ==> RoutebookOk(db, rb))
    && (forall r {:trigger RunOk(db, r)} :: r in db.runs ==> RunOk(db, r))
    && (forall v {:trigger VersionOk(db, v)} :: v in db.versions ==> VersionOk(db, v))
    && IndexesOk(db)
  }

  // ---- contents -------------------------------------------------------------------------------

  const MUST_FIELDS := {MustVisitIds, MustVisitTexts}

  /** Two requirement snapshots differ at most in the must-visit fields. */
  ghost predicate OnlyMusts(a: Requirements, b: Requirements) {
    forall f: Field :: f !in MUST_FIELDS ==> a[f] == b[f]
  }

  /** What a job of the given kind may change in the snapshot it read. */
  ghost predicate TaskContent(kind: RunKind, source: Snapshot, content: Snapshot) {
    match kind
    case Creating => content == EMPTY_SNAPSHOT
    case Refining => content == source.(requirements := content.requirements)
    case Planning => content.enrichments == source.enrichments && OnlyMusts(content.requirements, source.requirements)
    case Enriching => content == source.(enrichments := content.enrichments)
    case Operating => true
  }

  /** An edit keeps every day outside the days its plan counts as affected. */
  ghost predicate EditContent(plan: EditPlan, source: Snapshot, content: Snapshot) {
    plan.preview == Some(content) && DaysUnchanged(source, content, plan.impact.days)
  }

  ghost predicate OperationContent(db: Db, x: Version, run: Run) {
    match x.change
    case Created => false
    case Undone =>
      && x.parent.Some? && x.parent.value in db.versions
      && db.versions[x.parent.value].parent.Some?
      && x.snapshot == SnapshotAt(db, db.versions[x.parent.value].parent)
    case Changed =>
      match x.message
      case Fingerprint(plan) => EditContent(plan, x.source, x.snapshot)
      case UserText(_) => false
      case NoMessage =>
        && run.proposal.Some? && run.proposal.value in db.proposals
        && EditContent(db.proposals[run.proposal.value].plan, x.source, x.snapshot)
  }

  ghost predicate ContentOk(db: Db, v: Id)
    requires v in db.versions
  {
    var x := db.versions[v];
    && x.run in db.runs
    && TaskContent(db.runs[x.run].kind, x.source, x.snapshot)
    && (db.runs[x.run].kind == Operating ==> OperationContent(db, x, db.runs[x.run]))
  }

  ghost predicate Contents(db: Db) {
    forall v {:trigger ContentOk(db, v)} :: v in db.versions ==> ContentOk(db, v)
  }

  // ---- proposals, pages, creations ------------------------------------------------------------

  ghost predicate AcceptedAs(db: Db, p: Proposal, v: Id) {
    v in db.versions && db.versions[v].run == p.run
    && db.versions[v].parent == Some(p.base) && db.versions[v].snapshot == p.preview
  }

  ghost predicate ProposalOk(db: Db, id: Id)
    requires id in db.proposals
  {
    var p := db.proposals[id];
    && IsVersion(db, p.base, p.routebook) && p.source == db.versions[p.base].snapshot
    && p.run in db.runs
    && db.runs[p.run] == Run(Operating, p.routebook, Some(p.base), db.runs[p.run].result, Some(id))
    && EditContent(p.plan, p.source, p.preview)
    && p.status != Expired
    && (p.status == Accepted <==> p.run in db.versionOf)
    && (p.status == Accepted ==> AcceptedAs(db, p, db.versionOf[p.run]))
  }

  ghost predicate Proposals(db: Db) {
    forall p {:trigger ProposalOk(db, p)} :: p in db.proposals ==> ProposalOk(db, p)
  }

  ghost predicate PageOk(db: Db, id: Id)
    requires id in db.pages
  {
    var page := db.pages[id];
    && IsVersion(db, page.version, page.routebook) && page.routebook in db.routebooks
    && ValidateFinal(db.versions[page.version].snapshot) == []
    && page.token in db.pageOf && db.pageOf[page.token] == id
  }

  /** Both pages show the same version under the same policy, and neither is revoked. */
  ghost predicate Rivals(a: Page, b: Page) {
    !a.revoked && !b.revoked && a.version == b.version && a.policy == b.policy
  }

  ghost predicate OneActive(db: Db) {
    forall p, q {:trigger Rivals(db.pages[p], db.pages[q])} ::
      p in db.pages && q in db.pages && Rivals(db.pages[p], db.pages[q]) ==> p == q
  }

  ghost predicate Pages(db: Db) {
    && (forall p {:trigger PageOk(db, p)} :: p in db.pages ==> PageOk(db, p))
    && (forall t :: t in db.pageOf ==> db.pageOf[t] in db.pages && db.pages[db.pageOf[t]].token == t)
    && OneActive(db)
  }

  ghost predicate Creations(db: Db) {
    forall k :: k in db.creations ==>
      && db.creations[k].run in db.runs
      && db.runs[db.creations[k].run].routebook == db.creations[k].routebook
      && db.runs[db.creations[k].run].kind == Creating
  }

  ghost predicate Inv(db: Db) {
    Linear(db) && Contents(db) && Proposals(db) && Pages(db) && Creations(db)
  }

  // ---- evolution ------------------------------------------------------------------------------

  ghost predicate RunEvolves(a: Run, b: Run) {
    && b.kind == a.kind && b.routebook == a.routebook && b.base == a.base
    && (a.result.Some? ==> b.result == a.result)
    && (a.proposal.Some? || a.result.Some? ==> b.proposal == a.proposal)
  }

  ghost predicate ProposalEvolves(a: Proposal, b: Proposal) {
    && b.routebook == a.routebook && b.base == a.base && b.run == a.run
    && b.preview == a.preview && b.plan == a.plan && b.source == a.source
    && (a.status != Pending ==> b.status == a.status)
  }

  ghost predicate PageEvolves(a: Page, b: Page) {
    && b.routebook == a.routebook && b.version == a.version && b.token == a.token && b.policy == a.policy
    && (a.revoked ==> b.revoked)
  }

  /** The current version moves only to a higher number. */
  ghost predicate RoutebookEvolves(before: Db, after: Db, rb: Id)
    requires rb in before.routebooks && rb in after.routebooks
  {
    var a, b := before.routebooks[rb], after.routebooks[rb];
    && (a.deleted ==> b.deleted)
    && (a.current.Some? ==> b.current.Some?)
    && (b.current != a.current ==> LatestNumber(before, rb) < LatestNumber(after, rb))
  }

  ghost predicate Extends<K, V>(a: map<K, V>, b: map<K, V>) {
    forall k :: k in a ==> k in b && b[k] == a[k]
  }

  ghost predicate VersionsEvolve(a: Db, b: Db) {
    Extends(a.versions, b.versions) && Extends(a.versionOf, b.versionOf)
  }

  ghost predicate RunsEvolve(a: Db, b: Db) {
    forall r :: r in a.runs ==> r in b.runs && RunEvolves(a.runs[r], b.runs[r])
  }

  ghost predicate ProposalsEvolve(a: Db, b: Db) {
    forall p :: p in a.proposals ==> p in b.proposals && ProposalEvolves(a.proposals[p], b.proposals[p])
  }

  ghost predicate PagesEvolve(a: Db, b: Db) {
    && Extends(a.pageOf, b.pageOf)
    && forall p :: p in a.pages ==> p in b.pages && PageEvolves(a.pages[p], b.pages[p])
  }

  ghost predicate RoutebooksEvolve(a: Db, b: Db) {
    forall rb :: rb in a.routebooks ==> rb in b.routebooks && RoutebookEvolves(a, b, rb)
  }

  /** What no transaction ever takes back. */
  ghost predicate Evolves(a: Db, b: Db) {
    && VersionsEvolve(a, b) && RunsEvolve(a, b) && ProposalsEvolve(a, b) && PagesEvolve(a, b)
    && Extends(a.creations, b.creations) && RoutebooksEvolve(a, b)
  }

  lemma EvolvesTransitive(a: Db, b: Db, c: Db)
    requires Evolves(a, b) && Evolves(b, c)
    ensures Evolves(a, c)
  {
    forall rb | rb in a.routebooks ensures rb in c.routebooks && RoutebookEvolves(a, c, rb) {
      assert RoutebookEvolves(a, b, rb) && RoutebookEvolves(b, c, rb);
    }
    forall r | r in a.runs ensures r in c.runs && RunEvolves(a.runs[r], c.runs[r]) {
      assert RunEvolves(a.runs[r], b.runs[r]) && RunEvolves(b.runs[r], c.runs[r]);
    }
    forall p | p in a.proposals ensures p in c.proposals && ProposalEvolves(a.proposals[p], c.proposals[p]) {
      assert ProposalEvolves(a.proposals[p], b.proposals[p]) && ProposalEvolves(b.proposals[p], c.proposals[p]);
    }
    forall p | p in a.pages ensures p in c.pages && PageEvolves(a.pages[p], c.pages[p]) {
      assert PageEvolves(a.pages[p], b.pages[p]) && PageEvolves(b.pages[p], c.pages[p]);
    }
  }
}
