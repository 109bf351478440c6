/** The tables of the version protocol, and each of its transactions as a function on them. */
module Database {
  import opened Wrappers
  import opened RequirementData
  import opened SnapshotData
  import opened Editing
  import opened FinalChecks
  import PlannerData
  import PlanPersistence

  datatype Failure =
    | NotFound | VersionConflict | IdempotencyConflict | StateConflict | DuplicateToken
    | NotPublishable(issues: seq<Issue>)

  datatype Routebook = Routebook(current: Option<Id>, latestFinal: Option<Id>, deleted: bool)

  /** The job a workflow run was made for. */
  datatype RunKind = Creating | Refining | Planning | Enriching | Operating

  datatype Run = Run(kind: RunKind, routebook: Id, base: Option<Id>, result: Option<Id>, proposal: Option<Id>)

  /** `source_user_message`; the fingerprint hash is injective, so the plan stands for it. */
  datatype Message = NoMessage | UserText(text: string) | Fingerprint(plan: EditPlan)

  datatype ChangeType = Created | Changed | Undone

  /**
   * An immutable version.  `source` is a history variable: the snapshot that the committing job had read
   * when it computed `snapshot`.
   */
  datatype Version = Version(
    routebook: Id, number: nat, parent: Option<Id>, snapshot: Snapshot,
    change: ChangeType, message: Message, run: Id, source: Snapshot)

  datatype ProposalStatus = Pending | Accepted | Rejected | Expired

  datatype Proposal = Proposal(
    routebook: Id, base: Id, run: Id, preview: Snapshot, plan: EditPlan, status: ProposalStatus, source: Snapshot)

  datatype Page = Page(routebook: Id, version: Id, token: string, policy: string, revoked: bool)

  datatype Creation = Creation(hash: string, routebook: Id, run: Id)

  /** The tables; `versionOf`, `numbered` and `pageOf` are the indexes of their unique constraints. */
  datatype Db = Db(
    routebooks: map<Id, Routebook>, runs: map<Id, Run>, versions: map<Id, Version>,
    versionOf: map<Id, Id>, numbered: map<(Id, nat), Id>,
    proposals: map<Id, Proposal>, pages: map<Id, Page>, pageOf: map<string, Id>, creations: map<string, Creation>)

  const EMPTY_DB := Db(map[], map[], map[], map[], map[], map[], map[], map[], map[])

  /** What a transaction leaves in its session, and what it returns or raises. */
  datatype Outcome<T> = Outcome(db: Db, result: Result<T, Failure>)

  /** `session.begin()`: an exception undoes everything the session wrote. */
  function Settle<T>(before: Db, outcome: Outcome<T>): Outcome<T> {
    if outcome.result.Ok? then outcome else Outcome(before, outcome.result)
  }

  predicate Live(db: Db, rb: Id) {
    rb in db.routebooks && !db.routebooks[rb].deleted
  }

  // ---- reading --------------------------------------------------------------------------------

  /** `load_current`. */
  function LoadCurrent(db: Db, rb: Id): Result<(Id, Snapshot), Failure> {
    if !Live(db, rb) then Err(NotFound)
    else match db.routebooks[rb].current
      case None => Err(StateConflict)
      case Some(v) => if v in db.versions then Ok((v, db.versions[v].snapshot)) else Err(NotFound)
  }

  /** The snapshot of a base version; a missing base counts as the empty snapshot. */
  function SnapshotAt(db: Db, base: Option<Id>): Snapshot {
    if base.Some? && base.value in db.versions then db.versions[base.value].snapshot else EMPTY_SNAPSHOT
  }

  // ---- VersionService -------------------------------------------------------------------------

  /** The arguments of `VersionService.commit`, with what the content was computed from. */
  datatype Change = Change(
    routebook: Id, run: Id, base: Option<Id>, snapshot: Snapshot, source: Snapshot, kind: ChangeType, message: Message)

  function NextNumber(db: Db, base: Option<Id>): nat {
    if base.Some? && base.value in db.versions then db.versions[base.value].number + 1 else 1
  }

  function NewVersion(c: Change, number: nat): Version {
    Version(c.routebook, number, c.base, c.snapshot, c.kind, c.message, c.run, c.source)
  }

  /** Insert under both unique constraints. */
  function Insert(db: Db, c: Change, number: nat, id: Id): Db {
    db.(versions := db.versions[id := NewVersion(c, number)],
        versionOf := db.versionOf[c.run := id],
        numbered := db.numbered[(c.routebook, number) := id])
  }

  function Advance(db: Db, rb: Id, id: Id): Db
    requires rb in db.routebooks
  {
    db.(routebooks := db.routebooks[rb := db.routebooks[rb].(current := Some(id))])
  }

  function SetResult(db: Db, run: Id, id: Id): Db
    requires run in db.runs
  {
    db.(runs := db.runs[run := db.runs[run].(result := Some(id))])
  }

  /** Everything a successful commit writes. */
  function Append(db: Db, c: Change, id: Id): Db
    requires c.routebook in db.routebooks && c.run in db.runs
  {
    SetResult(Advance(Insert(db, c, NextNumber(db, c.base), id), c.routebook, id), c.run, id)
  }

  /** `VersionService.commit`, run alone; `id` is the fresh version id. */
  function Commit(db: Db, c: Change, id: Id): Outcome<Id> {
    if c.run !in db.runs then Outcome(db, Err(NotFound))
    else if c.run in db.versionOf then Outcome(db, Ok(db.versionOf[c.run]))
    else if !Live(db, c.routebook) then Outcome(db, Err(NotFound))
    else if db.routebooks[c.routebook].current != c.base then Outcome(db, Err(VersionConflict))
    else if (c.routebook, NextNumber(db, c.base)) in db.numbered then Outcome(db, Err(VersionConflict))
    else Outcome(Append(db, c, id), Ok(id))
  }

  /** `commit_initial`. */
  function CommitInitial(db: Db, run: Id, id: Id): Outcome<Id> {
    if run !in db.runs then Outcome(db, Err(NotFound))
    else
      var base := db.runs[run].base;
      Commit(db, Change(db.runs[run].routebook, run, base, EMPTY_SNAPSHOT, SnapshotAt(db, base), Created, NoMessage),
             id)
  }

  /** `resolve_requirement_base`. */
  function RequirementBase(db: Db, rb: Id, base: Option<Id>): Result<Option<Id>, Failure> {
    if !Live(db, rb) then Err(NotFound)
    else
      var current := db.routebooks[rb].current;
      if current == base then Ok(base)
      else if base.None? && current.Some? && current.value in db.versions
              && db.versions[current.value].snapshot == EMPTY_SNAPSHOT then Ok(current)
      else Err(VersionConflict)
  }

  /** The commit of the requirement job, over the snapshot `seen` it had read from `base`. */
  function SaveRequirements(
    db: Db, rb: Id, run: Id, base: Option<Id>, seen: Snapshot,
    requirements: Requirements, text: string, id: Id): Outcome<Id>
  {
    match RequirementBase(db, rb, base)
    case Err(e) => Outcome(db, Err(e))
    case Ok(resolved) =>
      Commit(db, Change(rb, run, resolved, seen.(requirements := requirements), seen,
                        if resolved.Some? then Changed else Created, UserText(text)), id)
  }

  // ---- creation and runs ----------------------------------------------------------------------

  datatype CreationReply = CreationReply(routebook: Id, run: Id, reused: bool)

  /** `RouteBookService.create`; `rb` and `run` are fresh. */
  function Create(db: Db, key: string, hash: string, rb: Id, run: Id): Outcome<CreationReply> {
    if key in db.creations then
      var existing := db.creations[key];
      if existing.hash != hash then Outcome(db, Err(IdempotencyConflict))
      else Outcome(db, Ok(CreationReply(existing.routebook, existing.run, true)))
    else
      Outcome(db.(routebooks := db.routebooks[rb := Routebook(None, None, false)],
                  runs := db.runs[run := Run(Creating, rb, None, None, None)],
                  creations := db.creations[key := Creation(hash, rb, run)]),
              Ok(CreationReply(rb, run, false)))
  }

  function AddRun(db: Db, run: Id, row: Run): Db {
    db.(runs := db.runs[run := row])
  }

  /** A message, a planning request or an enrichment request queues a run on the current version. */
  function Queue(db: Db, rb: Id, kind: RunKind, run: Id): Outcome<Id> {
    if !Live(db, rb) then Outcome(db, Err(NotFound))
    else if kind != Refining && db.routebooks[rb].current.None? then Outcome(db, Err(StateConflict))
    else Outcome(AddRun(db, run, Run(kind, rb, db.routebooks[rb].current, None, None)), Ok(run))
  }

  /** After a plan its enrichment run is queued on the planned version, whether or not that is still current. */
  function QueueEnrichment(db: Db, version: Id, run: Id): Outcome<Id> {
    if version !in db.versions then Outcome(db, Err(NotFound))
    else Outcome(AddRun(db, run, Run(Enriching, db.versions[version].routebook, Some(version), None, None)), Ok(run))
  }

  // ---- planning and enrichment ----------------------------------------------------------------

  /**
   * `PlanningPersistenceService.commit`: `base` is what planning started from, `seen` the snapshot it had read
   * and `loaded` that snapshot with its must-visits resolved.  A run that does not exist is replaced by `spare`.
   */
  function SavePlan(
    db: Db, rb: Id, run: Id, base: Id, seen: Snapshot, loaded: Snapshot, result: PlannerData.PlanningResult,
    spare: Id, id: Id): Outcome<Id>
  {
    if !result.feasible || result.draft.None? then Outcome(db, Err(StateConflict))
    else if !Live(db, rb) then Outcome(db, Err(NotFound))
    else
      var row := if run in db.runs then run else spare;
      var db' := if run in db.runs then db else AddRun(db, spare, Run(Planning, rb, Some(base), None, None));
      var committed := Commit(db',
                              Change(rb, row, Some(base), PlanPersistence.PlanSnapshot(loaded, result.draft.value),
                                     seen, Changed, NoMessage), id);
      if committed.result.Err? || row !in committed.db.runs then committed
      else Outcome(SetResult(committed.db, row, committed.result.value), committed.result)
  }

  /** The last transaction of the enrichment job, over the snapshot it had read from the run's base. */
  function SaveEnrichments(
    db: Db, rb: Id, run: Id, seen: Snapshot, enrichments: seq<Enrichment>, id: Id): Outcome<Option<Id>>
  {
    if run !in db.runs || enrichments == [] then Outcome(db, Ok(None))
    else
      var committed := Commit(db, Change(rb, run, db.runs[run].base, seen.(enrichments := enrichments), seen,
                                         Changed, NoMessage), id);
      match committed.result
      case Err(e) => Outcome(committed.db, Err(e))
      case Ok(v) => Outcome(committed.db, Ok(Some(v)))
  }

  // ---- editing --------------------------------------------------------------------------------

  datatype EditReply = EditReply(proposal: Option<Id>, version: Option<Id>, reused: bool)

  /** What an earlier use of an operation id stored as its fingerprint. */
  function StoredFingerprint(db: Db, run: Run): Message {
    if run.proposal.Some? && run.proposal.value in db.proposals then
      Fingerprint(db.proposals[run.proposal.value].plan)
    else if run.result.Some? && run.result.value in db.versions then
      db.versions[run.result.value].message
    else NoMessage
  }

  function AttachProposal(db: Db, p: Proposal, id: Id): Db
    requires p.run in db.runs
  {
    db.(proposals := db.proposals[id := p],
        runs := db.runs[p.run := db.runs[p.run].(proposal := Some(id))])
  }

  /** `EditingPersistenceService.execute`; `proposal` and `id` are fresh ids. */
  function Execute(
    db: Db, rb: Id, base: Id, seen: Snapshot, plan: EditPlan, operation: Id, proposal: Id, id: Id): Outcome<EditReply>
  {
    if !plan.resolution.resolved || plan.preview.None? then Outcome(db, Err(StateConflict))
    else if operation in db.runs then
      var run := db.runs[operation];
      if run.routebook != rb || StoredFingerprint(db, run) != Fingerprint(plan) then
        Outcome(db, Err(IdempotencyConflict))
      else Outcome(db, Ok(EditReply(run.proposal, run.result, true)))
    else if !DaysUnchanged(seen, plan.preview.value, plan.impact.days) then Outcome(db, Err(StateConflict))
    else
      var started := AddRun(db, operation, Run(Operating, rb, Some(base), None, None));
      if plan.impact.confirm then
        Outcome(AttachProposal(started, Proposal(rb, base, operation, plan.preview.value, plan, Pending, seen),
                               proposal), Ok(EditReply(Some(proposal), None, false)))
      else
        var committed := Commit(started, Change(rb, operation, Some(base), plan.preview.value, seen, Changed,
            Fingerprint(plan)), id);
        match committed.result
        case Err(e) => Outcome(committed.db, Err(e))
        case Ok(v) => Outcome(committed.db, Ok(EditReply(None, Some(v), false)))
  }

  function SetStatus(db: Db, proposal: Id, status: ProposalStatus): Db
    requires proposal in db.proposals
  {
    db.(proposals := db.proposals[proposal := db.proposals[proposal].(status := status)])
  }

  /** `resolve_proposal`: a stale proposal is first marked as expired, and then the conflict is raised. */
  function ResolveProposal(db: Db, proposal: Id, accept: bool, id: Id): Outcome<EditReply> {
    if proposal !in db.proposals || db.proposals[proposal].run !in db.runs then Outcome(db, Err(NotFound))
    else
      var p := db.proposals[proposal];
      if p.status != Pending then
        if p.status == (if accept then Accepted else Rejected) then
          Outcome(db, Ok(EditReply(Some(proposal), db.runs[p.run].result, true)))
        else Outcome(db, Err(StateConflict))
      else if !Live(db, p.routebook) then Outcome(db, Err(NotFound))
      else if db.routebooks[p.routebook].current != Some(p.base) then
        Outcome(SetStatus(db, proposal, Expired), Err(VersionConflict))
      else if !accept then
        Outcome(SetStatus(db, proposal, Rejected), Ok(EditReply(Some(proposal), None, false)))
      else
        var committed := Commit(db, Change(p.routebook, p.run, Some(p.base), p.preview, p.source, Changed, NoMessage),
                                id);
        match committed.result
        case Err(e) => Outcome(committed.db, Err(e))
        case Ok(v) =>
          if proposal !in committed.db.proposals then Outcome(committed.db, Err(NotFound))
          else Outcome(SetStatus(committed.db, proposal, Accepted), Ok(EditReply(Some(proposal), Some(v), false)))
  }

  /** `undo`: the current version's parent becomes the content of a new version. */
  function Undo(db: Db, rb: Id, operation: Id, id: Id): Outcome<EditReply> {
    if operation in db.runs then
      if db.runs[operation].routebook != rb then Outcome(db, Err(IdempotencyConflict))
      else Outcome(db, Ok(EditReply(None, db.runs[operation].result, true)))
    else if !Live(db, rb) then Outcome(db, Err(NotFound))
    else
      var current := db.routebooks[rb].current;
      if current.None? || current.value !in db.versions || db.versions[current.value].parent.None? then
        Outcome(db, Err(StateConflict))
      else
        var parent := db.versions[current.value].parent.value;
        if parent !in db.versions then Outcome(db, Err(NotFound))
        else
          var started := AddRun(db, operation, Run(Operating, rb, current, None, None));
          var committed := Commit(started, Change(rb, operation, current, db.versions[parent].snapshot,
                                                  db.versions[current.value].snapshot, Undone, NoMessage), id);
          match committed.result
          case Err(e) => Outcome(committed.db, Err(e))
          case Ok(v) => Outcome(committed.db, Ok(EditReply(None, Some(v), false)))
  }

  // ---- finalization ---------------------------------------------------------------------------

  predicate ActiveFor(page: Page, rb: Id, version: Id, policy: string) {
    page.routebook == rb && page.version == version && page.policy == policy && !page.revoked
  }

  predicate HasActivePage(db: Db, rb: Id, version: Id, policy: string) {
    exists page :: page in db.pages && ActiveFor(db.pages[page], rb, version, policy)
  }

  /** `finalize`; the token is random and `page` fresh. */
  function Finalize(db: Db, rb: Id, version: Id, policy: string, token: string, page: Id): Outcome<Id> {
    if !Live(db, rb) || version !in db.versions || db.versions[version].routebook != rb then Outcome(db, Err(NotFound))
    else if db.routebooks[rb].current != Some(version) then Outcome(db, Err(VersionConflict))
    else
      var issues := ValidateFinal(db.versions[version].snapshot);
      if issues != [] then Outcome(db, Err(NotPublishable(issues)))
      else if HasActivePage(db, rb, version, policy) then Outcome(db, Err(VersionConflict))
      else if token in db.pageOf then Outcome(db, Err(DuplicateToken))
      else
        Outcome(db.(pages := db.pages[page := Page(rb, version, token, policy, false)],
                    pageOf := db.pageOf[token := page],
                    routebooks := db.routebooks[rb := db.routebooks[rb].(latestFinal := Some(version))]),
                Ok(page))
  }

  /** `revoke`. */
  function Revoke(db: Db, rb: Id, page: Id): Outcome<Id> {
    if !Live(db, rb) || page !in db.pages || db.pages[page].routebook != rb then Outcome(db, Err(NotFound))
    else Outcome(db.(pages := db.pages[page := db.pages[page].(revoked := true)]), Ok(page))
  }

  /** `soft_delete`, and the 404 of its route. */
  function Delete(db: Db, rb: Id): Outcome<Id> {
    if !Live(db, rb) then Outcome(db, Err(NotFound))
    else Outcome(db.(routebooks := db.routebooks[rb := db.routebooks[rb].(deleted := true)]), Ok(rb))
  }

  datatype Shared = Shared(routebook: Id, version: Id, number: nat, snapshot: Snapshot, policy: string)

  function Redacted(places: seq<Place>): (r: seq<Place>)
    ensures |r| == |places|
    ensures forall i :: 0 <= i < |places| ==> r[i] == places[i].(address := "")
  {
    if places == [] then [] else [places[0].(address := "")] + Redacted(places[1..])
  }

  function ShownUnder(policy: string, s: Snapshot): Snapshot {
    if policy == "redact_addresses" then s.(places := Redacted(s.places)) else s
  }

  /** `load_shared`. */
  function LoadShared(db: Db, token: string): Result<Shared, Failure> {
    if token !in db.pageOf || db.pageOf[token] !in db.pages || db.pages[db.pageOf[token]].revoked then Err(NotFound)
    else
      var page := db.pages[db.pageOf[token]];
      if !Live(db, page.routebook) || page.version !in db.versions then Err(NotFound)
      else
        var v := db.versions[page.version];
        Ok(Shared(page.routebook, page.version, v.number, ShownUnder(page.policy, v.snapshot), page.policy))
  }
}
