# Route book backend: verified model

This project models the deterministic core of a travel route book backend and proves what it promises.  Five parts feed
into each other: the requirement conversation says what the traveller wants, recommendations select candidate places, the
planner turns accepted places into a day-by-day itinerary, edits transform the itinerary, and the version protocol commits
every result as an immutable version that can be undone and published.

## Organisation

- **Requirements.** `RequirementData` (the annotated fields), `RequirementMerge` (merging a patch, as a pointwise function
  and as the field-by-field method), `RequirementRules` (what a merge keeps, blocking issues, questions, readiness),
  `RequirementGraph` (the conversation as a state machine and as a fold over distinct messages).
- **Recommendations.** `Recommendations` (recall, filter, grouping, ranking, strict and relaxed pass), `Sorting`.
- **Planner.** `GreedyRoute` and `Optimizer` (nearest-next ordering, bounded 2-opt), `Arranging` and `ArrangingTheorems`
  (distribution over days), `Planner` (routing, validation, repair), `Planning` (preflight and the bounded repair loop),
  `RepairedDays` (what repair leaves of each day), `PlanPersistence` (loading the input, turning a draft into a snapshot),
  `PlanTheorems` and `PlanWellFormed` (end to end).
- **Edits.** `Editing` (references, impact, preview, guard), `Recompute`, `EditPipeline`, `EditShapes`, `EditTheorems`,
  `EditGuarantees`, `EditGuard` (exactly what the guard lets through), `EditPublication`.
- **Versions.** `Database` (the tables and each transaction as a function), `Store` (the services as methods that update the
  tables in place, proved equal to those functions, with rollback), `Invariants`, `Preservation` and `Transactions` (what every
  transaction keeps), `Outcomes` and `Requests` (the in-place transactions on valid tables: they stay valid, nothing is taken back,
  and what the caller may rely on), `Protocol` (the system as a state machine in which a job reads in one step and commits in a
  later one), `Histories`, `ProposalRuns`, `Delivery`, `SharedPages`, `UndoRuns`, `Retries` (theorems over whole runs),
  `Interleaving` (overlapping commits, split into base check, insert and compare-and-set), `StepContents`, `Provenance` and
  `Itineraries` (edits, plans and versions together), `ExampleRun` (a run in which all this occurs).
- **Publication.** `FinalChecks`.
- **Shared.** `Wrappers`, `Sequences`, `TextTools`, `SnapshotData`, `PlannerData`, `Providers`.

An itinerary is *well formed* (`SnapshotData.WF`) when its fact ids are unique, its days are numbered 1..n and share no place,
every scheduled place has a fact, segment i of a day joins its places i and i + 1, and every weather reference of a day is a
fact about one of its places.  Facts that no day refers to are allowed.

## Modelling decisions

- UUIDs are natural numbers whose order is that of their canonical text; new ones are parameters that are required to be fresh.
- The fingerprint of an edit plan and the hash of a day are injective, so the plan (resolution, impact, preview, risks and summary)
  and the day stand for them.
- The payload of a forecast or route fact stands for everything recorded with it, retrieval and observation times included.
- The notes of a snapshot itself (not those of its days) are left out: nothing writes them.
- Distances, scores and coordinates are reals.  A distance is non-negative and symmetric; nothing else is assumed of it.
- Route, weather, search and extraction providers are functions that may also answer nothing.
- An exception undoes the transaction it is raised in (`Database.Settle`, `Store.Session.RollBack`).
- `Version.source` and `Proposal.source` record what the committing job had read.  They only serve to state that no update is lost.
- A run carries the job it was made for.  The steps of `Protocol` commit a run only through its own job; in particular the run
  of a proposal is committed only by accepting that proposal.
- A database transaction is one step of `Protocol`.  `Interleaving` takes commits apart and shows that this is justified:
  each has the effect it would have alone at the moment it ends, as long as its routebook has not been deleted meanwhile.

## Where the code does not do what one would expect

- A stale decision writes the status `expired` and then raises, so the write is rolled back: no proposal is ever stored as
  expired, and it stays pending (`ProposalRuns.AcceptedIffCommitted`, `ProposalRuns.NoRevival`).
- Replacing a place that is on no day, without naming a day, appends the new place to day 1, which is not counted as affected;
  the guard then rejects the edit (`EditGuarantees.ReplaceUnscheduled`).
- The guard compares days only, so adding a place to the day it is already on passes and schedules it twice
  (`EditGuard.AddedTwice`).  `EditGuard.Passes` is the exact condition for passing the guard, `EditTheorems.Applicable` the exact
  condition for a well-formed result (`EditGuard.GuardPassesIff`, `EditGuard.PassedIsWFIffApplicable`), and a run keeps all its
  itineraries well formed exactly as long as it writes applicable edits only (`Itineraries.WellFormedIffApplicable`).  The final
  checks do not notice a place scheduled twice: they ask of the added place only what they ask of any other
  (`EditPublication.GuardedEditStaysPublishable`).
- Each repairable conflict takes one merely accepted place off its day, however few are left, so a feasible plan may contain an
  empty day (`RepairedDays.CrowdedPlanHasEmptyDay`, with an input in `RepairedDays.CrowdedInputExists`); the exact condition is
  `RepairedDays.RepairEmptiesIff` for one round and `RepairedDays.DraftDayEmptyIff` for the whole plan.  Only the first
  arrangement has no empty day.
- An edit request that is sent again is planned anew from the current version and draws new segment ids, so its fingerprint agrees
  with the recorded one only if nothing has changed and no affected day has a leg; otherwise the operation id is refused instead
  of answered (`Retries.RetryIsAnsweredIff`).  The fingerprint also covers the summary, which keeps the user's words, so the
  same edit asked for in other words is refused (`Retries.OtherWordsAreAnotherRequest`).
- A repeated answer is merged as an empty patch, so an ambiguity that had blocked planning no longer does
  (`RequirementGraph.RepetitionForgetsAmbiguity`, `RequirementGraph.AmbiguityIsForgotten`, with a conversation in
  `RequirementGraph.ForgottenAmbiguityExists`).  Such an answer reaches the graph when a resumed answer is redelivered, or sent
  again while its run is still queued; a redelivered first message starts a fresh conversation instead.
- The compare-and-set of a commit is redundant: a commit whose insert went through never fails there (`Interleaving.SwapsNeverFail`).

## Model

| member | source | states |
|---|---|---|
| `Editing.NearestPlaceOrder` | services/api/app/editing/service.py:232-249 | The edit ordering fails exactly where a place has no fact, and otherwise is the shared greedy nearest-next order with the id tie-break (short lists unchanged). |
| `Editing.BuildPreview` | services/api/app/editing/service.py:144-200 | The preview with its in-place mutations equals the preview function: shape of days and places, then invalidated segments, weather and day references; missing day or place is an error. |
| `Recompute.RecomputeDays` | services/api/app/editing/recompute.py:25-138 | Recomputation succeeds exactly when every place it looks up has a fact, and then rebuilds segments and weather of the affected days and keeps everything else. |
| `Recompute.RebuildDays` | services/api/app/editing/recompute.py:48-123 | The loop over days collects updated days, new segments and new weather of affected days only. |
| `EditTheorems.ResolveIsSettled` | services/api/app/editing/service.py:38-79 | A resolved reference names at most one place and at most one day (for a point edit), and that place is on that day if it is on any. |
| `EditTheorems.PlanEdit` | services/api/app/editing/service.py:20-36 | Resolution, impact, preview, recomputation, risks and summary compose to the plan as the edit request composes them, with the recomputation error if a fact is missing. |
| `EditTheorems.ApplicableEditIsDelivered` | services/api/app/editing/recompute.py:25-138 | Soundness: an applicable edit of a well-formed itinerary yields a well-formed itinerary, one segment per consecutive pair on affected days, every other day unchanged. |
| `EditPipeline.RenewedIsWF` | services/api/app/editing/recompute.py:39-138 | Preview plus recomputation of a good reshaping is well formed whatever the route and weather providers answer. |
| `EditPipeline.RenewedKeepsViews` | services/api/app/editing/service.py:202-214 | Frame: outside the affected days a day keeps its record, its segment list and its weather list. |
| `EditGuarantees.DeliveredIffApplicable` | services/api/app/editing/service.py:81-200 | For every well-formed itinerary, resolved intent and provider answers: the result is well formed and passes the guard if and only if there is a day to add to, a replaced place is on a day (or the day is named) and the new place is not yet on any day (or replaces itself). |
| `EditGuard.GuardPassesIff` | services/api/app/editing/service.py:202-214 | The guard alone, on any well-formed itinerary: an edit goes through and passes it if and only if there is a day to work on and no other day's weather list speaks of the incoming place, except where the recomputation restores exactly that fact at its end. |
| `EditGuard.PassedIsWFIffApplicable` | services/api/app/editing/persistence.py:104-107 | Among the edits of a well-formed itinerary that pass the guard, the preview is well formed exactly for the applicable ones. |
| `EditGuard.AddedTwice` | services/api/app/editing/service.py:155-157 | Adding a place to the day it is already on goes through, passes the guard and schedules the place twice. |
| `EditGuarantees.ReplaceUnscheduled` | services/api/app/editing/service.py:157-170 | Replacing a place that is on no day, without naming a day, extends day 1, which is not counted as affected; the guard rejects it. |
| `EditGuarantees.VisitsAfter` | services/api/app/editing/service.py:156-173 | Whatever the itinerary, an operation on places that goes through keeps the number of days and the requirements, and afterwards exactly these places are on some day: those that were, without the removed or replaced one, and the one brought in. |
| `EditGuarantees.UnconfirmedEditIsSafe` | services/api/app/editing/service.py:99-142 | Whatever the itinerary, well formed or not, an edit that needs no confirmation keeps the number of days, unschedules no must-visit place and counts at most one day as affected. |
| `EditPublication.GuardedChangeIsLocal` | services/api/app/editing/service.py:202-214 | For arbitrary previews: whatever passes the guard with at most one affected day changes at most one day. |
| `EditPublication.UnconfirmedEditStaysPublishable` | services/api/app/editing/persistence.py:104-157 | An unconfirmed, applicable edit of a well-formed, publishable itinerary goes through and is publishable again exactly when the place it brings in is neither excluded nor merely proposed. |
| `EditPublication.GuardedEditStaysPublishable` | services/api/app/editing/persistence.py:104-157 | The same for every unconfirmed edit that passes the guard, applicable or not, on any publishable itinerary whose days are numbered 1..n. |
| `GreedyRoute.NearestNext` | services/api/app/planning/optimizer.py:17-26 | The loop over a shrinking list computes the greedy order. |
| `GreedyRoute.GreedyPermutes` | services/api/app/planning/optimizer.py:17-26 | The greedy order is a permutation that keeps the first stop. |
| `GreedyRoute.GreedyIsNearest` | services/api/app/planning/optimizer.py:22-25 | Each stop is nearest to its predecessor among all later stops. |
| `GreedyRoute.GreedyIsIdempotent` | services/api/app/planning/optimizer.py:17-26 | Ordering an ordered route changes nothing. |
| `EditShapes.NearestOrderIsIdempotent` | services/api/app/editing/service.py:232-249 | The edit ordering is settled: ordering an ordered day changes nothing, and each stop is nearest to its predecessor among those to come. |
| `EditShapes.NearestOrderIgnoresOrder` | services/api/app/editing/service.py:237-249 | The edit ordering, or its failure, depends on the first stop and on which stops remain, not on the order in which they are listed. |
| `Optimizer.NearestNeighbor` | services/api/app/planning/optimizer.py:17-26 | The planner's nearest neighbour is the greedy order by distance. |
| `Optimizer.FlipChangesTwoEdges` | services/api/app/planning/optimizer.py:29-42 | Reversing a slice changes the length by its two boundary edges only. |
| `Optimizer.LimitedTwoOpt` | services/api/app/planning/optimizer.py:35-48 | Computes the passes of the reference function: a permutation with the first stop fixed, shorter by more than one metre per accepted move, so fewer moves than metres; if a pass finds nothing, no slice reversal gains more than a metre. |
| `Arranging.Arrange` | services/api/app/planning/service.py:167-208 | Grouping by district, must-visits first, best-fitting day and the rebalancing of empty days, with the lists mutated in place. |
| `ArrangingTheorems.ArrangedPartitions` | services/api/app/planning/service.py:167-208 | The arrangement has exactly the requested number of days and partitions the input. |
| `ArrangingTheorems.ArrangedLeavesNoDayEmpty` | services/api/app/planning/service.py:203-208 | With at least as many places as days no day stays empty (pigeonhole through the rebalancing). |
| `ArrangingTheorems.ArrangedIsBalanced` | services/api/app/planning/service.py:181-208 | No day gets more than the larger of the maximum and the even share rounded up. |
| `Planner.RouteDay` | services/api/app/planning/service.py:220-275 | A routed day visits exactly its stops, starts where they start, is no longer than the nearest-next tour, and has one leg per consecutive pair with the provider's answer or an unverified segment. |
| `Planner.Validate` | services/api/app/planning/service.py:277-367 | Collects the missing must-visits and then the conflicts of each day; there are none exactly when every must-visit is scheduled and every day keeps its limits. |
| `Planner.NoConflictIffWithinLimits` | services/api/app/planning/service.py:277-367 | A day raises no conflict if and only if it keeps the place, activity, transport, segment, district, suburb and category limits. |
| `Planner.NoConflictIffSound` | services/api/app/planning/service.py:277-367 | A plan raises no conflict exactly when every must-visit is scheduled and every day keeps its limits. |
| `Planner.Repair` | services/api/app/planning/service.py:370-381 | One repair round removes accepted places only and accounts for each of them. |
| `RepairedDays.RepairEmptiesIff` | services/api/app/planning/service.py:370-381 | A repair round over any list of conflicts leaves a day empty exactly when all its places are merely accepted and at least as many conflicts name the day as it has places. |
| `RepairedDays.DraftKeepsArrangedDays` | services/api/app/planning/service.py:62-105 | Through all rounds of repair each day of a feasible draft holds places of the same arranged day only, and all of those that are not merely accepted; so it is empty only if its arranged day had none of these. |
| `RepairedDays.DraftDayEmptyIff` | services/api/app/planning/service.py:62-105 | A day of a feasible draft is empty exactly when its arranged day has merely accepted places only and the conflicts of all repaired rounds name it at least as often as it had places. |
| `RepairedDays.CrowdedPlanHasEmptyDay` | services/api/app/planning/service.py:62-105 | For a whole family of plannable inputs the planner answers with a feasible two-day plan whose first day is empty. |
| `RepairedDays.CrowdedInputExists` | services/api/app/planning/service.py:108-164 | There is such an input, and the preflight accepts it. |
| `Planning.PreflightIffPlannable` | services/api/app/planning/service.py:108-164 | The preflight finds nothing exactly when the input is plannable. |
| `Planning.RepairLoop` | services/api/app/planning/service.py:62-105 | The bounded loop computes the rounds of the reference function and terminates; each round strictly shrinks the schedule, scheduled plus dropped places are always the input, and the assertion behind the loop is unreachable. |
| `Planning.Plan` | services/api/app/planning/service.py:49-105 | Computes the preflight, arrangement and repair rounds of the reference function; a feasible result keeps every day's limits, conserves the input up to dropped accepted places and never drops a must-visit; an infeasible one names its conflicts. |
| `PlanPersistence.SelectMatch` | services/api/app/planning/persistence.py:33-55 | An exact name wins over a containing one, and the match is minimal by score, name length and provider id. |
| `PlanPersistence.LoadInput` | services/api/app/planning/persistence.py:60-132 | The planner's input: must-visit texts resolved as far as possible, priorities assigned, one place per selected candidate; an excluded candidate is an error, and only that. |
| `PlanTheorems.CommittedPlanIsPublishable` | services/api/app/planning/persistence.py:144-228 | End to end: a feasible plan on the loaded input, committed, passes every publication check exactly when no scheduled candidate is merely proposed. |
| `PlanWellFormed.CommittedPlanIsWF` | services/api/app/planning/persistence.py:160-215 | Every feasible plan, committed, is a well-formed itinerary (with injective place ids and fresh segment ids). |
| `FinalChecks.NoIssueIffPublishable` | services/api/app/finalization.py:21-92 | No issue is reported if and only if the itinerary is complete, grounded, visits every must-visit, avoids every excluded place and has no proposed fact. |
| `Store.Session.Commit` | services/api/app/services.py:150-221 | The insert under both constraints and the compare-and-set leave exactly the state of the commit function. |
| `Requests.CommitInitial` | services/api/app/services.py:224-236 | On valid tables the first version is empty, follows nothing and becomes current, or the run's earlier version is returned unchanged; valid tables stay valid and nothing is taken back. |
| `Store.Session.SaveRequirements` | services/api/app/worker.py:269-291 | Rebase onto a concurrently created empty version, commit, and roll back on conflict. |
| `Requests.Create` | services/api/app/services.py:72-124 | The answer is on record under the key with its content, routebook and run; only a known key with other content is refused, and a repetition writes nothing. |
| `Store.Session.SavePlan` | services/api/app/planning/persistence.py:135-228 | A feasible plan is committed under its run (or a new one) and a conflict leaves nothing behind. |
| `Requests.SavePlan` | services/api/app/planning/persistence.py:135-228 | A saved plan is current, follows the version it was planned from and is the result of its run; tables stay valid. |
| `Store.Session.SaveEnrichments` | services/api/app/worker.py:547-570 | Enrichments are committed on the run's base version. |
| `Store.Session.Execute` | services/api/app/editing/persistence.py:58-156 | A repeated operation is answered from its record if its whole plan (with risks and summary) is the recorded one, else refused; a new one is guarded, and proposes or commits; a failure rolls back the inserted run. |
| `Requests.Execute` | services/api/app/editing/persistence.py:58-156 | An answered edit is on record with its whole plan; a new one has written its proposal or its version, which it does exactly when it may; tables stay valid. |
| `Store.Session.Decide` | services/api/app/main.py:991-1001 | In its transaction a failed decision leaves the tables as they were, so no expired proposal is ever stored. |
| `Store.Session.Undo` | services/api/app/editing/persistence.py:210-249 | The parent's snapshot becomes a new version on top of the current one. |
| `Requests.Undo` | services/api/app/editing/persistence.py:210-249 | A new undo succeeds exactly with a history of two versions or more, and extends it by one version with the snapshot before the last. |
| `Requests.Finalize` | services/api/app/finalization.py:103-142 | A published page shows the current version, which has no issue, is the only active page of that version and policy, and its link loads that version; a refusal writes nothing. |
| `Requests.Revoke` | services/api/app/finalization.py:145-153 | The page's link is dead afterwards and every other page is what it was. |
| `Requests.Delete` | services/api/app/repositories.py:48-54 | Afterwards the routebook is not live and none of its links loads. |
| `Preservation.CommitSucceedsIff` | services/api/app/services.py:150-221 | In a sound state a commit fails exactly when its run or routebook is missing or its base is stale; a run that has a version gets that version back. |
| `Preservation.NextNumberIsFree` | services/api/app/models.py:133-137 | The next version number is never taken. |
| `Preservation.AppendKeeps` | services/api/app/services.py:171-221 | Appending a version keeps every invariant and takes nothing back. |
| `Requests.SaveRequirements` | services/api/app/services.py:129-147 | Requirements saved after a concurrent empty first version go on top of it and change only the requirements of what the job had read; tables stay valid. |
| `Transactions.DecisionOutcome` | services/api/app/editing/persistence.py:159-207 | A decision takes effect exactly when the proposal is pending, its routebook live and its base current; otherwise the tables stay as they were. |
| `Transactions.UndoOutcome` | services/api/app/editing/persistence.py:210-249 | A fresh undo succeeds exactly when the current version has a parent. |
| `Transactions.ExecuteKeeps` | services/api/app/editing/persistence.py:58-156 | An edit keeps every invariant, whether it commits, proposes or fails. |
| `Transactions.DecideKeeps` | services/api/app/editing/persistence.py:159-207 | A decision keeps every invariant. |
| `Transactions.FinalizeKeeps` | services/api/app/finalization.py:103-142 | Finalizing keeps every invariant, among them one active page per version and policy. |
| `Protocol.StepKeeps` | services/api/app/worker.py:191-291 | Every step of the system, with reads and commits of a job apart, keeps the world sound and takes nothing back. |
| `ExampleRun.RunsEdit` | services/api/app/main.py:895-924 | There is a run in which a routebook is created, its first version committed, an edit of the editor proposed, accepted as a version and undone. |
| `Protocol.NothingTakenBack` | services/api/app/services.py:150-221 | Over any run versions, results, decided proposals, revocations and creation records are never changed or lost. |
| `Histories.HistoryIsUnique` | services/api/app/services.py:182-196 | The chain of parents is the only linear history of a routebook. |
| `Histories.EveryHistoryIsLinear` | services/api/app/models.py:133-137 | In every reachable state the versions of a routebook are numbered 1..n, version k follows version k-1, the current version is version n, and no version has two children. |
| `Histories.HistoriesOnlyGrow` | services/api/app/services.py:150-221 | Histories only grow at the end. |
| `Histories.NoLostUpdate` | services/api/app/worker.py:274-291 | Every committed version was computed from exactly its parent's snapshot and changes it only where its job is meant to; an edit holds the preview of the plan on its record and keeps every day that plan does not count as affected. |
| `Provenance.EveryVersionHasItsOrigin` | services/api/app/main.py:895-924 | In every run of genuine edits and plans, each direct edit and each accepted proposal is the recomputed preview of a valid, resolved intent on its parent's snapshot, each planning version the snapshot of a draft planned from it, each undo its parent's parent. |
| `Histories.StaleJobCommitsNothing` | services/api/app/worker.py:553-566 | A job whose base is no longer current commits nothing, however long it waits. |
| `Interleaving.InterleavedHistoriesAreLinear` | services/api/app/services.py:161-221 | Under any interleaving of base check, insert and compare-and-set of any number of commits, histories stay linear. |
| `Interleaving.CommitsAreAtomic` | services/api/app/services.py:161-221 | In any interleaving a version appears only at the end of its commit, which appends exactly its row. While the routebook is live then, this is the effect of that commit run alone at that moment; if it was deleted after the base check, the row is appended all the same, while the commit run alone would be refused. |
| `Interleaving.SwapsNeverFail` | services/api/app/services.py:185-210 | A commit whose insert went through never fails at its compare-and-set. |
| `ProposalRuns.AcceptedIffCommitted` | services/api/app/editing/persistence.py:188-206 | In every reachable state a proposal is accepted exactly when one version carries its run, following its base and holding its preview; no proposal is ever found expired. |
| `ProposalRuns.DecidedOnce` | services/api/app/editing/persistence.py:168-207 | A proposal leaves pending at most once, and nothing else about it changes. |
| `ProposalRuns.NoRevival` | services/api/app/editing/persistence.py:178-185 | Once the current version has moved past a pending proposal's base, no later state accepts it, and every decision about it is refused without a trace. |
| `ProposalRuns.ExecuteWritesIff` | services/api/app/editing/persistence.py:104-156 | A new operation creates a version or a proposal exactly when its plan is resolved, every unaffected day is kept and, for a direct commit, its base is current; otherwise it writes nothing. |
| `Delivery.RepeatedCreation` | services/api/app/services.py:79-92 | A creation key answers as it did the first time in every later state, and is refused for other content. |
| `Delivery.RepeatedOperation` | services/api/app/editing/persistence.py:75-103 | An operation id answers from its record in every later state exactly for the same plan (resolution, impact, preview, risks and summary) on the same routebook, and is refused otherwise. |
| `Delivery.RepeatedUndo` | services/api/app/editing/persistence.py:211-215 | A repeated undo answers with the result of its operation in every later state, which is the version of the first answer, and changes nothing; another routebook is refused. |
| `Delivery.RepeatedDecision` | services/api/app/editing/persistence.py:168-174 | Repeating a decision returns its first answer, the opposite one is refused, nothing changes. |
| `Delivery.RepeatedCommit` | services/api/app/services.py:161-167 | A run has at most one version ever, its result is written once, and committing again returns it. |
| `Retries.RetryIsAnsweredIff` | services/api/app/editing/persistence.py:74-98 | An edit request sent again in any later state and planned anew from the then current version is answered from its record exactly when summary, risks, resolution, impact and unrecomputed preview are the same, no affected day has a leg and the forecasts are the same; otherwise it is refused. |
| `Retries.OtherWordsAreAnotherRequest` | services/api/app/editing/service.py:251-254 | The same edit of day 1 asked for in other words resolves alike and has the same preview, yet counts as another request, because the summary keeps the user's words. |
| `Retries.RecomputedSameIff` | services/api/app/editing/recompute.py:25-138 | Two recomputations with unrelated segment ids agree exactly when they start from the same preview, recompute no leg and hear the same forecasts. |
| `SharedPages.SharedPageIsPinned` | services/api/app/finalization.py:103-179 | From publication until revocation or deletion, over any later edits, undos and plans, a link shows the same validated snapshot. |
| `SharedPages.GoneForGood` | services/api/app/finalization.py:145-163 | A link that has stopped working never works again. |
| `SharedPages.OneActivePage` | services/api/app/repositories.py:124-134 | At most one active page per version and policy in every reachable state. |
| `SharedPages.RedactionKeepsTheRest` | services/api/app/finalization.py:164-170 | Redaction blanks addresses and nothing else; what is shown passes the same final checks and is well formed exactly when the version is. |
| `UndoRuns.UndosAlternate` | services/api/app/editing/persistence.py:210-249 | From n >= 2 versions, k fresh undos append k versions, alter none, and leave the snapshot of version n current when k is even and that of version n-1 when k is odd. |
| `Itineraries.WellFormedIffApplicable` | services/api/app/main.py:895-924 | In every run of edits, plans, requirement changes, enrichments, decisions and undos, all versions and proposed previews are well-formed itineraries if and only if every edit that wrote was applicable to what its job had read. |
| `Itineraries.EditWritesIff` | services/api/app/editing/persistence.py:104-156 | While itineraries are well formed, a new edit planned by the editor writes exactly when it meets the guard's condition and, for a direct commit, is not outdated. |
| `Itineraries.DirectEditsAreSmall` | services/api/app/editing/service.py:99-142 | In every run, whether or not its itineraries are well formed, whatever is committed without asking for confirmation keeps the number of days, the requirements and the scheduled must-visits of its parent and changes at most one day. |
| `Itineraries.AlwaysNumbered` | services/api/app/editing/service.py:172-178 | In every run, whatever edits are made, every version and every proposed preview numbers its days 1..n. |
| `Itineraries.DirectEditsStayPublishable` | services/api/app/editing/persistence.py:104-157 | In every run, a version committed without asking for confirmation on a publishable one is publishable exactly when the place its edit brings in is neither excluded nor merely proposed. |
| `RequirementMerge.NormalizeList` | services/api/app/requirements/service.py:376-388 | The loop with its set of seen texts computes the normalized list. |
| `RequirementMerge.NormalizedIsTidy` | services/api/app/requirements/service.py:376-388 | Normalizing keeps exactly the non-blank cleaned texts, without duplicates. |
| `RequirementMerge.CombinedMembers` | services/api/app/requirements/service.py:391-399 | Replace, append and remove act as set operations, and append keeps the existing order. |
| `RequirementMerge.CombinedIsTidy` | services/api/app/requirements/service.py:391-399 | List operations keep lists clean and duplicate-free. |
| `RequirementMerge.MergePatch` | services/api/app/requirements/service.py:71-165 | The field-by-field mutation (patch, ambiguities, defaults, derivations) computes the pointwise merge and its conflicts. |
| `RequirementRules.MergeIsFixpoint` | services/api/app/requirements/service.py:64-165 | After any merge the snapshot is a fixpoint of the empty patch. |
| `RequirementRules.ExplicitStays` | services/api/app/requirements/service.py:93-106 | An explicit value survives every patch that does not state the field explicitly; an ambiguity only marks it. |
| `RequirementRules.ExplicitWins` | services/api/app/requirements/service.py:107-121 | An explicit patch value holds afterwards, confirmed. |
| `RequirementRules.PlacesAreNeverInferred` | services/api/app/requirements/service.py:82-92 | Place-text fields never come from inference. |
| `RequirementRules.ListsStayTidy` | services/api/app/requirements/service.py:107-111 | List values stay clean and duplicate-free. |
| `RequirementRules.MergeIsTyped` | services/api/app/requirements/service.py:166-166 | A merged snapshot validates again. |
| `RequirementRules.ApplyPatch` | services/api/app/requirements/service.py:64-184 | Snapshot, conflicts, issues, questions and readiness of one merge. |
| `RequirementRules.NoIssueIffComplete` | services/api/app/requirements/service.py:186-255 | Nothing blocks planning exactly when the requirements are complete, understood and unambiguous. |
| `RequirementRules.ReadyIff` | services/api/app/requirements/service.py:166-184 | A merge is ready exactly when the snapshot is complete, extraction succeeded and the patch has no ambiguity; refused values alone never block. |
| `RequirementRules.QuestionsAreMostPressing` | services/api/app/requirements/service.py:262-275 | At most three questions: the most pressing issues, ties in order of appearance. |
| `RequirementGraph.ConversationIsFold` | services/api/app/requirements/graph.py:65-132 | Whatever messages arrive, repeated or not, the snapshot is the fold of the merges of the first occurrence of each message id. |
| `RequirementGraph.ConversationKeeps` | services/api/app/requirements/graph.py:65-109 | Along every conversation place texts are never inferred, lists stay tidy and the snapshot validates. |
| `RequirementGraph.ExplicitChangesOnlyExplicitly` | services/api/app/requirements/graph.py:91-109 | Along a conversation, from its first message on, an explicit value changes only in a new message that restates it explicitly. |
| `RequirementGraph.ReadyAfter` | services/api/app/requirements/graph.py:111-132 | Every conversation, of one message or more, ends exactly when the snapshot is complete and, for a new message, understood and unambiguous. |
| `RequirementGraph.RepetitionForgetsAmbiguity` | services/api/app/requirements/graph.py:65-67 | A repeated message leaves the snapshot alone, but an ambiguity that blocked planning is forgotten. |
| `RequirementGraph.AmbiguityIsForgotten` | services/api/app/requirements/graph.py:65-67 | A message that completed the snapshot but was ambiguous blocks planning, and sent again no longer does. |
| `RequirementGraph.ForgottenAmbiguityExists` | services/api/app/services.py:371-382 | There is such a conversation: a first message and an answer to it each leave a theme open, and the conversation goes on; the same answer delivered again ends it. |
| `Recommendations.GroupedGroups` | services/api/app/recommendations/service.py:50-70 | One group per surviving place, each represented by a surviving candidate. |
| `Recommendations.Recommend` | services/api/app/recommendations/service.py:26-151 | The whole recommendation: errors for a bad limit or an empty recall, otherwise the picks of the two passes and the metrics. |
| `Recommendations.PicksAreRecommended` | services/api/app/recommendations/service.py:50-140 | Exactly min(limit, distinct surviving candidates) picks, none repeated, filtered or rejected. |
| `Recommendations.StrictIsGreedy` | services/api/app/recommendations/service.py:113-127 | The strict pass picks a place exactly when, counting the picks ranked above it, the limit is not reached and neither its category nor its district is full. |
| `Recommendations.CapsAreRespected` | services/api/app/recommendations/service.py:118-121 | The strict picks keep both caps. |
| `Recommendations.RelaxedOnlyBelowLimit` | services/api/app/recommendations/service.py:130-140 | Relaxed picks occur only when the strict pass ended below the limit, and are the best-ranked places left. |
| `Sorting.SortIsStable` | services/api/app/recommendations/service.py:80-80 | The ranking is a stable sort: a permutation, ordered, with ties as they stood. |

## Left out

- Interleaving.CommitsAreAtomic: only commits are taken apart; the other transactions are single steps that change no row and no key
  a commit under way has locked or inserted.
- Protocol.StepKeeps: resuming a requirement conversation on the run of an edit proposal is excluded, because the code does not check
  the type of an interrupted run there.
- Provenance.EveryVersionHasItsOrigin: takes every edit and plan of a run to be what the editor and the planner compute; the wording
  of the user's request and its extraction are not part of it.
- Planner.RouteDay: distances are reals, without the rounding of floating-point numbers.
- Recommendations.Recommend: the score of a place is a parameter; quality scoring, preference weights, reasons and trade-offs are not modelled.
- RequirementRules.ApplyPatch: questions are the issues asked about.
- RequirementRules.QuestionsAreMostPressing: which issues are asked about and in which order, not the wording, options and
  recommended answers of a question.
- The checks that refuse a second planning or enrichment run while one is active, and an enrichment of an itinerary without days:
  the model queues runs without them and so has more behaviours than the code.
- Wording of clarifications, conflicts and weather notes; the suggestion reasons of defaults are one constant.
- Weather classification: the categories it favours and the notes it writes on a day are parameters.
- Workflow status, stage and progress: a progress message overwrites them unconditionally, so run ids and version pointers carry the protocol.
- Conversation messages, model call records and the idempotency of messages themselves: only the runs they start are modelled.
- The thread pools of the planner and of the weather fetcher, which only map a function over the days in order.
- The second, simpler proposal service in `services.py`, which the edit code does not call.
- HTTP routing, job queues, caches, the event stream, provider adapters, language models and the web client.
