# Situation Studio: a verified model

Situation Studio is an editor for published leadership situations. An editor
checks a situation out, saves revisions of a draft, has an AI worker review a
revision, accepts its suggestions, and asks for publication. A publisher process
then builds a sealed release, moves the official pointer of the separate
Leadership database to it, verifies the running application, and either finalises
the job in Studio or moves the pointer back. This project models that behaviour
in Dafny 4.11 and proves what it is for. `dafny verify dfyconfig.toml` checks
everything.

## How the project is laid out

**Publication protocol.** `PublicationProtocol` is a step relation over the Studio
job rows, the Leadership pointer and its generation, the releases, one open
pointer-moving transaction, any number of workers with their program counters and
the four local flags, and the recovery reconcilers. Crashes, exceptions, expired
leases and lost COMMIT replies are steps. `PublicationRows` proves what the job rows
keep in every run, or need the clocks alone for; `PublicationInvariant` and
`PublicationSteps` hold the inductive invariant of granted runs, `PublicationTheorems`
the results, `PublicationOutcomes` how an undisturbed attempt ends from every state that
a granted run can reach, `PublicationCounterexamples` one concrete run for each grant
that shows the pointer needs it, and one for exclusion and the clocks; runs are put
together with `PublicationRuns`. `PublisherStore` is the
imperative form: a class whose methods update the rows and are tied to the step
relation. The two stored functions of Leadership are atomic compare-and-swaps on
(pointer, generation) that raise the generation.

What is proved of the pointer rests on three explicit grants (`PublicationProtocol.Granted`):
a COMMIT takes effect only within the lease that `beforeCommit` took; a reconciling
read happens when no COMMIT of that job can still take effect; and the lines between
the reload of a reclaimed PROMOTING or VERIFYING job and its reconciliation do not
throw while the claim is held. Foreign pointer moves do not happen. A claim reads two
clocks, and a lease between them can put two jobs in flight; the pointer is safe all the
same, because the unique index on PROMOTING and VERIFYING rows stops the second one
(`PublicationProtocol.SlotFree`). Global exclusion needs that no lease lies there
(`PublicationRows.ClockRun`), and nothing else; terminal states, stale tokens, the
reconciliation guard, the single pointer transaction and the separation of finalised
from restored jobs need no grant at all. The history variable `exposed` holds the jobs
that stand between the official pointer and the last success.

**Reconciliation guard.** `ReleaseObservation` runs the capture, the read and the
import of the official release against the publication protocol.

**Editorial workflow.** `Workflow` holds every transaction on checkouts, fences,
drafts, revisions, reviews, proposals and publication requests as one atomic step;
`WorkflowInvariant`, `WorkflowSteps` and `WorkflowTheorems` prove what all runs
keep, `WorkflowEffects` when each transaction is accepted, which refusal comes first and
everything that it changes; `WorkflowStore` is the imperative form.

**Review worker.** `ReviewChain` is one review job with its four stages, claims,
retries, repair, cancellation and manual retry, crashes, lost replies and processes
that wake up late; `ReviewChainProofs`, `ReviewChainTheorems` and `ReviewWorkerStore`
follow the same pattern, and `ReviewOutcomes` says when a review can still succeed and
by which steps. The bounds on runs and repairs hold in every run. The order
of the steps needs a grant (`ReviewChainProofs.Granted`): when a statement after
recordSuccess throws, it has changed no step, and no late process has made the next
stage READY; and no late process writes what it has read after its predecessor was
taken back. The workflow runs these chains for all reviews at once.

**Texts and candidates.** `Text`, `SituationText` and `SectionTargets` model section
parsing, printing and targets, `TargetKeys` the keys of targets, `NamedBlocks` the laws of named blocks and
`HiddenHeadings` heading lines behind indentation, `OtherTargets` what a write leaves of
the other targets of its section; `Candidate` the two folds that apply
suggestions (the review worker's and the editor's), `CandidateReplay`,
`ReplayConditions` and `ReplayCounterexample` exactly when they agree,
`CandidateProofs` what the first conserves, `CandidateEffects` what a kept or accepted
change does, and `AuditGate` the audit that a proposal
must pass.

**Smaller cores.** `Ordering`, `CanonicalJson`, `JsonReader`, `BundleHash`,
`Placeholders`, `LoginThrottle`.

**Status pages.** `PublicationStatus` and `ReviewStatus` are the projections and the
rules of the two pages; `PublicationHistory` adds the event log to the publication
protocol, `PublicationHistoryProofs` and `PublicationHistoryTheorems` prove what the
page shows over whole runs; `ReviewStatusProofs` and `ReviewStatusTheorems` do the
same for reviews.

## What turned out false, and exactly when it holds

- A claim reads two clocks. A lease between them makes a job neither owned nor
  eligible, and a second job can start: `PublicationRows.ClaimExclusionExact`,
  `PublicationCounterexamples.LeaseInGapBreaksExclusion`. It cannot become PROMOTING
  beside a PROMOTING or VERIFYING one, and pointer safety holds:
  `PublicationRows.OnePointerTransaction`, `PublicationTheorems.PointerSafety`.
- A reconciling read is sound exactly when no COMMIT of the job can still take effect,
  and a COMMIT leaves the pointer accounted for exactly when its job has not been
  closed: `PublicationTheorems.EarlyReadExact`, `LateCommitExact`.
- An exception right after the reload of a reclaimed job closes it as FAILED without
  reading the pointer. That is safe exactly when the candidate is not official:
  `PublicationTheorems.ReclaimThrowExact`. It is also a way to take a completed
  stage back on the status page: `PublicationHistoryTheorems.StageLossExact`,
  `ReclaimThrowTakesStageBack`.
- An indented `## X` as the first line of a section becomes a heading once the section
  is trimmed, so `parse(serialize(s)) = s` fails for it: `SituationText.RoundTripExact`,
  `IndentedHeadingIsLost`.
- A subheading is read back after a write, and a second write decides, exactly when its
  heading has a title; a blank one disappears with the space behind it:
  `SectionTargets.ReadAfterWriteExact`, `WriteTwiceExact`, `BlankTitleIsLost`.
- A named block is read back exactly when the replacement is one block quote whose label
  stands nowhere else in what is written: `NamedBlocks.BlockReadExact`.
- A write does not always leave the other targets of its section readable: it removes the
  space around what it replaces, and a line that was indented, or that ended in a line
  separator, can become a second heading or label. A target that is not inside the
  replaced lines is found again exactly when none is uncovered:
  `OtherTargets.OtherTargetExact`.
- Accepting all suggestions does not always give the audited candidate. Writing a named
  block removes the indentation of the text behind it, and an indented `## X` there
  becomes a heading: the candidate loses what follows, the accepted revision keeps it.
  The replay gives the candidate exactly when the last section that is written gets no
  heading line, from its replacement or from the text behind its target:
  `ReplayConditions.OneWriteExact`, `LastWriteDecides`,
  `SectionTargets.WrittenHeadingsExact`, `ReplayCounterexample.NamedBlockBreaksReplay`.
- Normalising a section replacement twice is not normalising it once:
  `CandidateReplay.NormalizationIsNotIdempotent`, `NormalizeStoredExact`.
- A crash between `recordSuccess` and `readyDependents` leaves no step to resume. No later
  claim can go on, and a manual retry after the deadline does nothing:
  `ReviewOutcomes.ClaimedSucceeds`, `ReviewChainTheorems.DeadlineRetryExact`. A process that lost its claim can read in
  `readyDependents` that a stage may start and write so when the stage before it has been
  taken back; the order of the steps is kept exactly when it has not: `LateWriteExact`,
  `StaleReadBreaksShape`. A lost reply of `scheduleCandidateRepair` or `readyDependents`
  breaks it too; it is kept exactly when the statement that threw has changed nothing:
  `LateDependentsBreakShape`, `LostReplyBreaksShape`, `RecordThrowExact`.
- A stage whose hundred-and-first run has to be shown makes the snapshot of the review
  page invalid, and nothing else does: `ReviewStatusTheorems.AcceptedExact`,
  `HundredLossesHideThePage`.
- Two fence tests are not enough for the reconciliation guard; the number of rows is
  needed: `ReleaseObservation.CountIsNeeded`.

## Where the documentation and the code differ

The model follows the code.

- docs/architecture.md:137-138 says that a terminal failure keeps the focused review
  lane until the editor acts. `recordFailure` and `recordApplicationFailure` clear the
  lane mark when a review becomes FAILED; `WorkflowTheorems.LaneRules` proves that a
  finished review never owns the lane, and only a manual retry takes it back.
- docs/architecture.md:254-257 says that an error after an attempted promotion always
  ends in RECOVERY_REQUIRED. In the code a reconciling read that does not find the
  candidate makes it FAILED, and so does a throw right after the reload of a reclaimed
  job, which has not read anything: `PublicationTheorems.ReclaimThrowExact`.
- docs/architecture.md:259-260 says that only one unexpired owner can run. A claim
  compares one lease with two clocks, so this needs that no lease lies between them:
  `PublicationRows.ClaimExclusionExact`.

## Model

| member | source | states |
|---|---|---|
| PublicationTheorems.PointerSafety | apps/publisher/src/index.ts:4622-5153 | in every granted run, whatever the clocks of a claim read, with nothing in flight the official pointer is the release of the latest SUCCEEDED job, else the initial one; the success history names exactly the SUCCEEDED rows |
| PublicationTheorems.PointerDuringFlight | apps/publisher/src/index.ts:3544-3813 | at every moment of a granted run, several jobs in flight included, the parents lead from the official pointer down to the last success, over unrestored candidates of jobs in recovery, the topmost one possibly PROMOTING or VERIFYING |
| PublicationTheorems.PointerIsItsOwn | apps/publisher/src/index.ts:3544-3813 | where claims find no lease between their clocks too, while a job is in flight the pointer is the last success or that job's own candidate, whose parent is the last success, and never while it is ASSEMBLING |
| PublicationRows.OnePointerTransaction | packages/db/prisma/migrations/20260723192252_initial_foundation/migration.sql:746-748 | in every run, granted or not, at most one job is PROMOTING or VERIFYING, though two may be in flight |
| PublicationRows.GlobalExclusion | apps/publisher/src/index.ts:1299-1367 | in every run whose claims find no lease between the two clocks they read, and under no other grant: at most one job is in ASSEMBLING, PROMOTING, VERIFYING or RECOVERY_REQUIRED, and it is older than every REQUESTED job |
| PublicationRows.NeverFinalisedAndRestored | apps/publisher/src/index.ts:3941-4220 | in every run, granted or not, no job is both finalised in Studio and restored in Leadership, also by a worker with a stale token |
| PublicationRows.StaleWorkerIsPowerless | apps/publisher/src/index.ts:809-846 | no step of a worker whose token is no longer on its row writes any row |
| PublicationRows.StaleForGood | apps/publisher/src/index.ts:1299-1343 | a claim once lost is never regained, in any run |
| PublicationRows.TerminalIsAbsorbing | apps/publisher/src/index.ts:4510-4575 | in every run, granted or not, a job that has reached NEEDS_REFRESH, SUCCEEDED, RESTORED or FAILED never changes again |
| PublicationRows.ClaimExclusionExact | apps/publisher/src/index.ts:1302-1340 | after any run whose claims found no lease between their clocks, the next claim keeps exclusion if and only if recovery is pending, no lease lies in [dbNow, jsNow], or nothing is requested |
| PublicationTheorems.ReclaimThrowExact | apps/publisher/src/index.ts:4634-4660 | a throw before the reconciliation of a reclaimed job ends FAILED with the pointer unread; the pointer is the last success or the candidate of a job that still answers for it if and only if it is not on the failed job's candidate, and with no other job in flight that is pointer safety |
| PublicationTheorems.EarlyReadExact | apps/publisher/src/index.ts:3773-3813 | after each of the three reconciling reads a claim holder knows where the pointer is; a COMMIT can still make that false in time if and only if one of its own job is undecided, and exactly then its flags are not sound |
| PublicationTheorems.LateRestoreIsSafe | apps/publisher/src/index.ts:3941-3961 | a restoration whose worker has died or given up long ago, and whose compare-and-swap still takes effect after any granted run, keeps the invariant and pointer safety, and puts the last success back unless another job is in flight |
| PublicationTheorems.LateCommitExact | apps/publisher/src/index.ts:3700-3749 | a COMMIT that takes effect, in time or late, leaves the pointer accounted for if and only if its job is PROMOTING, VERIFYING or in recovery, or is itself the last success; in the first three cases the parents still lead down to the last success |
| PublicationSteps.ActionKeeps | apps/publisher/src/index.ts:4622-5153 | each granted action, with any two clocks at a claim, keeps the invariant that the theorems are read off from |
| PublicationRows.ClaimFindsOldest | apps/publisher/src/index.ts:1315-1330 | in a run whose claims find no lease between their clocks, when a claim is possible the first eligible row is the one in flight, or the oldest request |
| PublicationOutcomes.PublicationSucceeds | apps/publisher/src/index.ts:4622-4960 | after any granted run with nothing in flight: the oldest request, made over the official release and generation, is claimed and, when its COMMIT takes effect in time and every probe succeeds, ends SUCCEEDED, last in the history, with its release official and the generation one higher; the steps are listed |
| PublicationOutcomes.LostReplySucceeds | apps/publisher/src/index.ts:3773-3813 | likewise when the reply of that COMMIT is lost |
| PublicationOutcomes.RefusedCommitFails | apps/publisher/src/index.ts:4960-5153 | likewise it ends FAILED, with Leadership as it was, when the COMMIT has no effect |
| PublicationOutcomes.ChangedBaseNeedsRefresh | apps/publisher/src/index.ts:4510-4575 | a request over any other base ends NEEDS_REFRESH, with Leadership as it was |
| PublicationOutcomes.FailedProbeRestores | apps/publisher/src/index.ts:3941-3961 | when a probe fails on the promoted release the parent is put back, two generations higher; the job ends RESTORED when the application then agrees, else RECOVERY_REQUIRED |
| PublicationOutcomes.UnreadableNeedsRecovery | apps/publisher/src/index.ts:4960-5153 | when Leadership cannot be read after the COMMIT was sent, whether or not it took effect, the job ends RECOVERY_REQUIRED and nothing is moved |
| PublicationOutcomes.FailedFinalisationStays | apps/publisher/src/index.ts:4940-5000 | when the finalisation of a verified release throws, it stays official and the job stays VERIFYING without a claim |
| PublicationOutcomes.AbandonedIsFinished | apps/publisher/src/index.ts:4634-4660 | a PROMOTING or VERIFYING job whose publisher is gone after its release became official is claimed again and ends SUCCEEDED, with the pointer where it was |
| PublicationOutcomes.RecoveryConcludes | apps/publisher/src/index.ts:3884-3925 | one pass of the recovery loop over a job in recovery whose parent is official ends it RESTORED and moves nothing |
| PublicationCounterexamples.EarlyReadBreaksPointer | apps/publisher/src/index.ts:3773-3813 | a run in which only a reconciling read comes before the decision of an in-lease COMMIT, and the wrong release stays official |
| PublicationCounterexamples.LateCommitBreaksPointer | apps/publisher/src/index.ts:3700-3749 | a run in which only a COMMIT takes effect after its lease, and the wrong release stays official |
| PublicationCounterexamples.ReclaimThrowBreaksPointer | apps/publisher/src/index.ts:5116-5149 | a run in which only the reload of a reclaimed job throws, and the wrong release stays official |
| PublicationCounterexamples.LeaseInGapBreaksExclusion | apps/publisher/src/index.ts:1302-1324 | a run in which only a lease lies between the two clocks, and two jobs are in flight, both ASSEMBLING |
| PublisherStore.Publisher.ClaimPublicationJob | apps/publisher/src/index.ts:1299-1343 | in-place claim, for any two clock readings: the rows become those of the specified step, a fresh token or no change; with exclusion before and no lease between the clocks, the claimed job is the only one in flight |
| PublisherStore.Publisher.RenewPublicationLease | apps/publisher/src/index.ts:1350-1367 | renews exactly when the token is still on the row, without asking whether the lease is live |
| PublisherStore.Publisher.InsertAndPromote | apps/publisher/src/index.ts:3544-3749 | release and pointer tests in their order, ending in an open transaction, an existing promotion or a changed pointer |
| PublisherStore.Publisher.DecideCommit | apps/publisher/src/index.ts:3544-3749 | a commit sets the pointer to the candidate and raises the generation by one, otherwise it stays |
| PublisherStore.Publisher.ReconcileAmbiguousPromotion | apps/publisher/src/index.ts:3773-3813 | answers promoted exactly when the pointer is on the candidate |
| PublisherStore.Publisher.FinalizeSuccess | apps/publisher/src/index.ts:3963-4220 | done exactly when not fenced and the token is live; then the candidate is official, else no row changes |
| PublisherStore.Publisher.EndFailedAttempt | apps/publisher/src/index.ts:4940-5153 | restore, ask for recovery or fail; a FAILED job's candidate is not official |
| PublisherStore.Publisher.RestorePrevious | apps/publisher/src/index.ts:3941-3961 | a move puts the parent of the job in recovery back, which is the last success when no other job is in flight; otherwise the pointer is unchanged |
| PublisherStore.Publisher.ConcludeRecovery | apps/publisher/src/index.ts:3884-3925 | a reconciled recovery leaves nothing of its own between the pointer and the last success, and the last success official when no other job was in flight |
| ReleaseObservation.GuardIsAbaFree | packages/leadership-bridge/src/index.ts:869-966 | in every run, after any past, granted or not: if the captured guard still holds at import, the job rows were the same and no fence state occurred at any instant between |
| ReleaseObservation.ImportedIsOfficial | apps/web/src/server/leadership-sync.ts:20-39 | an imported snapshot, read anywhere between capture and import, is the release of the latest success and still official |
| ReleaseObservation.CountIsNeeded | packages/leadership-bridge/src/index.ts:880-891 | a run that passes both fence tests and reads a release that never was official; only the count differs |
| ReleaseObservation.JobsNeverDeleted | packages/leadership-bridge/src/index.ts:880-891 | the number of job rows never falls |
| ReleaseObservation.FenceExact | packages/leadership-bridge/src/index.ts:640-646 | the fence is up if and only if some job is neither SUCCEEDED, NEEDS_REFRESH, RESTORED nor FAILED |
| ReleaseObservation.SyncCursor.ReconcileOfficial | packages/leadership-bridge/src/index.ts:916-966 | blocked, stale, current and imported outcomes, each with its exact condition and effect on cursor and observations |
| ReleaseObservation.SyncCursor.RecordFailure | packages/leadership-bridge/src/index.ts:893-914 | a failure is recorded exactly under an unchanged guard, and marks an existing cursor only |
| ReleaseObservation.LeadershipSync.Begin | apps/web/src/server/leadership-sync.ts:14-24 | an observation starts exactly when none is active and it is due or forced |
| ReleaseObservation.LeadershipSync.Captured | apps/web/src/server/leadership-sync.ts:20-28 | goes on exactly with a free guard, which is then the one committed under |
| ReleaseObservation.LeadershipSync.Commit | apps/web/src/server/leadership-sync.ts:24-39 | imports or confirms the read snapshot exactly under the captured guard, changes nothing else, then 30 s or 5 s until the next observation |
| ReleaseObservation.LeadershipSync.Failed | apps/web/src/server/leadership-sync.ts:39-54 | a failed observation marks an existing cursor exactly under an unchanged guard, and waits 10 s |
| WorkflowTheorems.WorkspacePinned | apps/web/src/server/workflows/situations.ts:71-191 | in every run, a job in a pinning state has an unreleased checkout, the same situation and checkout fence, its target as the head of an active draft, and no active review |
| WorkflowTheorems.FinalizationNeverFenced | apps/publisher/src/index.ts:3980-4003 | finalising a VERIFYING job never meets a failing fence test; it releases the checkout and archives the draft |
| WorkflowTheorems.PublishExact | apps/web/src/server/workflows/situations.ts:1944-2127 | a request is accepted if and only if no recovery is pending, the sealed receipt exists and matches, and it was accepted before, or the actor holds the checkout, names the head, nothing is published or reviewed there, and runtime, base and backup do not refuse |
| WorkflowEffects.RequestEffect | apps/web/src/server/workflows/situations.ts:1944-2127 | in every run: which refusal a request meets first; an accepted request of a receipt not requested before adds exactly one row at the end, REQUESTED, with this receipt, checkout, fence, situation and draft and the id and hash of its head; a replay or refusal changes nothing |
| WorkflowEffects.MoveExact | apps/publisher/src/index.ts:4622-5153 | every other move changes the state of one job, out of a state that pins the workspace, never back to REQUESTED nor to SUCCEEDED, and to PROMOTING or VERIFYING beside no other such job |
| WorkflowEffects.FinalizeExact | apps/publisher/src/index.ts:3963-4220 | in every run finalising a VERIFYING job makes it SUCCEEDED, releases its checkout, archives its draft and changes nothing else; in any other state nothing happens |
| WorkflowTheorems.DraftsAndProposals | apps/web/src/server/workflows/situations.ts:565-671 | revisions read 1..n in one chain of parents, the cached head is right, and every open proposal targets the head of its own draft |
| WorkflowTheorems.AcceptedLandsOnHead | apps/web/src/server/workflows/situations.ts:2542-2724 | an accepted suggestion follows the head its proposal targets, and every other proposal of the draft is superseded |
| WorkflowEffects.AcceptExact | apps/web/src/server/workflows/situations.ts:2980-3072 | in every run accepting succeeds if and only if the editor holds the checkout, nothing is published, the named revision is the head, and the proposal is one of the situation, open, and targets it; every refusal in its order and without effect |
| WorkflowEffects.SaveExact | apps/web/src/server/workflows/situations.ts:896-1065 | in every run: accepted if and only if the checkout is held, nothing is published, the content is not refused and the expected head is the head; then the same hash changes nothing and another adds the next revision and supersedes the proposals of the old head |
| WorkflowEffects.CheckOutExact | apps/web/src/server/workflows/situations.ts:812-890 | in every run a checkout is taken if and only if nothing is in recovery and the situation has none; the fence rises by one, and it works on the active draft or a new one with one revision |
| WorkflowEffects.NewSituationExact | apps/web/src/server/workflows/situations.ts:765-810 | a new situation gets its fence, a draft with one revision and a checkout, unless something is in recovery |
| WorkflowEffects.CheckInExact | apps/web/src/server/workflows/situations.ts:1071-1116 | exactly when it is accepted; it releases this checkout, takes the lane from its reviews, and changes nothing else |
| WorkflowEffects.ForceCheckInExact | apps/web/src/server/workflows/situations.ts:1118-1194 | in every run exactly when it is accepted; it cancels every review of the checkout that is not over, releases it and raises the fence |
| WorkflowEffects.StartOverExact | apps/web/src/server/workflows/situations.ts:1196-1245 | in every run exactly when it is accepted; it archives the draft of the checkout and works on a new one |
| WorkflowEffects.QueueExact | apps/web/src/server/workflows/situations.ts:1263-1389 | in every run: which refusal comes first; an accepted request adds one review of the head in its initial state |
| WorkflowEffects.CancelExact | apps/web/src/server/workflows/situations.ts:1391-1471 | a QUEUED, RUNNING or FAILED review is cancelled if and only if its input is named and its checkout held; unfinished steps are dropped and the fence rises |
| WorkflowEffects.RetryExact | apps/web/src/server/workflows/situations.ts:1473-1587 | in every run: which refusal comes first; an accepted retry opens the first FAILED step again, lets later ones wait, and takes the lane |
| WorkflowTheorems.LaneRules | apps/review-worker/src/review.ts:328-467 | at most one review owns the lane, every RUNNING one does, a finished one never does, an owner's checkout is active |
| WorkflowTheorems.OwnerBlocksTheLane | apps/review-worker/src/review.ts:404-423 | while the owner waits for a retry or runs under a live lease, claiming changes nothing |
| WorkflowTheorems.ClaimTakesTheRightOne | apps/review-worker/src/review.ts:328-467 | otherwise only the owner, or without one the oldest queued review with an active checkout, can change, and it gets the fresh token |
| WorkflowEffects.ClaimExact | apps/review-worker/src/review.ts:328-467 | in every run the owner, or without one the oldest QUEUED review with an active checkout, is RUNNING after a claim with the next token, the lane, no retry time and a lease of now + leaseMs, its interrupted stage READY again, unless it must wait; nobody else changes, and with nobody to start nothing does |
| WorkflowEffects.ProposeExact | apps/review-worker/src/review.ts:1681-1990 | in every run a materialised candidate ends its review SUCCEEDED and leaves one proposal, superseded from the start if and only if the reviewed revision is no longer the head |
| WorkflowTheorems.UniqueIndexesHold | packages/db/prisma/migrations/20260723192252_initial_foundation/migration.sql:722-748 | in every run: one active checkout, one active draft, one active review and one pinning job per situation, one RUNNING review, one lane owner and one PROMOTING or VERIFYING job overall |
| WorkflowTheorems.ReviewsFollowTheirChain | apps/review-worker/src/review.ts:1991-2472 | among all editors and workers every review is a run of its own chain, so the repair and run bounds hold in every run, and the order of the steps in every granted one |
| WorkflowTheorems.ProtocolMovesAsAllowed | apps/publisher/src/index.ts:4622-5153 | each protocol step moves a job as the workflow lets the publisher move it, into PROMOTING or VERIFYING only as the unique index allows; only finalisation succeeds |
| WorkflowSteps.ActionKeeps | apps/web/src/server/workflows/situations.ts:765-3072 | every transaction keeps the workflow invariant |
| WorkflowStore.Studio.CreateRevision | apps/web/src/server/workflows/situations.ts:565-671 | in-place revision: None leaves everything, else the revision with this hash is in the draft, and a new one supersedes every other proposal of its parent |
| WorkflowStore.Studio.SaveDraft | apps/web/src/server/workflows/situations.ts:896-1065 | each refusal in order, of the content too, else the new revision |
| WorkflowStore.Studio.CheckIn | apps/web/src/server/workflows/situations.ts:1071-1116 | releases the checkout and clears the lane of its reviews, or refuses unchanged |
| WorkflowStore.Studio.ForceCheckIn | apps/web/src/server/workflows/situations.ts:1118-1194 | cancels every stoppable review of the checkout, releases it and raises the fence |
| WorkflowStore.Studio.QueueReview | apps/web/src/server/workflows/situations.ts:1263-1389 | each refusal in order, of the pinned content too, else one new review |
| WorkflowStore.Studio.RetryReview | apps/web/src/server/workflows/situations.ts:1473-1587 | each refusal in order and without effect, else the review is QUEUED with its failed step opened again and is the only owner of the lane |
| WorkflowStore.Studio.ClaimNextReview | apps/review-worker/src/review.ts:328-467 | the review it returns was the one whose turn it was and now runs under the fresh token, lease and lane; it returns none exactly when nobody is to start or that one must wait |
| WorkflowStore.Studio.AcceptChanges | apps/web/src/server/workflows/situations.ts:2980-3072 | checkout, supersession and head tests, then a revision that keeps the proposal itself open |
| WorkflowStore.Studio.RequestPublication | apps/web/src/server/workflows/situations.ts:1944-2127 | recovery, receipt, replay, early refusals, workspace and late refusals in order and without effect, else exactly one more row, REQUESTED and pinned to the checkout, its draft and the named revision |
| WorkflowStore.Studio.FinalizeSuccess | apps/publisher/src/index.ts:3963-4220 | job, checkout and draft rows after success, unchanged when fenced |
| ReviewChainTheorems.StageRunsBounded | apps/review-worker/src/review.ts:61-63 | in every run at most 14 stage runs, one more for each lease lost in a stage and two for each manual retry |
| ReviewChainTheorems.FourteenRunsHappen | apps/review-worker/src/review.ts:1991-2472 | a run without lost leases or manual retries that creates exactly 14 and succeeds |
| ReviewChainTheorems.AtMostOneRepair | apps/review-worker/src/review.ts:1615-1679 | in every run a review schedules at most one repair, whatever is lost, late or retried by hand |
| ReviewOutcomes.ClaimedSucceeds | apps/review-worker/src/review.ts:1991-2472 | after any granted run a QUEUED or RUNNING review is claimed and, undisturbed, ends SUCCEEDED with one more run of every unfinished stage and none of the others, if and only if its first unfinished stage is not PENDING; the steps are listed |
| ReviewOutcomes.RetriedSucceeds | apps/web/src/server/workflows/situations.ts:1521-1575 | after any granted run a FAILED review with a failed stage is retried by hand and ends SUCCEEDED likewise, without a further run of what had succeeded |
| ReviewOutcomes.RevisionExact | apps/review-worker/src/review.ts:1615-1679 | the first audit that asks for a revision sends the review back to its builder, a later one fails it with the audit as the failed stage and keeps the stages before |
| ReviewChainTheorems.StepsKeepTheirShape | apps/review-worker/src/review.ts:1267-1513 | in every granted run, with the read and the update of readyDependents as steps of their own, SUCCEEDED*, at most one READY, RUNNING or FAILED, then PENDING*; after a cancel SUCCEEDED* CANCELLED* |
| ReviewChainTheorems.RetryDelayInRange | apps/review-worker/src/review.ts:155-168 | in every run, whichever statement of a stage fails, a lost reply included: the failure is queued again if and only if it is retryable and fewer than three runs were made, 5 s after the first run and 30 s after the second |
| ReviewChainTheorems.DeadlineRetryExact | apps/web/src/server/workflows/situations.ts:1521-1575 | after a failure at the deadline a manual retry does something if and only if the first unfinished step is not PENDING |
| ReviewChainTheorems.RecordThrowExact | apps/review-worker/src/review.ts:1354-1513 | a throw in recordSuccess, readyDependents or scheduleCandidateRepair, retried or not, keeps the shape if and only if the statement changed no step and no late process made the next stage READY |
| ReviewChainTheorems.LateWriteExact | apps/review-worker/src/review.ts:1267-1290 | a process without a claim that goes on in readyDependents keeps the shape if and only if the step it read as next waits no more or its predecessor is still SUCCEEDED |
| ReviewChainTheorems.StaleReadBreaksShape | apps/review-worker/src/review.ts:1267-1290 | a run in which such a process reads, the builder is taken back by a failed materialisation, and the late write leaves a READY audit behind a FAILED builder though nothing has thrown |
| ReviewChainTheorems.LateDependentsBreakShape | apps/review-worker/src/review.ts:1267-1291 | a run in which a late write comes before a throw, with the same result |
| ReviewChainTheorems.LostReplyBreaksShape | apps/review-worker/src/review.ts:1615-1679 | a run without late processes in which a lost reply of scheduleCandidateRepair leaves a READY builder in front of a FAILED audit |
| ReviewChainProofs.ActionBounded | apps/review-worker/src/review.ts:1991-2472 | every action of worker, editor and late process keeps the budgets of runs and repairs, with nothing asked of the environment |
| ReviewWorkerStore.ReviewJob.ReadDependents | apps/review-worker/src/review.ts:1267-1279 | the loops over one reading of the steps find the only PENDING step whose predecessor succeeded, or none |
| ReviewWorkerStore.ReviewJob.PromoteDependents | apps/review-worker/src/review.ts:1280-1290 | the update makes that step READY if it still waits, and changes no other |
| ReviewWorkerStore.ReviewJob.RecordSuccess | apps/review-worker/src/review.ts:1292-1352 | nothing happens unless the claim is held and the step runs |
| ReviewWorkerStore.ReviewJob.RecordFailure | apps/review-worker/src/review.ts:1354-1513 | from any point of the stage's try block: queued again with its delay, or FAILED without lane and claim |
| ReviewWorkerStore.ReviewJob.RecordApplicationFailure | apps/review-worker/src/review.ts:1515-1613 | the step fails, later steps wait again after a materialisation failure, the lane is given up |
| ReviewWorkerStore.ReviewJob.ScheduleCandidateRepair | apps/review-worker/src/review.ts:1615-1679 | scheduled exactly while completed audits are within the limit |
| ReviewWorkerStore.ReviewJob.Pass | apps/review-worker/src/review.ts:1991-2472 | one turn of the processing loop, for every outcome of deadline, evidence and materialisation |
| Text.CanonicalIdempotent | packages/domain/src/index.ts:69-71 | canonicalText changes nothing that is canonical |
| SituationText.ParseSituationSections | packages/domain/src/index.ts:939-960 | the loop over heading matches fills the map that the specification reads off the text |
| SituationText.RoundTripExact | packages/domain/src/index.ts:939-970 | for trimmed, CR-free sections parse(serialize(s)) = s if and only if no section holds a level-2 heading line |
| SituationText.SerializeAfterParse | packages/domain/src/index.ts:939-970 | for every accepted body: printing what was read is read the same if and only if no section read holds such a line, and then printing again changes nothing |
| SituationText.PrintedIsNormalExact | packages/domain/src/index.ts:939-970 | reading a printed body and printing it again gives the same body if and only if no section that was printed holds a heading line |
| SituationText.IndentedHeadingIsLost | packages/domain/src/index.ts:955-959 | for any sections a body whose indented heading does not survive |
| SituationText.EditorAgrees | apps/web/src/workspace-source-state.ts:1-31 | the editor's parser and printer equal the domain's on every body, for the eleven required names |
| SituationText.RequiredNamesAreValid | packages/domain/src/index.ts:706-718 | the eleven required names are distinct and survive printing and reading |
| TargetKeys.TargetKeyExact | packages/domain/src/index.ts:741-766 | over names without the marks of a key, a key names a target if and only if it is the key of that target: a section, a section and a trimmed subheading without marks, or a section and a slug |
| TargetKeys.RequiredNamesUnmarked | packages/domain/src/index.ts:706-718 | the eleven required names are such names |
| SectionTargets.ResolveSpan | packages/domain/src/index.ts:824-884 | the loops find the only match and the end of what it covers, or fail on none or several |
| SectionTargets.ReadAfterWrite | packages/domain/src/index.ts:812-916 | reading a subheading after writing gives the trimmed replacement |
| SectionTargets.WriteTwice | packages/domain/src/index.ts:812-916 | writing a subheading twice equals writing it last |
| SectionTargets.ReadAfterWriteExact | packages/domain/src/index.ts:812-916 | for every clean section, its one matching subheading and every replacement without heading lines: read after write gives the trimmed replacement if and only if the heading has a title, else nothing can be read |
| SectionTargets.WriteTwiceExact | packages/domain/src/index.ts:812-916 | likewise, writing twice equals writing last if and only if the heading has a title |
| SectionTargets.WrittenHeadingsExact | packages/domain/src/index.ts:812-884 | for all three kinds of target: what is written holds no level-2 heading line if and only if the replacement holds none and the text behind the target does not open with one |
| SectionTargets.OnlyBlocksExpose | packages/domain/src/index.ts:839-884 | only behind a named block can such text stand |
| NamedBlocks.BlockReadExact | packages/domain/src/index.ts:857-884 | read after write of a named block gives the trimmed replacement if and only if it is one block quote and its label stands nowhere else in what is written |
| NamedBlocks.BlockWriteTwice | packages/domain/src/index.ts:857-884 | under that condition writing a named block twice equals writing it last |
| OtherTargets.OtherTargetExact | packages/domain/src/index.ts:812-935 | for every write of a subheading or named block and every other target of the section that the replacement does not hold: outside the replaced lines it is found again if and only if trimming uncovers no second line for it, inside it is gone, and apart from them it reads as before |
| OtherTargets.KeptIsRead | apps/review-worker/src/review.ts:1046-1062 | what was written below a subheading is still read there after a later write of any target that lies apart |
| HiddenHeadings.WrittenHides | packages/domain/src/index.ts:812-884 | a write of a text without hidden heading lines into a section without any leaves none |
| SectionTargets.LensLaws | packages/domain/src/index.ts:899-916 | for SECTION and SUBHEADING keys: read after write, write twice, the other sections unchanged, and all survive printing and reading |
| SectionTargets.BlankTitleIsLost | packages/domain/src/index.ts:812-823 | a blank subheading is readable, and gone after it is written |
| Candidate.MaterializeCandidateRevision | apps/review-worker/src/review.ts:960-1164 | the loop over intents equals the fold over them, with its three ways to refuse |
| Candidate.ApplyProposalChanges | apps/web/src/server/workflows/situations.ts:2770-2889 | the loop over changes equals the fold that re-reads and re-prints the body each time |
| CandidateReplay.ReplayExact | apps/review-worker/src/review.ts:960-1164 | from an input in normal form, for stored replacements that no longer open with their own heading, while what is read before each change holds no heading line and the bundle schema does not look at the value of a body hash: every kept automatic change can be accepted, and accepting all gives body and bundle of the audited candidate if and only if the body reached is in normal form |
| ReplayConditions.SectionChangeExact | packages/domain/src/index.ts:1228-1272 | a section change leaves a body in normal form if and only if neither its replacement nor the text behind its target brings a heading line |
| ReplayConditions.LastWriteDecides | apps/web/src/server/workflows/situations.ts:2770-2889 | under the same conditions, whatever was written before, the replay gives the candidate if and only if the last section change is harmless in that sense for the body it is applied to |
| ReplayConditions.OneWriteExact | apps/web/src/server/workflows/situations.ts:2770-2889 | for a review with one automatic section change, of any of the three kinds, the same with no other condition |
| ReplayConditions.ReplayOfPlainReplacements | apps/web/src/server/workflows/situations.ts:2770-2889 | changes of all three kinds of target, each harmless for the body it is applied to, whose stored replacements no longer open with their own heading, are accepted into exactly the audited candidate |
| ReplayConditions.ReplayOfUnhiddenReplacements | apps/review-worker/src/review.ts:960-1164 | the same from a condition on the inputs alone: no stored replacement opens with its own heading, and no line of the input sections or of the replacements reads as a level-2 heading once its indentation is removed |
| ReplayConditions.ReplayWithoutNamedBlocks | apps/review-worker/src/review.ts:960-1164 | when no target is a named block a weaker condition on the inputs alone is enough: no stored replacement opens with its own heading or holds a level-2 heading line |
| ReplayCounterexample.NamedBlockBreaksReplay | apps/review-worker/src/review.ts:887-958 | one section with an indented heading line behind a named block, the other ten any: the suggestion is kept and can be accepted, and the result is not the audited candidate |
| CandidateReplay.NormalizeStoredExact | packages/domain/src/index.ts:1165-1176 | normalising stored text again changes nothing if and only if it does not open with its own heading |
| CandidateReplay.NormalizationIsNotIdempotent | packages/domain/src/index.ts:1165-1176 | a text on which normalising twice differs from once |
| CandidateProofs.BuilderIntentsConserved | apps/review-worker/src/review.ts:728-794 | every builder intent is kept or discarded exactly once under its own original position, through filter and remap, and kept ones refer to existing findings |
| CandidateProofs.IntentsConserved | apps/review-worker/src/review.ts:960-1164 | the materialisation loop keeps or discards every intent exactly once |
| CandidateProofs.CandidateIsFoldOfKept | apps/review-worker/src/review.ts:960-1164 | the candidate is the fold of the kept automatic changes alone, every revision on the way is accepted, no two kept changes have one key, and of two kept section changes of one section neither is for the whole of it and no two have one label or one anchor |
| CandidateEffects.KeepExact | apps/review-worker/src/review.ts:1030-1135 | an intent is kept if and only if it fits beside the kept ones, its target can be read, its edit applies and the revision that results is valid; the draft then holds exactly that edit |
| CandidateEffects.CandidateHandlesEach | apps/review-worker/src/review.ts:960-1164 | a candidate exists only if the input is accepted and every intent was handled in turn: ill-formed ones discarded, the others with their metadata value read and kept if and only if they can be; it is what the last draft gives |
| CandidateEffects.HandledGivesCandidate | apps/review-worker/src/review.ts:960-1164 | conversely, whenever every intent can be handled in turn, there is a candidate if and only if the last draft, with the hash of its body, is accepted and valid |
| CandidateEffects.FilterExact | apps/review-worker/src/review.ts:728-752 | an intent reaches the loop if and only if all findings it refers to exist, at its place and in order |
| CandidateEffects.CollidingIsDiscarded | apps/review-worker/src/review.ts:1046-1062 | of two section intents of one section, one for the whole of it or both for one subheading or block, one is discarded |
| CandidateEffects.CandidateMetadata | packages/domain/src/index.ts:1279-1300 | a candidate holds the parsed value of every kept automatic metadata change under its key, and every other key and the context as they were |
| CandidateEffects.AcceptedMetadata | apps/web/src/server/workflows/situations.ts:2770-2889 | an accepted revision holds the last value that the changes give to each metadata key, and every other key and the context as they were |
| CandidateEffects.MetadataLeavesBody | packages/domain/src/index.ts:1279-1300 | changes of metadata alone leave the body as it was, of the candidate and of the accepted revision |
| CandidateEffects.MetadataChangeApplies | packages/domain/src/index.ts:1279-1300 | a metadata change is applied if and only if it names the current value, is JSON and both bundles are accepted; then its value stands under its key and nothing else changes |
| CandidateEffects.SectionChangeApplies | packages/domain/src/index.ts:1228-1278 | a section change is applied if and only if it names the current text, keeps the managed components, can be written and both bundles are accepted; then the one section is rewritten and the bundle carries the hash of the body |
| AuditGate.Gate | apps/review-worker/src/review.ts:1166-1240 | a proposal exists only if the audit passed for exactly the stored candidate, every blocking finding of the other stages is linked by an automatic change, and links name existing findings |
| AuditGate.ProposeExact | apps/review-worker/src/review.ts:1681-1850 | there is a proposal if and only if every stage has an output of its own, no two findings share a key, the audit passes exactly this candidate, every blocking finding of the other stages is addressed by an automatic change, and every change refers to a finding; it holds exactly those findings, the kept changes and what each refers to |
| AuditGate.OneCandidatePerAudit | apps/review-worker/src/review.ts:1153-1240 | with a hash that tells candidates apart, two materialisations of one reviewed revision that the same audit lets through have the same bundle and body |
| Ordering.SortForgetsOrder | packages/domain/src/index.ts:292-309 | sorting gives one result for every order of elements that do not tie |
| JsonReader.ValueRead | packages/domain/src/index.ts:84-86 | what is printed is JSON: a reader after RFC 8259 gives the value back, whatever follows it |
| CanonicalJson.TextUnique | packages/domain/src/index.ts:84-86 | a JSON value is determined by its printed text, whatever follows |
| CanonicalJson.CanonicalJsonExact | packages/domain/src/index.ts:73-86 | two values print the same if and only if they are equal up to the order of object keys |
| CanonicalJson.CanonicalKeepsShape | packages/domain/src/index.ts:73-82 | the canonical value is the value up to the order of keys |
| BundleHash.HashExact | packages/domain/src/index.ts:292-316 | two valid bundles have the same hashed text if and only if they hold the same artifacts, relationships, context hashes and other fields, in whatever order of the lists and of all keys |
| Placeholders.RewriteStatement | apps/publisher/src/index.ts:988-1007 | the loops renumber the text and pick the values as specified |
| Placeholders.ExecuteStatements | apps/publisher/src/index.ts:981-1008 | the queries sent are the rewritten non-empty statements in order |
| Placeholders.RenumberingKeepsMeaning | apps/publisher/src/index.ts:988-1007 | every placeholder is sent with the value it named, or none outside the list, placeholders keep their order, other text stays, and the numbers used are exactly 1..k |
| Placeholders.RenderedTokens | apps/publisher/src/index.ts:988-1007 | a rewritten statement is read back token by token |
| Placeholders.PiecesExact | apps/publisher/src/index.ts:981-989 | the pieces hold no semicolon and make up the text |
| Placeholders.StatementsExact | apps/publisher/src/index.ts:981-989 | the statements are the trimmed pieces that are not blank, in order |
| LoginThrottle.EightPerWindow | apps/web/src/server/auth/throttle.ts:91-131 | at most eight failures of one key in any half-open fifteen minutes, over every ordered history |
| LoginThrottle.EightHappen | apps/web/src/server/auth/throttle.ts:91-131 | eight are reached |
| LoginThrottle.Limiter.Upsert | apps/web/src/server/auth/throttle.ts:91-131 | one turn of the loop over the keys |
| LoginThrottle.Limiter.EvaluateLoginAttempt | apps/web/src/server/auth/throttle.ts:133-166 | blocked exactly when a row of one of the keys is blocked until later than now; success clears the user name only; counts stay within 1..5 and every IP within eight per window |
| PublicationStatus.CompletedStageCount | apps/web/src/server/publication-status.ts:184-220 | the reassigned counter ends at the last of the five stages that is over |
| PublicationStatus.FailureDetailFromEvents | apps/web/src/server/publication-status.ts:72-90 | the backward loop finds the latest well-formed detail |
| PublicationStatus.AcceptedExact | apps/web/src/publication-status-contract.ts:110-149 | for every record the snapshot meets all rules if and only if it is not a success whose log holds a failure detail |
| PublicationStatus.ShownCount | apps/web/src/server/publication-status.ts:222-283 | the number shown is the last stage that is over, in whatever order events are given |
| PublicationStatus.StagesReadInOrder | apps/web/src/server/publication-status.ts:233-258 | COMPLETE*, at most one ACTIVE or FAILED, then PENDING*, for every record |
| PublicationStatus.StageOverExact | apps/web/src/server/publication-status.ts:184-220 | stage by stage: it is shown as over if and only if the state of the job says so or an event of it or of a later stage is logged |
| PublicationStatus.FirstOpenStage | apps/web/src/server/publication-status.ts:222-283 | for every record the first stage that is not over is FAILED in a job that has ended and ACTIVE in one that has not, unless a restoration was started, and the page names it |
| PublicationStatus.FailureShown | apps/web/src/server/publication-status.ts:72-90 | the failure shown is that of the event with the greatest number that tells one, in whatever order the events arrive |
| PublicationHistoryTheorems.EverySnapshotAccepted | apps/web/src/server/publication-status.ts:222-297 | in every run, granted or not, the snapshot of every row meets all rules, and a success shows five stages and no detail |
| PublicationHistoryTheorems.OutcomeIsLogged | apps/publisher/src/index.ts:1182-1223 | in every run, granted or not, SUCCEEDED, FAILED, NEEDS_REFRESH and RESTORED are logged for exactly the jobs that ended so, and a restoration or recovery for exactly those that needed one |
| PublicationHistoryTheorems.EventsLoggedOnce | apps/publisher/src/index.ts:1182-1223 | in every run the events of a job are numbered upwards and none is logged twice, however often its claim was lost |
| PublicationHistoryTheorems.StatusNeverRegresses | apps/web/src/server/publication-status.ts:184-220 | in granted runs completed stages never drop from any moment to any later one |
| PublicationHistoryTheorems.VerifyingIsLeftForward | apps/publisher/src/index.ts:4880-4900 | in granted runs a VERIFYING job's candidate is official and the job leaves for SUCCEEDED or RECOVERY_REQUIRED only |
| PublicationHistoryTheorems.StageLossExact | apps/web/src/server/publication-status.ts:184-220 | in any reachable state an action takes stages back if and only if it moves a VERIFYING job to FAILED or NEEDS_REFRESH with POINTER_ADVANCED unlogged |
| PublicationHistoryTheorems.ReclaimThrowTakesStageBack | apps/publisher/src/index.ts:5116-5149 | three steps that do so |
| PublicationHistoryTheorems.ActionKeeps | apps/publisher/src/index.ts:1182-1223 | every action keeps rows and logs in step: VALIDATED before PROMOTING, each outcome logged with its state, detail events only in recovery, restored or failed jobs |
| ReviewStatusTheorems.CurrentStageIsFirstUnfinished | apps/web/src/server/review-status.ts:187-324 | completed stages, current stage and retry all speak of the first unfinished step, and a retry is announced if and only if one is scheduled |
| ReviewStatusTheorems.FailureIsTold | apps/web/src/server/review-status.ts:187-324 | in every granted run: a retry shows the class of the run that failed, a failed review that of its failed stage or else of the row, the recorded reason and place come before the stage it stands at, and the lane shown is the one it has |
| ReviewStatusTheorems.AcceptedExact | apps/web/src/review-status-contract.ts:124-187 | in every run, lost replies and late processes included, the snapshot meets all rules if and only if the attempts it tells of, for the current stage and for the retry, are at most 100; each is the number of runs of the stage it names |
| ReviewStatusTheorems.AcceptedWhileRunsFit | apps/web/src/review-status-contract.ts:124-187 | in every run the snapshot meets all rules while no stage has more than 100 runs |
| ReviewStatusTheorems.AcceptedInOrderExact | apps/web/src/review-status-contract.ts:124-187 | in granted runs it does if and only if the first unfinished stage has no attempt above 100 to show |
| ReviewStatusTheorems.AcceptedForLong | apps/web/src/review-status-contract.ts:124-187 | in every run it does while lost leases and manual retries are at most 96 together |
| ReviewStatusTheorems.HundredLossesHideThePage | apps/web/src/review-status-contract.ts:64-71 | a run with a hundred lost leases after which no snapshot is accepted |

## Left out

- React components, pages, API routes, SSE streams, cookies and sessions: user interface and transport.
- HTTP, HTML and capability probes, the provider adapters and the CLI: each is an arbitrary answer here.
- The SQL of the typed projection clone and of scoped inserts: its schema is not part of this model. An existing release row is described by its id and whether it is VALIDATED.
- `leadership_studio_promote_release` and `leadership_studio_restore_release`: their text is not part of this model; each is one compare-and-swap.
- Manifest hashes: a release id stands for its id and manifest hash together, and a sealed candidate never changes.
- `beforeCommit` renews the lease and tests the fence in one step here; the code uses two statements under one claim. The fence tests on checkout and situation are an arbitrary answer in the publication protocol, and `WorkflowTheorems.WorkspacePinned` shows that they never fail.
- Requests in the publication protocol are more permissive than `requestPublication`: any fresh release over any parent. The editorial rules are in the workflow.
- Publication attempts, receipts, audit events and backup records: written beside the modelled rows and never read by them.
- Foreign pointer moves: none happen in a run of the protocol. Creation order is the order of the rows.
- A restoration on the wire when its worker dies or gives up is not a step of its own; `PublicationTheorems.LateRestoreIsSafe` shows what it does when it lands.
- Review deadlines, provider time-outs and lease lengths: when they strike is arbitrary.
- Content refusals of `saveDraft`, `queueReview` and `requestPublication` (bundle, body, receipt, runtime, Leadership base, backup) are arbitrary verdicts at the place where the code asks for them; those of the other editorial transactions are left out.
- Field checks, SHA-256, UUIDs and the managed MDX compiler: parameters (`Candidate.Env`), pure functions of their arguments. Legacy version-1 bundles, legacy review roles and scoped variants are not modelled.
- Unicode normalisation of headings and block labels (`SectionTargets.Tables`): parameters. `NamedBlocks` asks of the label pattern only that it looks at the first line.
- Code units: a string is a sequence of characters, without surrogate pairs; JSON numbers are their printed form.
- Placeholder numbers are read exactly; the code reads them as floating-point numbers, which agree up to 2^53.
- Canonical JSON takes key order as a total order on strings; the code uses the default locale comparison, which is one wherever it does not call two different strings equal.
- Object keys that look like array indexes are sorted like all others; the language puts them first. Either order depends on the set of keys alone.
- `createScopedVariant`, retirement and scoped edits beyond the revision they save, and edits of single proposal changes.
- Display names, explanations and message texts of the two status pages, and the snapshot identity.
- Login attempts are taken with non-decreasing times; user-name canonicalisation and hashing are not modelled.
- Row locks such as SKIP LOCKED: each transaction is atomic.
