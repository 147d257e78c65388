/** The editorial workflow (apps/web/src/server/workflows/situations.ts) with the
    transactions of the review worker and of the publisher that touch the same
    rows.  Every serialisable transaction is one atomic step: it either changes
    the rows as written or refuses and changes nothing. */
module Workflow {
  import opened Common
  import P = PublicationProtocol
  import R = ReviewChain

  type Hash = nat

  /** Rows of one draft are kept in the order in which they were inserted. */
  datatype Revision = Revision(id: nat, number: nat, parent: Option<nat>, hash: Hash)
  datatype Draft = Draft(situation: nat, active: bool, revisions: seq<Revision>, currentNumber: nat, currentHash: Option<Hash>)
  datatype Checkout = Checkout(situation: nat, holder: nat, draft: nat, fence: nat, released: bool)
  datatype Review = Review(
    situation: nat, checkout: nat, checkoutFence: nat, draft: nat, inputRevision: nat, inputHash: Hash, job: R.Job)
  datatype Proposal = Proposal(
    review: nat, draft: nat, inputRevision: nat, currentRevision: nat, currentHash: Hash, superseded: bool)
  datatype Publication = Publication(
    receipt: nat, situation: nat, checkout: nat, checkoutFence: nat, draft: nat,
    targetRevision: nat, targetHash: Hash, state: P.JobState)

  datatype State = State(
    fences: seq<nat>,             // situations.fence
    drafts: seq<Draft>, checkouts: seq<Checkout>, reviews: seq<Review>,
    proposals: seq<Proposal>, publications: seq<Publication>,
    nextRevision: nat, nextToken: nat)

  datatype Error =
    | StaleCheckout | AlreadyCheckedOut | NoActiveCheckout
    | PublicationRecoveryRequired | PublicationActive | ReviewActive
    | StaleRevision | ReviewFocusedUnresolved | ReviewUnavailable | StaleReview | CheckoutOwnerRequired
    | NoResumableStep | ReviewLaneBusy
    | ProposalNotFound | SupersededProposal | StaleProposal
    | PreflightRequired | StalePreflightReceipt | Unacceptable(code: nat)

  datatype Outcome = Outcome(state: State, error: Option<Error>)

  function Refuse(s: State, e: Error): Outcome {
    Outcome(s, Some(e))
  }

  // ----- guards -----

  predicate ActivePublication(st: P.JobState) {
    st == P.Requested || P.Owned(st)
  }

  /** The states in which a publication job pins its workspace and fences reconciliation. */
  predicate Pinning(st: P.JobState) {
    ActivePublication(st) || st == P.RecoveryRequired
  }

  predicate ActiveReview(st: R.JobState) {
    st == R.Queued || st == R.Running
  }

  predicate RecoveryPending(publications: seq<Publication>) {
    exists p :: 0 <= p < |publications| && publications[p].state == P.RecoveryRequired
  }

  predicate PublicationUnderway(publications: seq<Publication>, situation: nat) {
    exists p :: 0 <= p < |publications| && publications[p].situation == situation && ActivePublication(publications[p].state)
  }

  predicate ReviewUnderway(reviews: seq<Review>, situation: nat) {
    exists r :: 0 <= r < |reviews| && reviews[r].situation == situation && ActiveReview(reviews[r].job.state)
  }

  /** assertNoActivePublication: recovery of any job locks every situation. */
  function PublicationGuard(publications: seq<Publication>, situation: nat): Option<Error> {
    if RecoveryPending(publications) then Some(PublicationRecoveryRequired)
    else if PublicationUnderway(publications, situation) then Some(PublicationActive)
    else None
  }

  /** The row found by id, holder, fence and releasedAt null. */
  predicate HoldsCheckout(checkouts: seq<Checkout>, c: nat, actor: nat, fence: nat) {
    c < |checkouts| && checkouts[c].holder == actor && checkouts[c].fence == fence && !checkouts[c].released
  }

  function ActiveCheckoutOf(checkouts: seq<Checkout>, situation: nat, from: nat): (c: nat)
    requires from <= |checkouts|
    ensures from <= c <= |checkouts|
    ensures c < |checkouts| ==> checkouts[c].situation == situation && !checkouts[c].released
    ensures forall i :: from <= i < c ==> checkouts[i].situation != situation || checkouts[i].released
    decreases |checkouts| - from
  {
    if from == |checkouts| || (checkouts[from].situation == situation && !checkouts[from].released) then from
    else ActiveCheckoutOf(checkouts, situation, from + 1)
  }

  /** ORDER BY lineage DESC: the last ACTIVE draft of the situation. */
  function ActiveDraftOf(drafts: seq<Draft>, situation: nat): (d: Option<nat>)
    ensures d.Some? ==> d.value < |drafts| && drafts[d.value].situation == situation && drafts[d.value].active
    ensures d.None? ==> forall i :: 0 <= i < |drafts| ==> drafts[i].situation != situation || !drafts[i].active
  {
    if drafts == [] then None
    else
      var last := |drafts| - 1;
      if drafts[last].situation == situation && drafts[last].active then Some(last)
      else ActiveDraftOf(drafts[..last], situation)
  }

  /** ORDER BY revision DESC, take 1. */
  function Latest(revisions: seq<Revision>): (r: Option<Revision>)
    ensures r.None? <==> revisions == []
    ensures r.Some? ==> r.value in revisions && forall i :: 0 <= i < |revisions| ==> revisions[i].number <= r.value.number
  {
    if revisions == [] then None
    else
      var rest := Latest(revisions[1..]);
      if rest.Some? && rest.value.number > revisions[0].number then rest else Some(revisions[0])
  }

  // ----- drafts -----

  function Supersede(proposals: seq<Proposal>, previous: nat, preserve: Option<nat>): (r: seq<Proposal>)
    ensures |r| == |proposals|
    ensures forall q :: 0 <= q < |r| ==>
      r[q] == if proposals[q].currentRevision == previous && preserve != Some(q)
              then proposals[q].(superseded := true) else proposals[q]
  {
    seq(|proposals|, q requires 0 <= q < |proposals| =>
      if proposals[q].currentRevision == previous && preserve != Some(q)
      then proposals[q].(superseded := true) else proposals[q])
  }

  datatype Revised = Revised(state: State, revision: Option<Revision>)

  /** createRevision.  `revision` is None when the expected parent is stale. */
  function CreateRevision(s: State, d: nat, hash: Hash, expected: Option<(nat, Hash)>, preserve: Option<nat>): Revised
    requires d < |s.drafts|
  {
    var draft := s.drafts[d];
    var previous := Latest(draft.revisions);
    if expected.Some? && (previous.None? || (previous.value.id, previous.value.hash) != expected.value) then Revised(s, None)
    else if previous.Some? && previous.value.hash == hash then Revised(s, previous)
    else
      var parent := if previous.Some? then Some(previous.value.id) else None;
      var row := Revision(s.nextRevision, draft.currentNumber + 1, parent, hash);
      Revised(
        s.(drafts := s.drafts[d := draft.(revisions := draft.revisions + [row],
                                          currentNumber := row.number, currentHash := Some(hash))],
           nextRevision := s.nextRevision + 1,
           proposals := if previous.Some? then Supersede(s.proposals, previous.value.id, preserve) else s.proposals),
        Some(row))
  }

  /** createDraftFromProduction, and the draft part of startRestorationDraft. */
  function CreateDraft(s: State, situation: nat, hash: Hash): State {
    var s1 := s.(drafts := s.drafts + [Draft(situation, true, [], 0, None)]);
    CreateRevision(s1, |s.drafts|, hash, None, None).state
  }

  function OpenCheckout(s: State, situation: nat, actor: nat, draft: nat): State
    requires situation < |s.fences|
  {
    var fence := s.fences[situation] + 1;
    s.(fences := s.fences[situation := fence],
       checkouts := s.checkouts + [Checkout(situation, actor, draft, fence, false)])
  }

  function CreateSituation(s: State, actor: nat, hash: Hash): Outcome {
    if RecoveryPending(s.publications) then Refuse(s, PublicationRecoveryRequired)
    else
      var s1 := CreateDraft(s.(fences := s.fences + [0]), |s.fences|, hash);
      Outcome(OpenCheckout(s1, |s.fences|, actor, |s.drafts|), None)
  }

  function CheckOut(s: State, situation: nat, actor: nat, hash: Hash): Outcome
    requires situation < |s.fences|
  {
    if RecoveryPending(s.publications) then Refuse(s, PublicationRecoveryRequired)
    else if ActiveCheckoutOf(s.checkouts, situation, 0) < |s.checkouts| then Refuse(s, AlreadyCheckedOut)
    else
      var d := ActiveDraftOf(s.drafts, situation);
      if d.Some? then Outcome(OpenCheckout(s, situation, actor, d.value), None)
      else Outcome(OpenCheckout(CreateDraft(s, situation, hash), situation, actor, |s.drafts|), None)
  }

  /** `content` is the refusal of the bundle or the body, if they are refused.
      saveDraft, and with `expected` None createRetirementDraft and createScopedArtifactEdit. */
  function SaveDraft(s: State, actor: nat, c: nat, fence: nat, expected: Option<(nat, Hash)>, hash: Hash, content: Option<Error>): Outcome
  {
    if !HoldsCheckout(s.checkouts, c, actor, fence) || s.checkouts[c].draft >= |s.drafts| then Refuse(s, StaleCheckout)
    else
      var guard := PublicationGuard(s.publications, s.checkouts[c].situation);
      if guard.Some? then Refuse(s, guard.value)
      else if content.Some? then Refuse(s, content.value)
      else
        var made := CreateRevision(s, s.checkouts[c].draft, hash, expected, None);
        if made.revision.None? then Refuse(s, StaleRevision) else Outcome(made.state, None)
  }

  function CheckIn(s: State, actor: nat, c: nat, fence: nat): Outcome {
    if !HoldsCheckout(s.checkouts, c, actor, fence) then Refuse(s, StaleCheckout)
    else
      var situation := s.checkouts[c].situation;
      var guard := PublicationGuard(s.publications, situation);
      if guard.Some? then Refuse(s, guard.value)
      else if ReviewUnderway(s.reviews, situation) then Refuse(s, ReviewActive)
      else Outcome(s.(checkouts := s.checkouts[c := s.checkouts[c].(released := true)],
                      reviews := LeaveLane(s.reviews, c)), None)
  }

  function LeaveLane(reviews: seq<Review>, c: nat): (r: seq<Review>)
    ensures |r| == |reviews|
    ensures forall i :: 0 <= i < |r| ==>
      r[i] == if reviews[i].checkout == c then reviews[i].(job := reviews[i].job.(laneOwner := false)) else reviews[i]
  {
    seq(|reviews|, i requires 0 <= i < |reviews| =>
      if reviews[i].checkout == c then reviews[i].(job := reviews[i].job.(laneOwner := false)) else reviews[i])
  }

  predicate Stoppable(st: R.JobState) {
    ActiveReview(st) || st == R.Failed
  }

  function CancelAll(reviews: seq<Review>, c: nat): (r: seq<Review>)
    ensures |r| == |reviews|
    ensures forall i :: 0 <= i < |r| ==>
      r[i] == if reviews[i].checkout == c && Stoppable(reviews[i].job.state)
              then reviews[i].(job := R.Cancel(reviews[i].job)) else reviews[i]
  {
    seq(|reviews|, i requires 0 <= i < |reviews| =>
      if reviews[i].checkout == c && Stoppable(reviews[i].job.state)
      then reviews[i].(job := R.Cancel(reviews[i].job)) else reviews[i])
  }

  function ForceCheckIn(s: State, situation: nat): Outcome
    requires situation < |s.fences|
  {
    var c := ActiveCheckoutOf(s.checkouts, situation, 0);
    if c == |s.checkouts| then Refuse(s, NoActiveCheckout)
    else
      var guard := PublicationGuard(s.publications, situation);
      if guard.Some? then Refuse(s, guard.value)
      else Outcome(s.(reviews := CancelAll(s.reviews, c),
                      checkouts := s.checkouts[c := s.checkouts[c].(released := true)],
                      fences := s.fences[situation := s.fences[situation] + 1]), None)
  }

  /** startOverFromProduction, and startRestorationDraft when `restoring`. */
  function StartOver(s: State, actor: nat, c: nat, fence: nat, restoring: bool, hash: Hash): Outcome {
    if !HoldsCheckout(s.checkouts, c, actor, fence) || s.checkouts[c].draft >= |s.drafts| then Refuse(s, StaleCheckout)
    else
      var checkout := s.checkouts[c];
      var guard := PublicationGuard(s.publications, checkout.situation);
      if guard.Some? then Refuse(s, guard.value)
      else if restoring && ReviewUnderway(s.reviews, checkout.situation) then Refuse(s, ReviewActive)
      else
        var archived := s.(drafts := s.drafts[checkout.draft := s.drafts[checkout.draft].(active := false)]);
        var s1 := CreateDraft(archived, checkout.situation, hash);
        Outcome(s1.(checkouts := s1.checkouts[c := checkout.(draft := |s.drafts|)]), None)
  }

  // ----- reviews -----

  /** A review of this checkout that still owns the lane. */
  predicate FocusedReview(reviews: seq<Review>, c: nat, fence: nat) {
    exists r :: 0 <= r < |reviews| && reviews[r].checkout == c && reviews[r].checkoutFence == fence
                && reviews[r].job.laneOwner && Stoppable(reviews[r].job.state)
  }

  /** `content` is the refusal of the pinned bundle or body, if they are refused. */
  function QueueReview(s: State, actor: nat, c: nat, fence: nat, revision: nat, hash: Hash, content: Option<Error>): Outcome {
    if !HoldsCheckout(s.checkouts, c, actor, fence) || s.checkouts[c].draft >= |s.drafts| then Refuse(s, StaleCheckout)
    else
      var checkout := s.checkouts[c];
      var guard := PublicationGuard(s.publications, checkout.situation);
      var head := Latest(s.drafts[checkout.draft].revisions);
      if FocusedReview(s.reviews, c, fence) then Refuse(s, ReviewFocusedUnresolved)
      else if guard.Some? then Refuse(s, guard.value)
      else if head.None? || head.value.id != revision || head.value.hash != hash then Refuse(s, StaleRevision)
      else if content.Some? then Refuse(s, content.value)
      // the unique index review_jobs_one_active_per_situation
      else if ReviewUnderway(s.reviews, checkout.situation) then Refuse(s, ReviewActive)
      else Outcome(s.(reviews := s.reviews + [
        Review(checkout.situation, c, fence, checkout.draft, revision, hash, R.NewJob())]), None)
  }

  function CancelReview(s: State, actor: nat, r: nat, revision: nat, hash: Hash): Outcome {
    if r >= |s.reviews| || !Stoppable(s.reviews[r].job.state) then Refuse(s, ReviewUnavailable)
    else
      var row := s.reviews[r];
      if row.inputRevision != revision || row.inputHash != hash then Refuse(s, StaleReview)
      else if !HoldsCheckout(s.checkouts, row.checkout, actor, row.checkoutFence) then Refuse(s, CheckoutOwnerRequired)
      else Outcome(s.(reviews := s.reviews[r := row.(job := R.Cancel(row.job))]), None)
  }

  function RetryReview(s: State, actor: nat, r: nat, revision: nat, hash: Hash): Outcome {
    if r >= |s.reviews| || s.reviews[r].job.state != R.Failed then Refuse(s, ReviewUnavailable)
    else
      var row := s.reviews[r];
      var guard := PublicationGuard(s.publications, row.situation);
      if row.inputRevision != revision || row.inputHash != hash then Refuse(s, StaleReview)
      else if !HoldsCheckout(s.checkouts, row.checkout, actor, row.checkoutFence) then Refuse(s, StaleCheckout)
      else if guard.Some? then Refuse(s, guard.value)
      else if R.FirstIn(row.job.steps, R.Broken, 0) == |row.job.steps| then Refuse(s, NoResumableStep)
      else if exists q :: 0 <= q < |s.reviews| && q != r && s.reviews[q].job.laneOwner then Refuse(s, ReviewLaneBusy)
      // the unique index review_jobs_one_active_per_situation
      else if ReviewUnderway(s.reviews, row.situation) then Refuse(s, ReviewLaneBusy)
      else Outcome(s.(reviews := s.reviews[r := row.(job := R.ManualRetry(row.job))]), None)
  }

  // ----- the review worker -----

  predicate CheckoutActive(checkouts: seq<Checkout>, row: Review) {
    row.checkout < |checkouts| && checkouts[row.checkout].fence == row.checkoutFence && !checkouts[row.checkout].released
  }

  function LaneOwner(reviews: seq<Review>, from: nat): (r: nat)
    requires from <= |reviews|
    ensures from <= r <= |reviews|
    ensures r < |reviews| ==> reviews[r].job.laneOwner
    ensures forall i :: from <= i < r ==> !reviews[i].job.laneOwner
    decreases |reviews| - from
  {
    if from == |reviews| || reviews[from].job.laneOwner then from else LaneOwner(reviews, from + 1)
  }

  /** ORDER BY queued_at, id among the QUEUED reviews whose checkout is active. */
  function NextQueued(reviews: seq<Review>, checkouts: seq<Checkout>, from: nat): (r: nat)
    requires from <= |reviews|
    ensures from <= r <= |reviews|
    ensures r < |reviews| ==> reviews[r].job.state == R.Queued && CheckoutActive(checkouts, reviews[r])
    ensures forall i :: from <= i < r ==> reviews[i].job.state != R.Queued || !CheckoutActive(checkouts, reviews[i])
    decreases |reviews| - from
  {
    if from == |reviews| || (reviews[from].job.state == R.Queued && CheckoutActive(checkouts, reviews[from])) then from
    else NextQueued(reviews, checkouts, from + 1)
  }

  function SetReviewJob(s: State, r: nat, job: R.Job): State
    requires r < |s.reviews|
  {
    s.(reviews := s.reviews[r := s.reviews[r].(job := job)])
  }

  predicate Selectable(s: State, r: nat) {
    r < |s.reviews| && CheckoutActive(s.checkouts, s.reviews[r]) && ActiveReview(s.reviews[r].job.state)
  }

  /** The focused row, after a dead owner has lost the lane and a waiting one has won it. */
  function Focus(s: State): (State, Option<nat>) {
    var owner := LaneOwner(s.reviews, 0);
    if Selectable(s, owner) then (s, Some(owner))
    else
      var s1 := if owner < |s.reviews| then SetReviewJob(s, owner, s.reviews[owner].job.(laneOwner := false)) else s;
      var next := NextQueued(s1.reviews, s1.checkouts, 0);
      if next == |s1.reviews| then (s1, None)
      else (SetReviewJob(s1, next, s1.reviews[next].job.(laneOwner := true)), Some(next))
  }

  predicate MustWait(job: R.Job, now: int) {
    || (job.state == R.Queued && job.retryNotBefore.Some? && job.retryNotBefore.value > now)
    || (job.state == R.Running && job.lease.Some? && job.lease.value >= now)
  }

  function ClaimNextReview(s: State, now: int, leaseMs: int): State {
    var focus := Focus(s);
    if focus.1.None? || focus.1.value >= |focus.0.reviews| || MustWait(focus.0.reviews[focus.1.value].job, now) then focus.0
    else
      var r := focus.1.value;
      SetReviewJob(focus.0, r, R.Claim(focus.0.reviews[r].job, s.nextToken, now, leaseMs)).(nextToken := s.nextToken + 1)
  }

  /** The proposal row: superseded from the start when the draft has moved on. */
  function WithProposal(s: State, r: nat): State
    requires r < |s.reviews| && s.reviews[r].draft < |s.drafts|
  {
    var row := s.reviews[r];
    var head := Latest(s.drafts[row.draft].revisions);
    var superseded := head.None? || head.value.id != row.inputRevision || head.value.hash != row.inputHash;
    if exists q :: 0 <= q < |s.proposals| && s.proposals[q].review == r then s
    else s.(proposals := s.proposals + [
           Proposal(r, row.draft, row.inputRevision, row.inputRevision, row.inputHash, superseded)])
  }

  /** The transaction at the end of materializeProposal. */
  function Materialize(s: State, r: nat): State
    requires r < |s.reviews| && s.reviews[r].draft < |s.drafts|
  {
    SetReviewJob(WithProposal(s, r), r, R.Complete(s.reviews[r].job))
  }

  // ----- proposals -----

  /** decideProposalChange with ACCEPT and acceptAllProposalChanges; `hash` is the
      bundle hash of the revision that the applied changes give. */
  function AcceptChanges(s: State, actor: nat, c: nat, fence: nat, q: nat, revision: nat, rhash: Hash, hash: Hash): Outcome {
    if !HoldsCheckout(s.checkouts, c, actor, fence) || s.checkouts[c].draft >= |s.drafts| then Refuse(s, StaleCheckout)
    else
      var checkout := s.checkouts[c];
      var guard := PublicationGuard(s.publications, checkout.situation);
      var head := Latest(s.drafts[checkout.draft].revisions);
      if guard.Some? then Refuse(s, guard.value)
      else if head.None? || head.value.id != revision || head.value.hash != rhash then Refuse(s, StaleRevision)
      else if q >= |s.proposals| || s.proposals[q].review >= |s.reviews|
              || s.reviews[s.proposals[q].review].situation != checkout.situation then Refuse(s, ProposalNotFound)
      else if s.proposals[q].superseded then Refuse(s, SupersededProposal)
      else if s.proposals[q].currentRevision != revision || s.proposals[q].currentHash != rhash then Refuse(s, StaleProposal)
      else
        var made := CreateRevision(s, checkout.draft, hash, Some((revision, rhash)), Some(q));
        if made.revision.None? || q >= |made.state.proposals| then Refuse(s, StaleRevision)
        else
          var created := made.revision.value;
          Outcome(made.state.(proposals := made.state.proposals[
            q := made.state.proposals[q].(currentRevision := created.id, currentHash := created.hash)]), None)
  }

  // ----- publication -----

  function FindRevision(revisions: seq<Revision>, id: nat): (r: Option<Revision>)
    ensures r.Some? ==> r.value in revisions && r.value.id == id
    ensures r.None? ==> forall x :: x in revisions ==> x.id != id
  {
    if revisions == [] then None
    else if revisions[0].id == id then Some(revisions[0]) else FindRevision(revisions[1..], id)
  }

  /** What the request finds outside these rows: whether the receipt exists; whether it
      is sealed and names this checkout, editor, revision and candidate; the refusal of
      the runtime or of the Leadership base before the transaction; and that of the
      backup or of the base inside it. */
  datatype Preflight = Preflight(found: bool, matches: bool, early: Option<Error>, late: Option<Error>)

  predicate Requested(publications: seq<Publication>, receipt: nat) {
    exists p :: 0 <= p < |publications| && publications[p].receipt == receipt
  }

  function RequestPublication(s: State, preflight: Preflight, receipt: nat, actor: nat, c: nat, fence: nat, revision: nat, hash: Hash): Outcome {
    if RecoveryPending(s.publications) then Refuse(s, PublicationRecoveryRequired)
    else if !preflight.found then Refuse(s, PreflightRequired)
    else if !preflight.matches then Refuse(s, StalePreflightReceipt)
    else if Requested(s.publications, receipt) then Outcome(s, None)
    else if preflight.early.Some? then Refuse(s, preflight.early.value)
    else if !HoldsCheckout(s.checkouts, c, actor, fence) || s.checkouts[c].draft >= |s.drafts| then Refuse(s, StalePreflightReceipt)
    else
      var checkout := s.checkouts[c];
      var draft := s.drafts[checkout.draft];
      var target := FindRevision(draft.revisions, revision);
      var guard := PublicationGuard(s.publications, checkout.situation);
      if target.None? || target.value.hash != hash
         || draft.currentNumber != target.value.number || draft.currentHash != Some(hash) then Refuse(s, StalePreflightReceipt)
      else if guard.Some? then Refuse(s, guard.value)
      else if ReviewUnderway(s.reviews, checkout.situation) then Refuse(s, ReviewActive)
      else if preflight.late.Some? then Refuse(s, preflight.late.value)
      else Outcome(s.(publications := s.publications + [
        Publication(receipt, checkout.situation, c, fence, checkout.draft, revision, hash, P.Requested)]), None)
  }

  /** The checkout and situation half of assertPublicationFence and of finalizeSuccess. */
  predicate FenceHolds(s: State, p: nat)
    requires p < |s.publications|
  {
    var job := s.publications[p];
    && job.checkout < |s.checkouts| && job.situation < |s.fences|
    && !s.checkouts[job.checkout].released
    && s.checkouts[job.checkout].fence == job.checkoutFence
    && s.fences[job.situation] == job.checkoutFence
  }

  /** Where the publisher may take a job other than by finalizeSuccess. */
  predicate MayMove(from: P.JobState, to: P.JobState) {
    Pinning(from) && to != P.Requested && to != P.Succeeded
  }

  /** The unique index publication_jobs_one_pointer_transaction lets job `p` be PROMOTING or VERIFYING. */
  predicate SlotFree(publications: seq<Publication>, p: nat) {
    forall q :: 0 <= q < |publications| && q != p ==> !P.PointerPhase(publications[q].state)
  }

  function MovePublication(s: State, p: nat, to: P.JobState): State
    requires p < |s.publications|
  {
    if MayMove(s.publications[p].state, to) && (P.PointerPhase(to) ==> SlotFree(s.publications, p))
    then s.(publications := s.publications[p := s.publications[p].(state := to)]) else s
  }

  /** finalizeSuccess: throws without effect when a fence test fails. */
  function FinalizeSuccess(s: State, p: nat): State
    requires p < |s.publications|
  {
    var job := s.publications[p];
    if job.state != P.Verifying || !FenceHolds(s, p) || job.draft >= |s.drafts| then s
    else s.(publications := s.publications[p := job.(state := P.Succeeded)],
            checkouts := s.checkouts[job.checkout := s.checkouts[job.checkout].(released := true)],
            drafts := s.drafts[job.draft := s.drafts[job.draft].(active := false)])
  }

  // ----- runs -----

  datatype Action =
    | ImportSituation
    | NewSituation(actor: nat, hash: Hash)
    | TakeCheckout(situation: nat, actor: nat, hash: Hash)
    | Save(actor: nat, c: nat, fence: nat, expected: Option<(nat, Hash)>, hash: Hash, content: Option<Error>)
    | ReturnCheckout(actor: nat, c: nat, fence: nat)
    | ForceReturn(situation: nat)
    | Restart(actor: nat, c: nat, fence: nat, restoring: bool, hash: Hash)
    | Queue(actor: nat, c: nat, fence: nat, revision: nat, hash: Hash, content: Option<Error>)
    | StopReview(actor: nat, r: nat, revision: nat, hash: Hash)
    | Resume(actor: nat, r: nat, revision: nat, hash: Hash)
    | ClaimReview(now: int, leaseMs: int)
    | WorkReview(r: nat, step: R.WorkerStep)
    | WakeLate(r: nat, process: nat)
    | Propose(r: nat)
    | Accept(actor: nat, c: nat, fence: nat, q: nat, revision: nat, rhash: Hash, hash: Hash)
    | Publish(preflight: Preflight, receipt: nat, actor: nat, c: nat, fence: nat, revision: nat, hash: Hash)
    | Move(p: nat, to: P.JobState)
    | Finalize(p: nat)

  predicate Enabled(s: State, a: Action) {
    match a
    case TakeCheckout(situation, _, _) => situation < |s.fences|
    case ForceReturn(situation) => situation < |s.fences|
    case WorkReview(r, step) => r < |s.reviews| && R.StepEnabled(s.reviews[r].job, step) && step != R.MaterializeSucceeds
    case WakeLate(r, process) => r < |s.reviews| && R.Enabled(s.reviews[r].job, R.LateDependents(process))
    case Propose(r) =>
      r < |s.reviews| && R.StepEnabled(s.reviews[r].job, R.MaterializeSucceeds) && s.reviews[r].draft < |s.drafts|
    case Move(p, to) => p < |s.publications|
    case Finalize(p) => p < |s.publications|
    case _ => true
  }

  function Apply(s: State, a: Action): State
    requires Enabled(s, a)
  {
    match a
    case ImportSituation => s.(fences := s.fences + [0])
    case NewSituation(actor, hash) => CreateSituation(s, actor, hash).state
    case TakeCheckout(situation, actor, hash) => CheckOut(s, situation, actor, hash).state
    case Save(actor, c, fence, expected, hash, content) => SaveDraft(s, actor, c, fence, expected, hash, content).state
    case ReturnCheckout(actor, c, fence) => CheckIn(s, actor, c, fence).state
    case ForceReturn(situation) => ForceCheckIn(s, situation).state
    case Restart(actor, c, fence, restoring, hash) => StartOver(s, actor, c, fence, restoring, hash).state
    case Queue(actor, c, fence, revision, hash, content) => QueueReview(s, actor, c, fence, revision, hash, content).state
    case StopReview(actor, r, revision, hash) => CancelReview(s, actor, r, revision, hash).state
    case Resume(actor, r, revision, hash) => RetryReview(s, actor, r, revision, hash).state
    case ClaimReview(now, leaseMs) => ClaimNextReview(s, now, leaseMs)
    case WorkReview(r, step) => SetReviewJob(s, r, R.Advance(s.reviews[r].job, step))
    case WakeLate(r, process) => SetReviewJob(s, r, R.Apply(s.reviews[r].job, R.LateDependents(process)))
    case Propose(r) => Materialize(s, r)
    case Accept(actor, c, fence, q, revision, rhash, hash) => AcceptChanges(s, actor, c, fence, q, revision, rhash, hash).state
    case Publish(preflight, receipt, actor, c, fence, revision, hash) => RequestPublication(s, preflight, receipt, actor, c, fence, revision, hash).state
    case Move(p, to) => MovePublication(s, p, to)
    case Finalize(p) => FinalizeSuccess(s, p)
  }

  const EMPTY := State([], [], [], [], [], [], 0, 0)

  predicate CanRun(s: State, actions: seq<Action>)
    decreases |actions|
  {
    actions == [] || (Enabled(s, actions[0]) && CanRun(Apply(s, actions[0]), actions[1..]))
  }

  function Run(s: State, actions: seq<Action>): State
    requires CanRun(s, actions)
    decreases |actions|
  {
    if actions == [] then s else Run(Apply(s, actions[0]), actions[1..])
  }
}
