/** The publisher's two-database protocol (apps/publisher/src/index.ts).

    Studio holds the publication jobs; Leadership holds the official pointer and
    the immutable releases.  Any number of workers run `processPublicationJob`
    at the same time, and every action below is one atomic database action, one
    read, or one local step of one worker.  A worker is named by the claim token
    it received, because every claim draws a new one. */
module PublicationProtocol {
  import opened Common

  type Release = nat
  type Token = nat

  /** `interval '3 minutes'` and the 180_000 ms of every renewal. */
  const LEASE_MS: int := 180_000

  datatype JobState =
    | Requested | Assembling | NeedsRefresh | Promoting | Verifying
    | Succeeded | Restored | RecoveryRequired | Failed

  /** A row of `publication_jobs` with the identity sealed by its preflight
      receipt: the candidate's release, the parent it replaces and the pointer
      generation it expects.  Rows are kept in creation order. */
  datatype Job = Job(
    state: JobState, claimToken: Option<Token>, lease: Option<int>,
    release: Release, parent: Release, expectedGeneration: nat)

  /** The row `current_release` with id 'official'. */
  datatype Pointer = Pointer(release: Release, generation: nat)

  /** An open Leadership transaction that has moved the pointer and so holds its
      row lock.  `Sent` means that COMMIT is on the wire and undecided;
      `deadline` is the lease that `beforeCommit` took. */
  datatype Phase = Open | Sent(deadline: int)
  datatype PromotionTx = PromotionTx(owner: Token, job: nat, phase: Phase)

  datatype Leadership = Leadership(
    pointer: Pointer,
    releases: set<Release>,       // rows of content_releases
    tx: Option<PromotionTx>,
    restored: set<nat>)           // jobs for which restore_release has moved the pointer

  /** Where a run of `processPublicationJob` stands. */
  datatype Pc =
    | Started | Loaded | Reconciling | Ready | Observed | Marked
    | Inserting | PromotionOpen | CommitReady | Awaiting | InnerCatch | PointerChanged
    | Checking | Activating | Probing | Finalizing
    | CatchVerified | Catching | Deciding
    | RestoreReading | RestoreReady | RestoreIssued | RestoreConfirmed | RestoreFailed
    | Exited

  /** The local variables of one run.  `clock` is the last value the process
      read from its own clock, `reply` the answer of COMMIT if it arrived. */
  datatype Worker = Worker(
    job: nat, pc: Pc, clock: int, loadedState: JobState,
    promoted: bool, promotionAttempted: bool, promotionStateKnown: bool, runtimeVerified: bool,
    before: Pointer, deadline: int, reply: Option<bool>, restoreGeneration: nat)

  /** One pass of the loop body of `reconcilePublicationRecovery`. */
  datatype Reconciler =
    | Listed(job: nat)
    | SawParent(job: nat)
    | Holding(job: nat, token: Token)
    | Finished

  datatype State = State(
    jobs: seq<Job>,
    workers: map<Token, Worker>,
    reconcilers: map<nat, Reconciler>,
    leadership: Leadership,
    succeeded: seq<nat>,          // jobs in the order in which they were finalised
    exposed: seq<nat>,            // history: jobs promoted over the last success and not restored, latest first
    initial: Release,
    now: int,                     // the clock of the Studio database
    nextToken: Token)

  // ----- state predicates -----

  predicate Owned(state: JobState) {
    state == Assembling || state == Promoting || state == Verifying
  }

  predicate PointerPhase(state: JobState) {
    state == Promoting || state == Verifying
  }

  /** The unique index on PROMOTING and VERIFYING rows lets row `j` be one. */
  predicate SlotFree(jobs: seq<Job>, j: nat) {
    forall i :: 0 <= i < |jobs| && i != j ==> !PointerPhase(jobs[i].state)
  }

  predicate InFlight(state: JobState) {
    Owned(state) || state == RecoveryRequired
  }

  predicate Terminal(state: JobState) {
    state == NeedsRefresh || state == Succeeded || state == Restored || state == Failed
  }

  predicate Running(s: State, t: Token) {
    t in s.workers && s.workers[t].job < |s.jobs|
  }

  predicate At(s: State, t: Token, pc: Pc) {
    Running(s, t) && s.workers[t].pc == pc
  }

  /** The row still carries the token this worker was given. */
  predicate Live(s: State, t: Token)
    requires Running(s, t)
  {
    s.jobs[s.workers[t].job].claimToken == Some(t)
  }

  /** `assertPublicationFence` and the `where` clauses of the claimed updates:
      the token matches and the state is ASSEMBLING, PROMOTING or VERIFYING. */
  predicate Authority(s: State, t: Token)
    requires Running(s, t)
  {
    Live(s, t) && Owned(s.jobs[s.workers[t].job].state)
  }

  predicate OnCandidate(s: State, j: nat)
    requires j < |s.jobs|
  {
    s.leadership.pointer.release == s.jobs[j].release
  }

  /** A COMMIT for this job is on the wire and the database has not decided it. */
  predicate Undecided(l: Leadership, j: nat) {
    l.tx.Some? && l.tx.value.job == j && l.tx.value.phase.Sent?
  }

  /** An undecided COMMIT whose lease has not run out. */
  predicate InDoubt(l: Leadership, now: int, j: nat) {
    Undecided(l, j) && now <= l.tx.value.phase.deadline
  }

  // ----- small updates -----

  function SetJob(s: State, j: nat, job: Job): State
    requires j < |s.jobs|
  {
    s.(jobs := s.jobs[j := job])
  }

  function SetWorker(s: State, t: Token, w: Worker): State {
    s.(workers := s.workers[t := w])
  }

  function Goto(s: State, t: Token, pc: Pc): State
    requires t in s.workers
  {
    SetWorker(s, t, s.workers[t].(pc := pc))
  }

  function Close(job: Job, state: JobState): Job {
    job.(state := state, claimToken := None, lease := None)
  }

  /** ROLLBACK, or the database noticing a lost connection. */
  function Rollback(s: State, t: Token): State {
    if s.leadership.tx.Some? && s.leadership.tx.value.owner == t && s.leadership.tx.value.phase.Open?
    then s.(leadership := s.leadership.(tx := None))
    else s
  }

  // ----- claiming -----

  predicate Eligible(job: Job, now: int) {
    || job.state == Requested
    || (Owned(job.state) && (job.lease.None? || job.lease.value < now))
  }

  predicate ActiveOwner(job: Job, jsNow: int) {
    Owned(job.state) && job.claimToken.Some? && job.lease.Some? && job.lease.value > jsNow
  }

  /** The smallest eligible position from `from` on: ORDER BY created_at, id LIMIT 1. */
  function FirstEligible(jobs: seq<Job>, now: int, from: nat): (r: Option<nat>)
    requires from <= |jobs|
    ensures r.Some? ==> from <= r.value < |jobs| && Eligible(jobs[r.value], now)
    ensures forall i :: from <= i < (if r.Some? then r.value else |jobs|) ==> !Eligible(jobs[i], now)
    decreases |jobs| - from
  {
    if from == |jobs| then None
    else if Eligible(jobs[from], now) then Some(from)
    else FirstEligible(jobs, now, from + 1)
  }

  predicate ClaimBlocked(jobs: seq<Job>, jsNow: int) {
    || (exists i :: 0 <= i < |jobs| && jobs[i].state == RecoveryRequired)
    || (exists i :: 0 <= i < |jobs| && ActiveOwner(jobs[i], jsNow))
  }

  function NewWorker(j: nat, clock: int): Worker {
    Worker(j, Started, clock, Requested, false, false, true, false, Pointer(0, 0), 0, None, 0)
  }

  function Claimed(job: Job, t: Token, now: int): Job {
    job.(state := if job.state == Requested then Assembling else job.state,
         claimToken := Some(t), lease := Some(now + LEASE_MS))
  }

  function Claim(s: State, jsNow: int): State {
    var choice := FirstEligible(s.jobs, s.now, 0);
    if ClaimBlocked(s.jobs, jsNow) || choice.None? then s
    else
      var j := choice.value;
      var t := s.nextToken;
      SetWorker(SetJob(s, j, Claimed(s.jobs[j], t, s.now)), t, NewWorker(j, jsNow)).(nextToken := t + 1)
  }

  // ----- the body of processPublicationJob -----

  /** Every renewal of the lease: the heartbeat, the explicit renewals and the
      lease written by `claimedEvent`.  It never asks whether the lease is live. */
  function Renew(s: State, t: Token, clock: int): State
    requires Running(s, t)
  {
    var w := s.workers[t];
    var job := s.jobs[w.job];
    var s1 := SetWorker(s, t, w.(clock := clock));
    if Live(s, t) && InFlight(job.state)
    then SetJob(s1, w.job, job.(lease := Some(clock + LEASE_MS)))
    else s1
  }

  /** `startPublicationAttempt` reads the row into the local variable `job`. */
  function Start(s: State, t: Token): State
    requires Running(s, t)
  {
    var w := s.workers[t];
    if Live(s, t) then SetWorker(s, t, w.(pc := Loaded, loadedState := s.jobs[w.job].state))
    else Goto(s, t, Exited)
  }

  /** The candidate is rebuilt and persisted; a reclaimed job then reconciles. */
  function Load(s: State, t: Token): State
    requires Running(s, t)
  {
    var w := s.workers[t];
    if PointerPhase(w.loadedState)
    then SetWorker(s, t, w.(pc := Reconciling, promotionAttempted := true, promotionStateKnown := false))
    else Goto(s, t, Ready)
  }

  function Reconcile(s: State, t: Token): State
    requires Running(s, t)
  {
    var w := s.workers[t];
    SetWorker(s, t, w.(pc := Ready, promotionStateKnown := true, promoted := OnCandidate(s, w.job)))
  }

  function Observe(s: State, t: Token): State
    requires Running(s, t)
  {
    var w := s.workers[t];
    SetWorker(s, t, w.(pc := Observed, before := s.leadership.pointer, promoted := OnCandidate(s, w.job)))
  }

  predicate BaseChanged(job: Job, seen: Pointer) {
    seen.release != job.release && (seen.release != job.parent || seen.generation != job.expectedGeneration)
  }

  /** Ends in NEEDS_REFRESH when the base moved, else records PROMOTING if the index
      on pointer transactions lets it. */
  function Mark(s: State, t: Token): State
    requires Running(s, t)
  {
    var w := s.workers[t];
    var job := s.jobs[w.job];
    if !Authority(s, t) then Goto(s, t, Catching)
    else if BaseChanged(job, w.before) then Goto(SetJob(s, w.job, Close(job, NeedsRefresh)), t, Exited)
    else if w.loadedState == Verifying then Goto(s, t, Marked)
    else if job.state == Verifying || !SlotFree(s.jobs, w.job) then Goto(s, t, Catching)
    else Goto(SetJob(s, w.job, job.(state := Promoting)), t, Marked)
  }

  function Branch(s: State, t: Token): State
    requires Running(s, t)
  {
    var w := s.workers[t];
    if w.before.release != s.jobs[w.job].release
    then SetWorker(s, t, w.(pc := Inserting, promotionAttempted := true, promotionStateKnown := false))
    else Goto(s, t, Checking)
  }

  /** `insertAndPromote` up to and including `leadership_studio_promote_release`.
      `validated` is the state column of a release row that already exists. */
  function Insert(s: State, t: Token, validated: bool): State
    requires Running(s, t)
  {
    var w := s.workers[t];
    var job := s.jobs[w.job];
    var l := s.leadership;
    if job.release in l.releases && l.pointer.release == job.release
    then SetWorker(s, t, w.(pc := Checking, promotionStateKnown := true, promoted := true))
    else if (job.release in l.releases && !validated) || l.pointer != Pointer(job.parent, job.expectedGeneration)
    then SetWorker(s, t, w.(pc := PointerChanged, promotionStateKnown := true))
    else if !Authority(s, t) then Goto(s, t, InnerCatch)
    else Goto(s, t, PromotionOpen).(leadership := l.(tx := Some(PromotionTx(t, w.job, Open))))
  }

  /** `beforeCommit`: renew the lease, then test the fence. */
  function ConfirmAuthority(s: State, t: Token, clock: int): State
    requires Running(s, t)
  {
    var w := s.workers[t];
    var job := s.jobs[w.job];
    if !Authority(s, t) then Goto(Rollback(s, t), t, InnerCatch)
    else
      var lease := clock + LEASE_MS;
      SetWorker(SetJob(s, w.job, job.(lease := Some(lease))), t,
                w.(pc := CommitReady, clock := clock, deadline := lease))
  }

  function SendCommit(s: State, t: Token): State
    requires Running(s, t)
  {
    var w := s.workers[t];
    SetWorker(s, t, w.(pc := Awaiting, reply := None)).(
      leadership := s.leadership.(tx := Some(PromotionTx(t, w.job, Sent(w.deadline)))))
  }

  /** Leadership decides the COMMIT on the wire.  A commit is the
      compare-and-swap taking effect: the generation rises by one. */
  function DecideCommit(s: State, ok: bool): State
    requires s.leadership.tx.Some? && s.leadership.tx.value.job < |s.jobs|
  {
    var tx := s.leadership.tx.value;
    var job := s.jobs[tx.job];
    var l := s.leadership.(tx := None);
    var l' := if ok
              then l.(pointer := Pointer(job.release, l.pointer.generation + 1), releases := l.releases + {job.release})
              else l;
    var s1 := s.(leadership := l', exposed := if ok then [tx.job] + s.exposed else s.exposed);
    if tx.owner in s.workers && s.workers[tx.owner].pc == Awaiting
    then SetWorker(s1, tx.owner, s.workers[tx.owner].(reply := Some(ok)))
    else s1
  }

  function Acknowledge(s: State, t: Token): State
    requires Running(s, t) && s.workers[t].reply.Some?
  {
    var w := s.workers[t];
    if w.reply.value then SetWorker(s, t, w.(pc := Checking, promotionStateKnown := true, promoted := true))
    else Goto(s, t, InnerCatch)
  }

  /** The inner catch of the promotion: `reconcileAmbiguousPromotion`. */
  function ReconcileCommit(s: State, t: Token): State
    requires Running(s, t)
  {
    var w := s.workers[t];
    if OnCandidate(s, w.job) then SetWorker(s, t, w.(pc := Checking, promotionStateKnown := true, promoted := true))
    else SetWorker(s, t, w.(pc := Catching, promotionStateKnown := true))
  }

  function Refresh(s: State, t: Token): State
    requires Running(s, t)
  {
    var w := s.workers[t];
    if !Authority(s, t) then Goto(s, t, Catching)
    else Goto(SetJob(s, w.job, Close(s.jobs[w.job], NeedsRefresh)), t, Exited)
  }

  /** `promotedIdentity` is read back before anything depends on it. */
  function Check(s: State, t: Token): State
    requires Running(s, t)
  {
    var w := s.workers[t];
    SetWorker(s, t, w.(promoted := OnCandidate(s, w.job), pc := if OnCandidate(s, w.job) then Activating else Catching))
  }

  function Activate(s: State, t: Token): State
    requires Running(s, t)
  {
    var w := s.workers[t];
    if !Authority(s, t) || !SlotFree(s.jobs, w.job) then Goto(s, t, Catching)
    else Goto(SetJob(s, w.job, s.jobs[w.job].(state := Verifying)), t, Probing)
  }

  /** Every runtime probe succeeded. */
  function Verify(s: State, t: Token): State
    requires Running(s, t)
  {
    SetWorker(s, t, s.workers[t].(pc := Finalizing, runtimeVerified := true))
  }

  /** `finalizeSuccess`.  `fenced` is the checkout and situation half of its test. */
  function Finalize(s: State, t: Token, fenced: bool): State
    requires Running(s, t)
  {
    var w := s.workers[t];
    var job := s.jobs[w.job];
    if fenced || !Live(s, t) || job.state != Verifying then Goto(s, t, CatchVerified)
    else Goto(SetJob(s, w.job, Close(job, Succeeded)), t, Exited).(
           succeeded := s.succeeded + [w.job], exposed := [])
  }

  // ----- the catch block -----

  /** After verification a failure never restores; it gives the claim back. */
  function ReleaseClaim(s: State, t: Token): State
    requires Running(s, t)
  {
    var w := s.workers[t];
    var job := s.jobs[w.job];
    if Live(s, t) && job.state == Verifying
    then Goto(SetJob(s, w.job, job.(claimToken := None, lease := None)), t, Exited)
    else Goto(s, t, Exited)
  }

  predicate StateUnknown(w: Worker) {
    w.promotionAttempted && !w.promotionStateKnown
  }

  /** The second reconciliation; `reachable` is false when Leadership cannot be read. */
  function CatchReconcile(s: State, t: Token, reachable: bool): State
    requires Running(s, t)
  {
    var w := s.workers[t];
    if StateUnknown(w) && reachable
    then SetWorker(s, t, w.(pc := Deciding, promoted := OnCandidate(s, w.job), promotionStateKnown := true))
    else Goto(s, t, Deciding)
  }

  /** Restore, ask for recovery, or fail: the three branches of the catch block. */
  function Decide(s: State, t: Token): State
    requires Running(s, t)
  {
    var w := s.workers[t];
    var job := s.jobs[w.job];
    if w.promoted then
      if Live(s, t) && PointerPhase(job.state)
      then Goto(SetJob(s, w.job, job.(state := RecoveryRequired)), t, RestoreReading)
      else Goto(s, t, Exited)
    else if !(Live(s, t) && (job.state == Requested || Owned(job.state))) then Goto(s, t, Exited)
    else Goto(SetJob(s, w.job, Close(job, if StateUnknown(w) then RecoveryRequired else Failed)), t, Exited)
  }

  function RestoreRead(s: State, t: Token): State
    requires Running(s, t)
  {
    SetWorker(s, t, s.workers[t].(pc := RestoreReady, restoreGeneration := s.leadership.pointer.generation))
  }

  /** `leadership_studio_restore_release`: a compare-and-swap back to the parent. */
  function RestoreCas(s: State, t: Token): State
    requires Running(s, t)
  {
    var w := s.workers[t];
    var job := s.jobs[w.job];
    var l := s.leadership;
    if l.pointer != Pointer(job.release, w.restoreGeneration) then Goto(s, t, RestoreFailed)
    else Goto(s, t, RestoreIssued).(
           leadership := l.(pointer := Pointer(job.parent, l.pointer.generation + 1), restored := l.restored + {w.job}),
           exposed := if s.exposed == [] then [] else s.exposed[1..])
  }

  function RestoreCheck(s: State, t: Token, runtimeAgrees: bool): State
    requires Running(s, t)
  {
    var w := s.workers[t];
    Goto(s, t, if runtimeAgrees && s.leadership.pointer.release == s.jobs[w.job].parent
               then RestoreConfirmed else RestoreFailed)
  }

  /** The terminal state after a restoration attempt. */
  function Conclude(s: State, t: Token): State
    requires Running(s, t)
  {
    var w := s.workers[t];
    var job := s.jobs[w.job];
    if !(Live(s, t) && job.state == RecoveryRequired) then Goto(s, t, Exited)
    else Goto(SetJob(s, w.job, Close(job, if w.pc == RestoreConfirmed then Restored else RecoveryRequired)), t, Exited)
  }

  /** Where an exception thrown at this point is caught. */
  function Handler(pc: Pc): Pc {
    match pc
    case Loaded => Catching
    case Reconciling => Catching
    case Ready => Catching
    case Observed => Catching
    case Marked => Catching
    case Inserting => InnerCatch
    case PromotionOpen => InnerCatch
    case CommitReady => InnerCatch
    case Awaiting => InnerCatch
    case InnerCatch => Catching
    case PointerChanged => Catching
    case Checking => Catching
    case Activating => Catching
    case Probing => Catching
    case Finalizing => CatchVerified
    case RestoreReading => RestoreFailed
    case RestoreReady => RestoreFailed
    case RestoreIssued => RestoreFailed
    case _ => Exited
  }

  function Throw(s: State, t: Token): State
    requires Running(s, t)
  {
    Goto(Rollback(s, t), t, Handler(s.workers[t].pc))
  }

  function Crash(s: State, t: Token): State
    requires Running(s, t)
  {
    Goto(Rollback(s, t), t, Exited)
  }

  // ----- recovery reconciliation -----

  function ClaimRecovery(s: State, r: nat, jsNow: int): State
    requires r in s.reconcilers && s.reconcilers[r].SawParent? && s.reconcilers[r].job < |s.jobs|
  {
    var j := s.reconcilers[r].job;
    var job := s.jobs[j];
    if job.state == RecoveryRequired && (job.claimToken.None? || job.lease.None? || job.lease.value < jsNow)
    then SetJob(s, j, job.(claimToken := Some(s.nextToken), lease := Some(jsNow + LEASE_MS))).(
           reconcilers := s.reconcilers[r := Holding(j, s.nextToken)], nextToken := s.nextToken + 1)
    else s.(reconcilers := s.reconcilers[r := Finished])
  }

  function ConcludeRecovery(s: State, r: nat): State
    requires r in s.reconcilers && s.reconcilers[r].Holding? && s.reconcilers[r].job < |s.jobs|
  {
    var j := s.reconcilers[r].job;
    var job := s.jobs[j];
    var s1 := s.(reconcilers := s.reconcilers[r := Finished]);
    if job.state == RecoveryRequired && job.claimToken == Some(s.reconcilers[r].token)
    then SetJob(s1, j, Close(job, Restored))
    else s1
  }

  // ----- actions and runs -----

  /** One step of a run of `processPublicationJob`. */
  datatype Step =
    | RenewLease(clock: int)
    | StartAttempt
    | LoadCandidate
    | ReconcileReclaimed
    | ObservePointer
    | MarkPromoting
    | ChooseBranch
    | InsertAndPromote(validated: bool)
    | BeforeCommit(clock: int)
    | IssueCommit
    | ReceiveReply
    | ReconcileAmbiguous
    | RecordConflict
    | CheckPromotion
    | RecordVerifying
    | RuntimeVerified
    | FinalizeSuccess(fenced: bool)
    | SuppressRestoration
    | CatchReconciliation(reachable: bool)
    | CatchBranch
    | ReadForRestore
    | RestoreRelease
    | CheckRestoration(runtimeAgrees: bool)
    | ConcludeRestoration
    | Fail
    | Die

  /** When the program text, or a row lock, lets the worker take the step. */
  predicate StepEnabled(s: State, t: Token, step: Step) {
    Running(s, t) &&
    var w := s.workers[t];
    match step
    case RenewLease(clock) => w.pc != Exited && w.clock <= clock
    case StartAttempt => w.pc == Started
    case LoadCandidate => w.pc == Loaded
    case ReconcileReclaimed => w.pc == Reconciling
    case ObservePointer => w.pc == Ready
    case MarkPromoting => w.pc == Observed
    case ChooseBranch => w.pc == Marked
    case InsertAndPromote(_) => w.pc == Inserting && s.leadership.tx.None?
    case BeforeCommit(clock) => w.pc == PromotionOpen && w.clock <= clock
    case IssueCommit => w.pc == CommitReady
    case ReceiveReply => w.pc == Awaiting && w.reply.Some?
    case ReconcileAmbiguous => w.pc == InnerCatch
    case RecordConflict => w.pc == PointerChanged
    case CheckPromotion => w.pc == Checking
    case RecordVerifying => w.pc == Activating
    case RuntimeVerified => w.pc == Probing
    case FinalizeSuccess(_) => w.pc == Finalizing
    case SuppressRestoration => w.pc == CatchVerified
    case CatchReconciliation(_) => w.pc == Catching
    case CatchBranch => w.pc == Deciding
    case ReadForRestore => w.pc == RestoreReading
    case RestoreRelease => w.pc == RestoreReady && s.leadership.tx.None?
    case CheckRestoration(_) => w.pc == RestoreIssued
    case ConcludeRestoration => w.pc == RestoreConfirmed || w.pc == RestoreFailed
    case Fail => w.pc != Exited && w.pc != Catching
    case Die => true
  }

  function Advance(s: State, t: Token, step: Step): State
    requires StepEnabled(s, t, step)
  {
    match step
    case RenewLease(clock) => Renew(s, t, clock)
    case StartAttempt => Start(s, t)
    case LoadCandidate => Load(s, t)
    case ReconcileReclaimed => Reconcile(s, t)
    case ObservePointer => Observe(s, t)
    case MarkPromoting => Mark(s, t)
    case ChooseBranch => Branch(s, t)
    case InsertAndPromote(validated) => Insert(s, t, validated)
    case BeforeCommit(clock) => ConfirmAuthority(s, t, clock)
    case IssueCommit => SendCommit(s, t)
    case ReceiveReply => Acknowledge(s, t)
    case ReconcileAmbiguous => ReconcileCommit(s, t)
    case RecordConflict => Refresh(s, t)
    case CheckPromotion => Check(s, t)
    case RecordVerifying => Activate(s, t)
    case RuntimeVerified => Verify(s, t)
    case FinalizeSuccess(fenced) => Finalize(s, t, fenced)
    case SuppressRestoration => ReleaseClaim(s, t)
    case CatchReconciliation(reachable) => CatchReconcile(s, t, reachable)
    case CatchBranch => Decide(s, t)
    case ReadForRestore => RestoreRead(s, t)
    case RestoreRelease => RestoreCas(s, t)
    case CheckRestoration(runtimeAgrees) => RestoreCheck(s, t, runtimeAgrees)
    case ConcludeRestoration => Conclude(s, t)
    case Fail => Throw(s, t)
    case Die => Crash(s, t)
  }

  datatype Action =
    | Work(t: Token, step: Step)
    | RequestJob(release: Release, parent: Release, generation: nat)
    | ClaimJob(jsNow: int)
    | CommitDecision(ok: bool)
    | Tick(ms: nat)
    | ListRecovery(r: nat, job: nat)
    | SeeParent(r: nat)
    | TakeRecovery(r: nat, jsNow: int)
    | FinishRecovery(r: nat)

  predicate FreshRelease(s: State, release: Release) {
    release != s.initial && release !in s.leadership.releases &&
    forall j :: 0 <= j < |s.jobs| ==> s.jobs[j].release != release
  }

  predicate Enabled(s: State, a: Action) {
    match a
    case Work(t, step) => StepEnabled(s, t, step)
    case RequestJob(release, parent, _) => FreshRelease(s, release) && parent != release
    case ClaimJob(_) => true
    case CommitDecision(_) =>
      s.leadership.tx.Some? && s.leadership.tx.value.phase.Sent? && s.leadership.tx.value.job < |s.jobs|
    case Tick(_) => true
    case ListRecovery(r, j) => r !in s.reconcilers && j < |s.jobs| && s.jobs[j].state == RecoveryRequired
    case SeeParent(r) =>
      && r in s.reconcilers && s.reconcilers[r].Listed? && s.reconcilers[r].job < |s.jobs|
      && s.leadership.pointer.release == s.jobs[s.reconcilers[r].job].parent
    case TakeRecovery(r, _) => r in s.reconcilers && s.reconcilers[r].SawParent? && s.reconcilers[r].job < |s.jobs|
    case FinishRecovery(r) => r in s.reconcilers && s.reconcilers[r].Holding? && s.reconcilers[r].job < |s.jobs|
  }

  function Apply(s: State, a: Action): State
    requires Enabled(s, a)
  {
    match a
    case Work(t, step) => Advance(s, t, step)
    case RequestJob(release, parent, generation) =>
      s.(jobs := s.jobs + [Job(Requested, None, None, release, parent, generation)])
    case ClaimJob(jsNow) => Claim(s, jsNow)
    case CommitDecision(ok) => DecideCommit(s, ok)
    case Tick(ms) => s.(now := s.now + ms)
    case ListRecovery(r, j) => s.(reconcilers := s.reconcilers[r := Listed(j)])
    case SeeParent(r) => s.(reconcilers := s.reconcilers[r := SawParent(s.reconcilers[r].job)])
    case TakeRecovery(r, jsNow) => ClaimRecovery(s, r, jsNow)
    case FinishRecovery(r) => ConcludeRecovery(s, r)
  }

  predicate Init(s: State) {
    && s.jobs == [] && s.workers == map[] && s.reconcilers == map[] && s.succeeded == [] && s.exposed == []
    && s.leadership.tx.None? && s.leadership.restored == {}
    && s.leadership.pointer.release == s.initial && s.initial in s.leadership.releases
  }

  // ----- what the environment must grant -----

  /** The lines between `startPublicationAttempt` and the reconciliation of a
      reclaimed job do not throw while the claim is held. */
  predicate CleanReclaim(s: State, t: Token)
    requires Running(s, t)
  {
    s.workers[t].pc == Loaded && PointerPhase(s.workers[t].loadedState) ==> !Live(s, t)
  }

  /** A COMMIT takes effect only within the lease that `beforeCommit` took. */
  predicate CommitWithinLease(s: State)
    requires s.leadership.tx.Some? && s.leadership.tx.value.phase.Sent?
  {
    s.now <= s.leadership.tx.value.phase.deadline
  }

  /** A reconciling read happens when no COMMIT of the job can still take effect. */
  predicate StepGranted(s: State, t: Token, step: Step)
    requires StepEnabled(s, t, step)
  {
    var w := s.workers[t];
    match step
    case Fail => CleanReclaim(s, t)
    case ReconcileReclaimed => !InDoubt(s.leadership, s.now, w.job)
    case ReconcileAmbiguous => !InDoubt(s.leadership, s.now, w.job)
    case CatchReconciliation(reachable) => StateUnknown(w) && reachable ==> !InDoubt(s.leadership, s.now, w.job)
    case _ => true
  }

  predicate Granted(s: State, a: Action)
    requires Enabled(s, a)
  {
    match a
    case Work(t, step) => StepGranted(s, t, step)
    case CommitDecision(ok) => ok ==> CommitWithinLease(s)
    case SeeParent(r) => !InDoubt(s.leadership, s.now, s.reconcilers[r].job)
    case _ => true
  }

  /** `actions` can be taken one after another from `s`. */
  predicate CanRun(s: State, actions: seq<Action>)
    decreases |actions|
  {
    actions == [] || (Enabled(s, actions[0]) && CanRun(Apply(s, actions[0]), actions[1..]))
  }

  function Run(s: State, actions: seq<Action>): State
    requires CanRun(s, actions)
    decreases |actions|
  {
    if actions == [] then s else Run(Apply(s, actions[0]), actions[1..])
  }

  /** The environment grants every step of the run. */
  predicate GrantedRun(s: State, actions: seq<Action>)
    requires CanRun(s, actions)
    decreases |actions|
  {
    actions == [] || (Granted(s, actions[0]) && GrantedRun(Apply(s, actions[0]), actions[1..]))
  }

  /** The release of the most recent SUCCEEDED job, else the initial release. */
  function OfficialRelease(jobs: seq<Job>, succeeded: seq<nat>, initial: Release): Release
    requires forall k :: 0 <= k < |succeeded| ==> succeeded[k] < |jobs|
  {
    if succeeded == [] then initial else jobs[succeeded[|succeeded| - 1]].release
  }
}
