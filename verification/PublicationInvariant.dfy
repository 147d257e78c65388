/** The inductive invariant of the publication protocol and the proof that every
    action keeps it. */
module PublicationInvariant {
  import opened Common
  import opened PublicationProtocol

  predicate JobIdentities(jobs: seq<Job>, initial: Release, nextToken: Token) {
    && (forall i, j :: 0 <= i < |jobs| && 0 <= j < |jobs| && i != j ==> jobs[i].release != jobs[j].release)
    && (forall i :: 0 <= i < |jobs| ==> jobs[i].release != initial && jobs[i].release != jobs[i].parent)
    && (forall i :: 0 <= i < |jobs| && jobs[i].claimToken.Some? ==> jobs[i].claimToken.value < nextToken)
  }

  predicate WorkerIdentities(jobs: seq<Job>, workers: map<Token, Worker>, nextToken: Token) {
    forall t :: t in workers ==> t < nextToken && workers[t].job < |jobs|
  }

  /** The unique index on PROMOTING and VERIFYING rows. */
  predicate OnePointer(jobs: seq<Job>) {
    forall i, j :: 0 <= i < |jobs| && 0 <= j < |jobs| && PointerPhase(jobs[i].state) && PointerPhase(jobs[j].state) ==> i == j
  }

  predicate HistoryOk(jobs: seq<Job>, succeeded: seq<nat>) {
    && (forall k :: 0 <= k < |succeeded| ==> succeeded[k] < |jobs| && jobs[succeeded[k]].state == Succeeded)
    && (forall j :: 0 <= j < |jobs| && jobs[j].state == Succeeded ==> j in succeeded)
  }

  predicate MayBeOfficial(state: JobState) {
    PointerPhase(state) || state == RecoveryRequired
  }

  /** The release under the `i`-th exposed candidate. */
  function Beneath(jobs: seq<Job>, exposed: seq<nat>, official: Release, i: nat): Release
    requires i < |exposed| && forall k :: 0 <= k < |exposed| ==> exposed[k] < |jobs|
  {
    if i + 1 < |exposed| then jobs[exposed[i + 1]].release else official
  }

  /** One exposed candidate: promoted, not restored, and in recovery unless it is on top. */
  predicate Link(jobs: seq<Job>, l: Leadership, exposed: seq<nat>, official: Release, i: nat)
    requires i < |exposed| && forall k :: 0 <= k < |exposed| ==> exposed[k] < |jobs|
  {
    var job := jobs[exposed[i]];
    && (if i == 0 then MayBeOfficial(job.state) else job.state == RecoveryRequired)
    && job.release in l.releases && exposed[i] !in l.restored
    && job.parent == Beneath(jobs, exposed, official, i)
  }

  /** From the official pointer the parents lead down to the last success. */
  predicate PointerOk(jobs: seq<Job>, l: Leadership, exposed: seq<nat>, official: Release) {
    && (forall i :: 0 <= i < |exposed| ==> exposed[i] < |jobs|)
    && (forall i :: 0 <= i < |exposed| ==> Link(jobs, l, exposed, official, i))
    && (forall i, k :: 0 <= i < k < |exposed| ==> exposed[i] != exposed[k])
    && l.pointer.release == if exposed == [] then official else jobs[exposed[0]].release
  }

  predicate JobOk(j: nat, job: Job, l: Leadership, now: int) {
    && (job.claimToken.None? <==> job.lease.None?)
    && (job.claimToken.Some? ==> InFlight(job.state))
    && (l.pointer.release == job.release ==> MayBeOfficial(job.state) || job.state == Succeeded)
    && (l.pointer.release == job.release && l.tx.Some? ==> !PointerPhase(job.state))
    && (InDoubt(l, now, j) ==> MayBeOfficial(job.state))
    && (InDoubt(l, now, j) && job.state == RecoveryRequired ==> job.claimToken.None?)
    && (job.release in l.releases ==> job.expectedGeneration < l.pointer.generation)
    && (j in l.restored ==> job.release in l.releases && (job.state == RecoveryRequired || job.state == Restored))
  }

  predicate JobsOk(jobs: seq<Job>, l: Leadership, now: int) {
    && (forall j :: 0 <= j < |jobs| ==> JobOk(j, jobs[j], l, now))
    && (forall j :: j in l.restored ==> j < |jobs|)
  }

  /** A worker whose COMMIT may still take effect has not concluded anything. */
  predicate WaitsForDecision(w: Worker) {
    || w.pc == Awaiting || w.pc == InnerCatch || w.pc == Exited
    || ((w.pc == Catching || w.pc == Deciding) && StateUnknown(w))
  }

  predicate TxShape(tx: PromotionTx, w: Worker, job: Job, l: Leadership, now: int) {
    && w.job == tx.job
    && l.pointer == Pointer(job.parent, job.expectedGeneration)
    && (tx.phase.Open? ==> w.pc == PromotionOpen || w.pc == CommitReady)
    && (tx.phase.Sent? ==> tx.phase.deadline <= w.clock + LEASE_MS)
    && (tx.phase.Sent? && now <= tx.phase.deadline && PointerPhase(job.state) ==>
          && job.claimToken == Some(tx.owner)
          && job.lease.Some? && tx.phase.deadline <= job.lease.value
          && WaitsForDecision(w))
  }

  predicate TxOk(jobs: seq<Job>, workers: map<Token, Worker>, l: Leadership, now: int) {
    l.tx.Some? ==>
      && l.tx.value.job < |jobs| && l.tx.value.owner in workers
      && TxShape(l.tx.value, workers[l.tx.value.owner], jobs[l.tx.value.job], l, now)
  }

  predicate Restoring(pc: Pc) {
    pc == RestoreReading || pc == RestoreReady || pc == RestoreIssued || pc == RestoreConfirmed || pc == RestoreFailed
  }

  /** The flags say what is true, or say that it is unknown. */
  predicate FlagsSound(w: Worker, job: Job, l: Leadership, now: int) {
    if StateUnknown(w) then !w.promoted
    else w.promoted == (l.pointer.release == job.release) && !InDoubt(l, now, w.job)
  }

  predicate Informed(w: Worker, job: Job, l: Leadership, now: int) {
    !StateUnknown(w) && FlagsSound(w, job, l, now)
  }

  predicate InPromotion(w: Worker, job: Job) {
    PointerPhase(job.state) && StateUnknown(w) && !w.promoted
  }

  /** Whether the candidate was official when the worker looked is still true. */
  predicate SawCandidate(w: Worker, job: Job, l: Leadership) {
    w.before.release == job.release <==> l.pointer.release == job.release
  }

  /** What a worker that still holds the claim knows at each point. */
  predicate LiveOk(t: Token, w: Worker, job: Job, l: Leadership, now: int) {
    match w.pc
    case Started => Owned(job.state) && !w.promoted && !w.promotionAttempted
    case Loaded => Owned(job.state) && job.state == w.loadedState && !w.promoted && !w.promotionAttempted
    case Reconciling => InPromotion(w, job) && job.state == w.loadedState
    case Ready => Owned(job.state) && job.state == w.loadedState && Informed(w, job, l, now)
    case Observed =>
      Owned(job.state) && job.state == w.loadedState && Informed(w, job, l, now) && SawCandidate(w, job, l)
    case Marked => PointerPhase(job.state) && Informed(w, job, l, now) && SawCandidate(w, job, l)
    case Inserting => InPromotion(w, job) && l.pointer.release != job.release && !InDoubt(l, now, w.job)
    case PromotionOpen => InPromotion(w, job)
    case CommitReady =>
      && InPromotion(w, job)
      && job.lease.Some? && w.deadline <= job.lease.value
    case Awaiting =>
      && InPromotion(w, job)
      && (w.reply.Some? ==> w.reply.value == (l.pointer.release == job.release) && !InDoubt(l, now, w.job))
    case InnerCatch => InPromotion(w, job)
    case PointerChanged => PointerPhase(job.state) && Informed(w, job, l, now) && !w.promoted
    case Checking => PointerPhase(job.state) && Informed(w, job, l, now) && w.promoted
    case Activating => PointerPhase(job.state) && Informed(w, job, l, now) && w.promoted
    case Probing => job.state == Verifying && Informed(w, job, l, now) && w.promoted
    case Finalizing => job.state == Verifying && Informed(w, job, l, now) && w.promoted
    case CatchVerified => job.state == Verifying && l.pointer.release == job.release
    case Catching => Owned(job.state) && FlagsSound(w, job, l, now)
    case Deciding => Owned(job.state) && FlagsSound(w, job, l, now)
    case Exited => true
    case _ => job.state == RecoveryRequired
  }

  predicate WorkerOk(t: Token, w: Worker, job: Job, l: Leadership, now: int) {
    && (Restoring(w.pc) ==> job.state == RecoveryRequired || job.state == Restored)
    && (w.pc == RestoreIssued || w.pc == RestoreConfirmed ==> w.job in l.restored)
    && (w.pc == PromotionOpen || w.pc == CommitReady ==> l.tx == Some(PromotionTx(t, w.job, Open)))
    && (w.pc == CommitReady ==> w.deadline <= w.clock + LEASE_MS)
    && (w.pc == CommitReady && job.claimToken != Some(t) ==> w.deadline < now)
    && (job.claimToken == Some(t) ==> LiveOk(t, w, job, l, now))
  }

  predicate WorkersOk(jobs: seq<Job>, workers: map<Token, Worker>, l: Leadership, now: int) {
    forall t :: t in workers ==> workers[t].job < |jobs| && WorkerOk(t, workers[t], jobs[workers[t].job], l, now)
  }

  predicate ReconcilerOk(p: Reconciler, job: Job, workers: map<Token, Worker>, l: Leadership, exposed: seq<nat>, now: int, nextToken: Token)
    requires !p.Finished?
  {
    && (job.state == RecoveryRequired || job.state == Restored)
    && (p.SawParent? || p.Holding? ==> p.job !in exposed && !InDoubt(l, now, p.job))
    && (p.Holding? ==> p.token < nextToken && p.token !in workers)
  }

  predicate ReconcilersOk(
    jobs: seq<Job>, workers: map<Token, Worker>, reconcilers: map<nat, Reconciler>,
    l: Leadership, exposed: seq<nat>, now: int, nextToken: Token)
  {
    forall r :: r in reconcilers && !reconcilers[r].Finished? ==>
      && reconcilers[r].job < |jobs|
      && ReconcilerOk(reconcilers[r], jobs[reconcilers[r].job], workers, l, exposed, now, nextToken)
  }

  predicate Inv(s: State) {
    && JobIdentities(s.jobs, s.initial, s.nextToken)
    && WorkerIdentities(s.jobs, s.workers, s.nextToken)
    && OnePointer(s.jobs)
    && HistoryOk(s.jobs, s.succeeded)
    && PointerOk(s.jobs, s.leadership, s.exposed, OfficialRelease(s.jobs, s.succeeded, s.initial))
    && JobsOk(s.jobs, s.leadership, s.now)
    && TxOk(s.jobs, s.workers, s.leadership, s.now)
    && WorkersOk(s.jobs, s.workers, s.leadership, s.now)
    && ReconcilersOk(s.jobs, s.workers, s.reconcilers, s.leadership, s.exposed, s.now, s.nextToken)
  }

  lemma InitKeeps(s: State)
    requires Init(s)
    ensures Inv(s)
  {
  }

  // ----- steps that touch nothing but the worker -----

  /** A worker with a transaction does not leave it, and one whose COMMIT may
      still take effect goes on waiting. */
  predicate KeepsWaiting(l: Leadership, now: int, t: Token, job: Job, w: Worker, w': Worker) {
    l.tx.Some? && l.tx.value.owner == t ==>
      && (l.tx.value.phase.Open? ==> w'.pc == PromotionOpen || w'.pc == CommitReady)
      && (InDoubt(l, now, w.job) && job.claimToken == Some(t) && WaitsForDecision(w) ==> WaitsForDecision(w'))
      && w.clock <= w'.clock
  }

  lemma LocalStep(s: State, t: Token, w: Worker)
    requires Inv(s) && Running(s, t) && w.job == s.workers[t].job
    requires WorkerOk(t, w, s.jobs[w.job], s.leadership, s.now)
    requires KeepsWaiting(s.leadership, s.now, t, s.jobs[w.job], s.workers[t], w)
    ensures Inv(SetWorker(s, t, w))
  {
  }

  // ----- steps of the claim holder on its own row -----

  predicate SameIdentity(job: Job, job': Job) {
    job'.release == job.release && job'.parent == job.parent && job'.expectedGeneration == job.expectedGeneration
  }

  function RecordSuccess(succeeded: seq<nat>, j: nat, job: Job): seq<nat> {
    if job.state == Succeeded then succeeded + [j] else succeeded
  }

  lemma HistoryAfter(jobs: seq<Job>, succeeded: seq<nat>, initial: Release, j: nat, job': Job)
    requires j < |jobs| && HistoryOk(jobs, succeeded) && InFlight(jobs[j].state)
    requires job'.release == jobs[j].release
    ensures HistoryOk(jobs[j := job'], RecordSuccess(succeeded, j, job'))
    ensures OfficialRelease(jobs[j := job'], RecordSuccess(succeeded, j, job'), initial)
         == if job'.state == Succeeded then job'.release else OfficialRelease(jobs, succeeded, initial)
  {
    var jobs', succeeded' := jobs[j := job'], RecordSuccess(succeeded, j, job');
    forall i | 0 <= i < |jobs'| && jobs'[i].state == Succeeded ensures i in succeeded' {
      if i != j { assert i in succeeded; }
    }
  }

  /** A finalised job is the last success, and nothing stands over it. */
  function Settle(exposed: seq<nat>, job: Job): seq<nat> {
    if job.state == Succeeded then [] else exposed
  }

  /** The top of the exposed candidates keeps a state in which it may be official, the
      others stay in recovery. */
  predicate KeepsExposed(exposed: seq<nat>, j: nat, job': Job) {
    forall i :: 0 <= i < |exposed| && exposed[i] == j ==>
      if i == 0 then MayBeOfficial(job'.state) else job'.state == RecoveryRequired
  }

  lemma PointerAfter(jobs: seq<Job>, l: Leadership, exposed: seq<nat>, official: Release, j: nat, job': Job)
    requires j < |jobs| && PointerOk(jobs, l, exposed, official) && SameIdentity(jobs[j], job')
    requires if job'.state == Succeeded then l.pointer.release == job'.release else KeepsExposed(exposed, j, job')
    ensures PointerOk(jobs[j := job'], l, Settle(exposed, job'), if job'.state == Succeeded then job'.release else official)
  {
    if job'.state != Succeeded {
      var jobs' := jobs[j := job'];
      forall i | 0 <= i < |exposed|
        ensures Link(jobs', l, exposed, official, i)
      {
        assert Link(jobs, l, exposed, official, i);
      }
    }
  }

  /** What the claim holder may write into its own row. */
  predicate OwnedWrite(t: Token, j: nat, job: Job, job': Job, l: Leadership, now: int) {
    && job.claimToken == Some(t) && SameIdentity(job, job')
    && (job'.claimToken == Some(t) || job'.claimToken == None)
    && job'.state != Requested
    && (job.state == RecoveryRequired ==> job'.state == RecoveryRequired || (job'.state == Restored && j in l.restored))
    && (job'.state == Succeeded ==> l.pointer.release == job'.release)
    && JobOk(j, job, l, now) && JobOk(j, job', l, now)
  }

  lemma TxAfter(s: State, t: Token, w: Worker, job: Job)
    requires Running(s, t) && w.job == s.workers[t].job
    requires OwnedWrite(t, w.job, s.jobs[w.job], job, s.leadership, s.now)
    requires TxOk(s.jobs, s.workers, s.leadership, s.now)
    requires KeepsWaiting(s.leadership, s.now, t, s.jobs[w.job], s.workers[t], w)
    requires InDoubt(s.leadership, s.now, w.job) && PointerPhase(job.state) ==>
      job.claimToken == Some(t) && job.lease.Some? && s.leadership.tx.value.phase.deadline <= job.lease.value
    ensures TxOk(s.jobs[w.job := job], s.workers[t := w], s.leadership, s.now)
  {
  }

  lemma WorkersAfter(s: State, t: Token, w: Worker, job: Job)
    requires Running(s, t) && w.job == s.workers[t].job
    requires OwnedWrite(t, w.job, s.jobs[w.job], job, s.leadership, s.now)
    requires WorkersOk(s.jobs, s.workers, s.leadership, s.now)
    requires WorkerOk(t, w, job, s.leadership, s.now)
    ensures WorkersOk(s.jobs[w.job := job], s.workers[t := w], s.leadership, s.now)
  {
    var jobs, workers := s.jobs[w.job := job], s.workers[t := w];
    forall u | u in workers ensures workers[u].job < |jobs| && WorkerOk(u, workers[u], jobs[workers[u].job], s.leadership, s.now) {
      if u != t { assert WorkerOk(u, s.workers[u], s.jobs[s.workers[u].job], s.leadership, s.now); }
    }
  }

  lemma ReconcilersAfter(s: State, t: Token, w: Worker, job: Job)
    requires Running(s, t) && w.job == s.workers[t].job
    requires OwnedWrite(t, w.job, s.jobs[w.job], job, s.leadership, s.now)
    requires ReconcilersOk(s.jobs, s.workers, s.reconcilers, s.leadership, s.exposed, s.now, s.nextToken)
    ensures ReconcilersOk(s.jobs[w.job := job], s.workers[t := w], s.reconcilers, s.leadership, Settle(s.exposed, job), s.now, s.nextToken)
  {
  }

  /** A row becomes PROMOTING or VERIFYING as the index allows. */
  predicate TakesSlot(jobs: seq<Job>, j: nat, job': Job)
    requires j < |jobs|
  {
    PointerPhase(job'.state) ==> PointerPhase(jobs[j].state) || SlotFree(jobs, j)
  }

  lemma RowsAfter(s: State, t: Token, j: nat, job: Job)
    requires Inv(s) && j < |s.jobs|
    requires OwnedWrite(t, j, s.jobs[j], job, s.leadership, s.now) && TakesSlot(s.jobs, j, job)
    ensures var jobs := s.jobs[j := job];
      && JobIdentities(jobs, s.initial, s.nextToken) && OnePointer(jobs) && JobsOk(jobs, s.leadership, s.now)
  {
  }

  lemma OwnedWriteMeans(s: State, t: Token, j: nat, job': Job)
    requires Inv(s) && j < |s.jobs| && OwnedWrite(t, j, s.jobs[j], job', s.leadership, s.now)
    ensures InFlight(s.jobs[j].state)
    ensures if job'.state == Succeeded then s.leadership.pointer.release == job'.release else KeepsExposed(s.exposed, j, job')
  {
    forall i | 0 <= i < |s.exposed| && s.exposed[i] == j && job'.state != Succeeded
      ensures if i == 0 then MayBeOfficial(job'.state) else job'.state == RecoveryRequired
    {
      assert Link(s.jobs, s.leadership, s.exposed, OfficialRelease(s.jobs, s.succeeded, s.initial), i);
    }
  }

  lemma OwnedStep(s: State, t: Token, w: Worker, job: Job)
    requires Inv(s) && Running(s, t) && w.job == s.workers[t].job
    requires OwnedWrite(t, w.job, s.jobs[w.job], job, s.leadership, s.now)
    requires WorkerOk(t, w, job, s.leadership, s.now)
    requires KeepsWaiting(s.leadership, s.now, t, s.jobs[w.job], s.workers[t], w)
    requires InDoubt(s.leadership, s.now, w.job) && PointerPhase(job.state) ==>
      job.claimToken == Some(t) && job.lease.Some? && s.leadership.tx.value.phase.deadline <= job.lease.value
    requires TakesSlot(s.jobs, w.job, job)
    ensures Inv(SetWorker(SetJob(s, w.job, job), t, w).(
                  succeeded := RecordSuccess(s.succeeded, w.job, job), exposed := Settle(s.exposed, job)))
  {
    hide JobIdentities, OnePointer, JobsOk, TxOk, WorkersOk, ReconcilersOk, WorkerOk, JobOk, PointerOk, KeepsWaiting, InDoubt, TakesSlot, KeepsExposed;
    OwnedWriteMeans(s, t, w.job, job);
    HistoryAfter(s.jobs, s.succeeded, s.initial, w.job, job);
    PointerAfter(s.jobs, s.leadership, s.exposed, OfficialRelease(s.jobs, s.succeeded, s.initial), w.job, job);
    TxAfter(s, t, w, job);
    WorkersAfter(s, t, w, job);
    ReconcilersAfter(s, t, w, job);
    RowsAfter(s, t, w.job, job);
  }

  // ----- what a change of Leadership means for one job, worker or reconciler -----

  lemma StaleWorkerKeeps(t: Token, w: Worker, job: Job, l: Leadership, l': Leadership, now: int)
    requires WorkerOk(t, w, job, l, now) && job.claimToken != Some(t) && l.restored <= l'.restored
    requires l.tx == Some(PromotionTx(t, w.job, Open)) ==> l'.tx == l.tx
    ensures WorkerOk(t, w, job, l', now)
  {
  }

  /** A worker looks at Leadership only to see whether its own candidate is official. */
  lemma AsideWorkerKeeps(t: Token, w: Worker, job: Job, l: Leadership, l': Leadership, now: int)
    requires WorkerOk(t, w, job, l, now) && l.restored <= l'.restored
    requires l'.pointer.release == job.release <==> l.pointer.release == job.release
    requires InDoubt(l', now, w.job) ==> InDoubt(l, now, w.job)
    requires l.tx == Some(PromotionTx(t, w.job, Open)) ==> l'.tx == l.tx
    ensures WorkerOk(t, w, job, l', now)
  {
  }

  /** In recovery it does not even ask that. */
  lemma RecoveryWorkerKeeps(t: Token, w: Worker, job: Job, l: Leadership, l': Leadership, now: int)
    requires WorkerOk(t, w, job, l, now) && job.state == RecoveryRequired && l.restored <= l'.restored
    requires l.tx == Some(PromotionTx(t, w.job, Open)) ==> l'.tx == l.tx
    ensures WorkerOk(t, w, job, l', now)
  {
  }

  /** A transaction starts only where the release beneath is nobody's pointer transaction. */
  predicate ClearBeneath(job: Job, l: Leadership) {
    l.pointer.release == job.release ==> !PointerPhase(job.state)
  }

  lemma SamePointerJobKeeps(j: nat, job: Job, l: Leadership, l': Leadership, now: int)
    requires JobOk(j, job, l, now) && l' == l.(tx := l'.tx)
    requires InDoubt(l', now, j) ==> InDoubt(l, now, j) || (PointerPhase(job.state) && job.claimToken.Some?)
    requires l'.tx.Some? ==> ClearBeneath(job, l)
    ensures JobOk(j, job, l', now)
  {
  }

  // ----- steps that open, send or roll back the worker's own Leadership transaction -----

  lemma TxStep(s: State, t: Token, w: Worker, tx: Option<PromotionTx>)
    requires Inv(s) && Running(s, t) && w.job == s.workers[t].job
    requires s.leadership.tx.Some? ==> s.leadership.tx.value.owner == t
    requires tx.Some? ==> tx.value.owner == t && tx.value.job == w.job
                          && TxShape(tx.value, w, s.jobs[w.job], s.leadership, s.now)
    requires tx.Some? ==> s.leadership.tx.Some? || PointerPhase(s.jobs[w.job].state)
    requires InDoubt(s.leadership.(tx := tx), s.now, w.job) ==> Live(s, t) && PointerPhase(s.jobs[w.job].state)
    requires WorkerOk(t, w, s.jobs[w.job], s.leadership.(tx := tx), s.now)
    ensures Inv(SetWorker(s, t, w).(leadership := s.leadership.(tx := tx)))
  {
    hide WorkersOk, ReconcilersOk, WorkerOk, HistoryOk, OnePointer, JobsOk, PointerOk, TxOk;
    TxStepWorkers(s, t, w, tx);
    TxStepReconcilers(s, t, w, tx);
    TxStepJobs(s, t, w, tx);
    TxStepRest(s, t, w, tx);
  }

  lemma TxStepJobs(s: State, t: Token, w: Worker, tx: Option<PromotionTx>)
    requires Inv(s) && Running(s, t) && w.job == s.workers[t].job
    requires tx.Some? ==> tx.value.job == w.job && TxShape(tx.value, w, s.jobs[w.job], s.leadership, s.now)
    requires tx.Some? ==> s.leadership.tx.Some? || PointerPhase(s.jobs[w.job].state)
    requires InDoubt(s.leadership.(tx := tx), s.now, w.job) ==> Live(s, t) && PointerPhase(s.jobs[w.job].state)
    ensures JobsOk(s.jobs, s.leadership.(tx := tx), s.now)
  {
    var l := s.leadership.(tx := tx);
    forall j | 0 <= j < |s.jobs| ensures JobOk(j, s.jobs[j], l, s.now) {
      assert JobOk(j, s.jobs[j], s.leadership, s.now);
      assert tx.Some? ==> ClearBeneath(s.jobs[j], s.leadership);
      SamePointerJobKeeps(j, s.jobs[j], s.leadership, l, s.now);
    }
  }

  lemma TxStepRest(s: State, t: Token, w: Worker, tx: Option<PromotionTx>)
    requires Inv(s) && Running(s, t) && w.job == s.workers[t].job
    requires tx.Some? ==> tx.value.owner == t && tx.value.job == w.job
                          && TxShape(tx.value, w, s.jobs[w.job], s.leadership, s.now)
    ensures var l := s.leadership.(tx := tx);
      && TxOk(s.jobs, s.workers[t := w], l, s.now)
      && PointerOk(s.jobs, l, s.exposed, OfficialRelease(s.jobs, s.succeeded, s.initial))
  {
    var l := s.leadership.(tx := tx);
    assert tx.Some? ==> TxShape(tx.value, w, s.jobs[w.job], l, s.now);
    SameExposed(s.jobs, s.leadership, l, s.exposed, OfficialRelease(s.jobs, s.succeeded, s.initial));
  }

  lemma SameExposed(jobs: seq<Job>, l: Leadership, l': Leadership, exposed: seq<nat>, official: Release)
    requires PointerOk(jobs, l, exposed, official) && l' == l.(tx := l'.tx)
    ensures PointerOk(jobs, l', exposed, official)
  {
    forall i | 0 <= i < |exposed|
      ensures Link(jobs, l', exposed, official, i)
    {
      assert Link(jobs, l, exposed, official, i);
    }
  }

  lemma TxStepWorkers(s: State, t: Token, w: Worker, tx: Option<PromotionTx>)
    requires Running(s, t) && w.job == s.workers[t].job
    requires WorkersOk(s.jobs, s.workers, s.leadership, s.now)
    requires s.leadership.tx.Some? ==> s.leadership.tx.value.owner == t
    requires tx.Some? ==> tx.value.job == w.job
    requires InDoubt(s.leadership.(tx := tx), s.now, w.job) ==> Live(s, t)
    requires WorkerOk(t, w, s.jobs[w.job], s.leadership.(tx := tx), s.now)
    ensures WorkersOk(s.jobs, s.workers[t := w], s.leadership.(tx := tx), s.now)
  {
    var l, workers := s.leadership.(tx := tx), s.workers[t := w];
    forall u | u in workers ensures workers[u].job < |s.jobs| && WorkerOk(u, workers[u], s.jobs[workers[u].job], l, s.now) {
      if u != t {
        var job := s.jobs[s.workers[u].job];
        if job.claimToken == Some(u) { AsideWorkerKeeps(u, s.workers[u], job, s.leadership, l, s.now); }
        else { StaleWorkerKeeps(u, s.workers[u], job, s.leadership, l, s.now); }
      }
    }
  }

  lemma TxStepReconcilers(s: State, t: Token, w: Worker, tx: Option<PromotionTx>)
    requires Running(s, t) && w.job == s.workers[t].job
    requires ReconcilersOk(s.jobs, s.workers, s.reconcilers, s.leadership, s.exposed, s.now, s.nextToken)
    requires tx.Some? ==> tx.value.job == w.job
    requires InDoubt(s.leadership.(tx := tx), s.now, w.job) ==> PointerPhase(s.jobs[w.job].state)
    ensures ReconcilersOk(s.jobs, s.workers[t := w], s.reconcilers, s.leadership.(tx := tx), s.exposed, s.now, s.nextToken)
  {
  }

  // ----- steps that move the pointer -----

  /** Of the jobs that are not finalised, the official one is on top. */
  lemma OfficialIsOnTop(s: State, j: nat)
    requires Inv(s) && j < |s.jobs| && s.jobs[j].state != Succeeded && OnCandidate(s, j)
    ensures s.exposed != [] && s.exposed[0] == j && s.exposed[0] !in s.exposed[1..]
  {
    hide WorkersOk, ReconcilersOk, TxOk, JobsOk;
    if s.exposed == [] {
      OfficialIsSucceeded(s, j);
    }
  }

  lemma OfficialIsSucceeded(s: State, j: nat)
    requires Inv(s) && j < |s.jobs|
    requires s.jobs[j].release == OfficialRelease(s.jobs, s.succeeded, s.initial)
    ensures s.jobs[j].state == Succeeded
  {
    if s.succeeded != [] {
      var last := s.succeeded[|s.succeeded| - 1];
      assert s.jobs[last].state == Succeeded;
    }
  }

  /** What is exposed may be official. */
  lemma ExposedLink(s: State, i: nat)
    requires Inv(s) && i < |s.exposed|
    ensures s.exposed[i] < |s.jobs| && forall k :: 0 <= k < |s.exposed| ==> s.exposed[k] < |s.jobs|
    ensures Link(s.jobs, s.leadership, s.exposed, OfficialRelease(s.jobs, s.succeeded, s.initial), i)
  {
  }

  predicate Decides(s: State, ok: bool) {
    Enabled(s, CommitDecision(ok)) && (ok ==> CommitWithinLease(s))
  }

  /** What the decision leaves. */
  lemma Decision(s: State, ok: bool)
    requires Decides(s, ok)
    ensures s.leadership.tx.Some? && s.leadership.tx.value.phase.Sent? && s.leadership.tx.value.job < |s.jobs|
    ensures ok ==> InDoubt(s.leadership, s.now, s.leadership.tx.value.job) && CommitWithinLease(s)
    ensures var s' := DecideCommit(s, ok); var l := s.leadership; var release := s.jobs[l.tx.value.job].release;
      && s'.leadership == (if ok then Leadership(Pointer(release, l.pointer.generation + 1), l.releases + {release}, None, l.restored)
                           else l.(tx := None))
      && forall u :: u in s.workers ==>
           && u in s'.workers
           && s'.workers[u] == if u == l.tx.value.owner && s.workers[u].pc == Awaiting then s.workers[u].(reply := Some(ok)) else s.workers[u]
  {
  }

  lemma WorkerIsOk(s: State, t: Token)
    requires Inv(s) && Running(s, t)
    ensures WorkerOk(t, s.workers[t], s.jobs[s.workers[t].job], s.leadership, s.now)
  {
  }

  lemma JobIsOk(s: State, j: nat)
    requires Inv(s) && j < |s.jobs|
    ensures JobOk(j, s.jobs[j], s.leadership, s.now)
    ensures s.jobs[j].release != s.jobs[j].parent
  {
  }

  lemma TxIsOk(s: State)
    requires Inv(s) && s.leadership.tx.Some?
    ensures s.leadership.tx.value.job < |s.jobs| && s.leadership.tx.value.owner in s.workers
    ensures TxShape(s.leadership.tx.value, s.workers[s.leadership.tx.value.owner], s.jobs[s.leadership.tx.value.job], s.leadership, s.now)
  {
  }

  /** Another claim holder neither owns the job of a COMMIT in doubt nor has the release
      beneath it as its own candidate, unless it is in recovery. */
  lemma DecisionPassesBy(s: State, u: Token)
    requires Inv(s) && Decides(s, true) && Running(s, u) && Live(s, u) && u != s.leadership.tx.value.owner
    ensures s.workers[u].job != s.leadership.tx.value.job
    ensures var job := s.jobs[s.workers[u].job]; job.state == RecoveryRequired || s.leadership.pointer.release != job.release
  {
    var tx := s.leadership.tx.value;
    TxIsOk(s);
    JobIsOk(s, tx.job);
    JobIsOk(s, s.workers[u].job);
    assert InDoubt(s.leadership, s.now, tx.job);
    hide Inv, KeepsWaiting;
  }

  lemma OtherRelease(s: State, i: nat, j: nat)
    requires Inv(s) && i < |s.jobs| && j < |s.jobs| && i != j
    ensures s.jobs[i].release != s.jobs[j].release
  {
  }

  /** One worker before and after the decision. */
  lemma DecisionWorker(s: State, ok: bool, u: Token)
    requires Inv(s) && Decides(s, ok) && u in s.workers
    ensures var s' := DecideCommit(s, ok);
      && u in s'.workers && s'.workers[u].job == s.workers[u].job < |s.jobs|
      && WorkerOk(u, s'.workers[u], s.jobs[s.workers[u].job], s'.leadership, s.now)
  {
    RunsHere(s, u);
    Decision(s, ok);
    hide Inv, WorkerOk, JobOk, TxShape, DecideCommit, Decides, InDoubt;
    var tx := s.leadership.tx.value;
    var l := DecideCommit(s, ok).leadership;
    var w := s.workers[u];
    var job := s.jobs[w.job];
    WorkerIsOk(s, u);
    JobIsOk(s, w.job);
    TxIsOk(s);
    if u == tx.owner {
      OwnerJob(s);
      DecisionOwner(u, w, job, tx, s.leadership, l, s.now, ok);
    } else if job.claimToken != Some(u) {
      StaleWorkerKeeps(u, w, job, s.leadership, l, s.now);
    } else if !ok {
      AsideWorkerKeeps(u, w, job, s.leadership, l, s.now);
    } else {
      DecisionAside(s, u);
    }
  }

  lemma DecisionAside(s: State, u: Token)
    requires Inv(s) && Decides(s, true) && Running(s, u) && Live(s, u) && u != s.leadership.tx.value.owner
    ensures WorkerOk(u, s.workers[u], s.jobs[s.workers[u].job], DecideCommit(s, true).leadership, s.now)
  {
    Decision(s, true);
    hide Inv, WorkerOk, DecideCommit, Decides;
    var l := DecideCommit(s, true).leadership;
    var w := s.workers[u];
    var job := s.jobs[w.job];
    WorkerIsOk(s, u);
    DecisionPassesBy(s, u);
    if job.state == RecoveryRequired {
      RecoveryWorkerKeeps(u, w, job, s.leadership, l, s.now);
    } else {
      OtherRelease(s, w.job, s.leadership.tx.value.job);
      AsideWorkerKeeps(u, w, job, s.leadership, l, s.now);
    }
  }

  lemma RunsHere(s: State, u: Token)
    requires Inv(s) && u in s.workers
    ensures Running(s, u)
  {
  }

  lemma OwnerJob(s: State)
    requires Inv(s) && s.leadership.tx.Some?
    ensures s.leadership.tx.value.owner in s.workers && s.workers[s.leadership.tx.value.owner].job == s.leadership.tx.value.job
  {
  }

  lemma DecisionWorkers(s: State, ok: bool)
    requires Inv(s) && Decides(s, ok)
    ensures var s' := DecideCommit(s, ok); WorkersOk(s.jobs, s'.workers, s'.leadership, s.now)
  {
    hide Inv, WorkerOk;
    var s' := DecideCommit(s, ok);
    forall u | u in s'.workers
      ensures s'.workers[u].job < |s.jobs| && WorkerOk(u, s'.workers[u], s.jobs[s'.workers[u].job], s'.leadership, s.now)
    {
      if u !in s.workers {
        OwnerJob(s);
      }
      DecisionWorker(s, ok, u);
    }
  }

  lemma DecisionOwner(u: Token, w: Worker, job: Job, tx: PromotionTx, l: Leadership, l': Leadership, now: int, ok: bool)
    requires WorkerOk(u, w, job, l, now) && l.tx == Some(tx) && tx.owner == u && tx.phase.Sent?
    requires TxShape(tx, w, job, l, now) && JobOk(tx.job, job, l, now) && job.release != job.parent
    requires ok ==> now <= tx.phase.deadline && l'.pointer.release == job.release
    requires !ok ==> l'.pointer == l.pointer
    requires l'.tx.None? && l'.restored == l.restored
    ensures WorkerOk(u, if w.pc == Awaiting then w.(reply := Some(ok)) else w, job, l', now)
  {
  }

  lemma DecisionReconcilers(s: State, ok: bool)
    requires Inv(s) && Decides(s, ok)
    ensures var s' := DecideCommit(s, ok);
            ReconcilersOk(s.jobs, s'.workers, s.reconcilers, s'.leadership, s'.exposed, s.now, s.nextToken)
  {
    var tx := s.leadership.tx.value;
    var s' := DecideCommit(s, ok);
    assert s'.workers.Keys == s.workers.Keys;
    forall r | r in s.reconcilers && !s.reconcilers[r].Finished?
      ensures s.reconcilers[r].job < |s.jobs|
      ensures ReconcilerOk(s.reconcilers[r], s.jobs[s.reconcilers[r].job], s'.workers, s'.leadership, s'.exposed, s.now, s.nextToken)
    {
      var p := s.reconcilers[r];
      assert ReconcilerOk(p, s.jobs[p.job], s.workers, s.leadership, s.exposed, s.now, s.nextToken);
      if ok && (p.SawParent? || p.Holding?) {
        assert InDoubt(s.leadership, s.now, tx.job);
        assert p.job != tx.job;
      }
    }
  }

  /** A promoted candidate stands over what was official until then. */
  lemma PromotionPointer(s: State)
    requires Inv(s) && Enabled(s, CommitDecision(true)) && MayBeOfficial(s.jobs[s.leadership.tx.value.job].state)
    ensures var s' := DecideCommit(s, true);
      PointerOk(s.jobs, s'.leadership, s'.exposed, OfficialRelease(s.jobs, s.succeeded, s.initial))
  {
    TxIsOk(s);
    var j := s.leadership.tx.value.job;
    var s' := DecideCommit(s, true);
    var official := OfficialRelease(s.jobs, s.succeeded, s.initial);
    JobIsOk(s, j);
    NotYetExposed(s, j);
    if s.exposed != [] {
      ExposedLink(s, 0);
      JobIsOk(s, s.exposed[0]);
    }
    PushExposed(s.jobs, s.leadership, s'.leadership, s.exposed, official, j);
  }

  /** What may still be promoted has never been. */
  lemma NotYetExposed(s: State, j: nat)
    requires Inv(s) && j < |s.jobs| && s.leadership.pointer.generation == s.jobs[j].expectedGeneration
    ensures j !in s.exposed && j !in s.leadership.restored && s.jobs[j].release !in s.leadership.releases
    ensures forall i :: 0 <= i < |s.exposed| ==> s.exposed[i] < |s.jobs|
  {
    JobIsOk(s, j);
    forall i | 0 <= i < |s.exposed|
      ensures s.exposed[i] < |s.jobs| && s.exposed[i] != j
    {
      ExposedLink(s, i);
    }
    hide Inv, InDoubt;
  }

  lemma PushExposed(jobs: seq<Job>, l: Leadership, l': Leadership, exposed: seq<nat>, official: Release, j: nat)
    requires PointerOk(jobs, l, exposed, official) && j < |jobs| && j !in exposed && j !in l.restored
    requires MayBeOfficial(jobs[j].state) && jobs[j].parent == l.pointer.release
    requires exposed != [] ==> jobs[exposed[0]].state == RecoveryRequired
    requires l'.pointer.release == jobs[j].release && l'.releases == l.releases + {jobs[j].release} && l'.restored == l.restored
    ensures PointerOk(jobs, l', [j] + exposed, official)
  {
    var over := [j] + exposed;
    forall i | 0 <= i < |over|
      ensures over[i] < |jobs|
    {
    }
    forall i | 0 <= i < |over|
      ensures Link(jobs, l', over, official, i)
    {
      if i > 0 {
        assert Link(jobs, l, exposed, official, i - 1);
      }
    }
  }

  lemma DecisionPointer(s: State, ok: bool)
    requires Inv(s) && Decides(s, ok)
    ensures var s' := DecideCommit(s, ok);
      PointerOk(s.jobs, s'.leadership, s'.exposed, OfficialRelease(s.jobs, s.succeeded, s.initial))
  {
    var j := s.leadership.tx.value.job;
    if ok {
      JobIsOk(s, j);
      assert InDoubt(s.leadership, s.now, j);
      PromotionPointer(s);
    } else {
      SameExposed(s.jobs, s.leadership, DecideCommit(s, ok).leadership, s.exposed, OfficialRelease(s.jobs, s.succeeded, s.initial));
    }
    hide Inv, JobOk, PointerOk;
  }

  lemma DecisionJobs(s: State, ok: bool)
    requires Inv(s) && Decides(s, ok)
    ensures JobsOk(s.jobs, DecideCommit(s, ok).leadership, s.now)
  {
    forall i | 0 <= i < |s.jobs| ensures JobOk(i, s.jobs[i], DecideCommit(s, ok).leadership, s.now) {
      DecisionJob(s, ok, i);
    }
  }

  lemma DecisionKeeps(s: State, ok: bool)
    requires Inv(s) && Decides(s, ok)
    ensures Inv(DecideCommit(s, ok))
  {
    hide JobsOk, WorkersOk, PointerOk, HistoryOk, JobIdentities, OnePointer, ReconcilersOk;
    DecisionWorkers(s, ok);
    DecisionReconcilers(s, ok);
    DecisionPointer(s, ok);
    DecisionJobs(s, ok);
  }

  lemma DecisionJob(s: State, ok: bool, i: nat)
    requires Inv(s) && Decides(s, ok)
    requires i < |s.jobs|
    ensures JobOk(i, s.jobs[i], DecideCommit(s, ok).leadership, s.now)
  {
    Decision(s, ok);
    hide Inv, JobOk, InDoubt, DecideCommit, Decides;
    var j := s.leadership.tx.value.job;
    JobIsOk(s, i);
    TxIsOk(s);
    if i != j {
      OtherRelease(s, i, j);
    }
    JobInDoubt(s, ok);
    DecidedJob(i, s.jobs[i], s.leadership, DecideCommit(s, ok).leadership, s.now);
  }

  lemma JobInDoubt(s: State, ok: bool)
    requires Inv(s) && Decides(s, ok)
    ensures s.leadership.tx.value.job < |s.jobs| && (ok ==> MayBeOfficial(s.jobs[s.leadership.tx.value.job].state))
  {
    JobIsOk(s, s.leadership.tx.value.job);
    assert ok ==> InDoubt(s.leadership, s.now, s.leadership.tx.value.job);
    hide Inv;
  }

  /** A job before and after a decision: its own promotion, another one, or none. */
  lemma DecidedJob(i: nat, job: Job, l: Leadership, l': Leadership, now: int)
    requires JobOk(i, job, l, now) && l'.tx.None? && l'.restored == l.restored && l.releases <= l'.releases
    requires
      || (l'.pointer == l.pointer && l'.releases == l.releases)
      || (&& l'.pointer.generation == l.pointer.generation + 1
          && if l'.pointer.release == job.release then MayBeOfficial(job.state) && job.expectedGeneration == l.pointer.generation
             else job.release in l'.releases ==> job.release in l.releases)
    ensures JobOk(i, job, l', now)
  {
  }

  /** The compare-and-swap of a restoration finds its own exposed candidate. */
  predicate Restores(s: State, t: Token) {
    && StepEnabled(s, t, RestoreRelease)
    && s.leadership.pointer == Pointer(s.jobs[s.workers[t].job].release, s.workers[t].restoreGeneration)
  }

  lemma RestoresInRecovery(s: State, t: Token)
    requires Inv(s) && Restores(s, t)
    ensures s.jobs[s.workers[t].job].state == RecoveryRequired
  {
    ReadyToRestore(s, t);
    hide Inv, StepEnabled;
    JobIsOk(s, s.workers[t].job);
    WorkerIsOk(s, t);
    RestoringMeans(t, s.workers[t], s.jobs[s.workers[t].job], s.leadership, s.now);
  }

  lemma ReadyToRestore(s: State, t: Token)
    requires StepEnabled(s, t, RestoreRelease)
    ensures At(s, t, RestoreReady) && s.leadership.tx.None?
  {
  }

  lemma RestoringMeans(t: Token, w: Worker, job: Job, l: Leadership, now: int)
    requires WorkerOk(t, w, job, l, now) && JobOk(w.job, job, l, now) && w.pc == RestoreReady && l.pointer.release == job.release
    ensures job.state == RecoveryRequired
  {
    hide LiveOk, InDoubt;
  }

  /** A restoration as Leadership sees it. */
  function RestoredTo(s: State, j: nat): State
    requires j < |s.jobs|
  {
    var l := s.leadership;
    s.(leadership := l.(pointer := Pointer(s.jobs[j].parent, l.pointer.generation + 1), restored := l.restored + {j}),
       exposed := if s.exposed == [] then [] else s.exposed[1..])
  }

  predicate Restorable(s: State, j: nat) {
    j < |s.jobs| && s.jobs[j].state == RecoveryRequired && OnCandidate(s, j) && s.leadership.tx.None?
  }

  /** The release beneath the top is another one in recovery, or the last success. */
  lemma BeneathTop(s: State, j: nat)
    requires Inv(s) && Restorable(s, j)
    ensures s.exposed != [] && s.exposed[0] == j && s.jobs[j].release in s.leadership.releases
    ensures |s.exposed| == 1 ==> s.jobs[j].parent == OfficialRelease(s.jobs, s.succeeded, s.initial)
    ensures |s.exposed| > 1 ==>
      s.exposed[1] < |s.jobs| && s.jobs[s.exposed[1]].state == RecoveryRequired && s.jobs[s.exposed[1]].release == s.jobs[j].parent
  {
    OfficialIsOnTop(s, j);
    ExposedLink(s, 0);
    if |s.exposed| > 1 {
      ExposedLink(s, 1);
    }
    hide Inv;
  }

  lemma BeneathIsDone(s: State, j: nat, i: nat)
    requires Inv(s) && Restorable(s, j) && i < |s.jobs| && s.jobs[i].release == s.jobs[j].parent
    ensures s.jobs[i].state == RecoveryRequired || s.jobs[i].state == Succeeded
  {
    BeneathTop(s, j);
    if |s.exposed| == 1 {
      OfficialIsSucceeded(s, i);
    } else {
      assert s.exposed[1] == i;
    }
  }

  lemma RestorePointer(s: State, j: nat)
    requires Inv(s) && Restorable(s, j)
    ensures var r := RestoredTo(s, j); PointerOk(s.jobs, r.leadership, r.exposed, OfficialRelease(s.jobs, s.succeeded, s.initial))
  {
    BeneathTop(s, j);
    PopExposed(s.jobs, s.leadership, RestoredTo(s, j).leadership, s.exposed, OfficialRelease(s.jobs, s.succeeded, s.initial));
    hide JobIdentities, OnePointer, JobsOk, TxOk, WorkersOk, ReconcilersOk, PointerOk, HistoryOk, WorkerIdentities;
  }

  lemma PopExposed(jobs: seq<Job>, l: Leadership, l': Leadership, exposed: seq<nat>, official: Release)
    requires PointerOk(jobs, l, exposed, official) && exposed != []
    requires l'.pointer.release == jobs[exposed[0]].parent && l'.releases == l.releases && l'.restored == l.restored + {exposed[0]}
    ensures PointerOk(jobs, l', exposed[1..], official)
  {
    var rest := exposed[1..];
    forall i | 0 <= i < |rest|
      ensures rest[i] < |jobs|
    {
    }
    forall i | 0 <= i < |rest|
      ensures Link(jobs, l', rest, official, i)
    {
      assert Link(jobs, l, exposed, official, i + 1);
    }
    assert Link(jobs, l, exposed, official, 0);
  }

  lemma RestoreWorker(s: State, j: nat, u: Token)
    requires Inv(s) && Restorable(s, j) && u in s.workers
    ensures s.workers[u].job < |s.jobs|
    ensures WorkerOk(u, s.workers[u], s.jobs[s.workers[u].job], RestoredTo(s, j).leadership, s.now)
  {
    RunsHere(s, u);
    hide Inv, WorkerOk, JobOk;
    var l := RestoredTo(s, j).leadership;
    var w := s.workers[u];
    var job := s.jobs[w.job];
    WorkerIsOk(s, u);
    if job.claimToken != Some(u) {
      StaleWorkerKeeps(u, w, job, s.leadership, l, s.now);
    } else if job.state == RecoveryRequired {
      RecoveryWorkerKeeps(u, w, job, s.leadership, l, s.now);
    } else {
      ClaimedInFlight(s, w.job);
      OtherRelease(s, w.job, j);
      if job.release == s.jobs[j].parent {
        BeneathIsDone(s, j, w.job);
      }
      AsideWorkerKeeps(u, w, job, s.leadership, l, s.now);
    }
  }

  lemma ClaimedInFlight(s: State, j: nat)
    requires Inv(s) && j < |s.jobs| && s.jobs[j].claimToken.Some?
    ensures InFlight(s.jobs[j].state)
  {
    JobIsOk(s, j);
    hide Inv;
  }

  lemma RestoreWorkers(s: State, j: nat)
    requires Inv(s) && Restorable(s, j)
    ensures WorkersOk(s.jobs, s.workers, RestoredTo(s, j).leadership, s.now)
  {
    hide Inv, WorkerOk, RestoredTo;
    forall u | u in s.workers
      ensures s.workers[u].job < |s.jobs| && WorkerOk(u, s.workers[u], s.jobs[s.workers[u].job], RestoredTo(s, j).leadership, s.now)
    {
      RestoreWorker(s, j, u);
    }
  }

  lemma RestoreReconcilers(s: State, j: nat)
    requires Inv(s) && Restorable(s, j)
    ensures var r := RestoredTo(s, j); ReconcilersOk(s.jobs, s.workers, s.reconcilers, r.leadership, r.exposed, s.now, s.nextToken)
  {
    var r := RestoredTo(s, j);
    forall p | p in s.reconcilers && !s.reconcilers[p].Finished?
      ensures s.reconcilers[p].job < |s.jobs|
      ensures ReconcilerOk(s.reconcilers[p], s.jobs[s.reconcilers[p].job], s.workers, r.leadership, r.exposed, s.now, s.nextToken)
    {
      assert ReconcilerOk(s.reconcilers[p], s.jobs[s.reconcilers[p].job], s.workers, s.leadership, s.exposed, s.now, s.nextToken);
    }
  }

  lemma RestoreJob(s: State, j: nat, i: nat)
    requires Inv(s) && Restorable(s, j) && i < |s.jobs|
    ensures JobOk(i, s.jobs[i], RestoredTo(s, j).leadership, s.now)
  {
    BeneathTop(s, j);
    JobIsOk(s, i);
    if s.jobs[i].release == s.jobs[j].parent {
      BeneathIsDone(s, j, i);
    }
    hide Inv;
  }

  lemma RestoreJobs(s: State, j: nat)
    requires Inv(s) && Restorable(s, j)
    ensures JobsOk(s.jobs, RestoredTo(s, j).leadership, s.now)
  {
    forall i | 0 <= i < |s.jobs| ensures JobOk(i, s.jobs[i], RestoredTo(s, j).leadership, s.now) {
      RestoreJob(s, j, i);
    }
  }

  /** Whoever restores a job in recovery puts back what was official before it. */
  lemma RestoreSwaps(s: State, j: nat)
    requires Inv(s) && Restorable(s, j)
    ensures Inv(RestoredTo(s, j))
  {
    hide JobsOk, WorkersOk, ReconcilersOk, OnePointer, HistoryOk, JobIdentities, PointerOk;
    RestorePointer(s, j);
    RestoreJobs(s, j);
    RestoreWorkers(s, j);
    RestoreReconcilers(s, j);
  }

  lemma RestoringIsOk(t: Token, w: Worker, job: Job, l: Leadership, l': Leadership, now: int)
    requires WorkerOk(t, w, job, l, now) && w.pc == RestoreReady && job.state == RecoveryRequired && w.job in l'.restored
    ensures WorkerOk(t, w.(pc := RestoreIssued), job, l', now)
  {
  }

  lemma RestoreKeeps(s: State, t: Token)
    requires Inv(s) && StepEnabled(s, t, RestoreRelease)
    ensures Inv(RestoreCas(s, t))
  {
    WorkerIsOk(s, t);
    if Restores(s, t) {
      RestoresInRecovery(s, t);
      hide Inv, WorkerOk, StepEnabled, KeepsWaiting;
      OwnRestore(s, t);
    } else {
      FailedRestore(s, t);
      hide *;
    }
  }

  lemma FailedRestore(s: State, t: Token)
    requires Inv(s) && StepEnabled(s, t, RestoreRelease)
    requires WorkerOk(t, s.workers[t], s.jobs[s.workers[t].job], s.leadership, s.now)
    ensures Inv(Goto(s, t, RestoreFailed))
  {
    hide Inv;
    LocalStep(s, t, s.workers[t].(pc := RestoreFailed));
  }

  lemma OwnRestore(s: State, t: Token)
    requires Inv(s) && Restores(s, t) && s.jobs[s.workers[t].job].state == RecoveryRequired
    requires WorkerOk(t, s.workers[t], s.jobs[s.workers[t].job], s.leadership, s.now)
    ensures Inv(RestoreCas(s, t))
  {
    hide Inv, WorkerOk;
    var w := s.workers[t];
    RestoreSwaps(s, w.job);
    RestoringIsOk(t, w, s.jobs[w.job], s.leadership, RestoredTo(s, w.job).leadership, s.now);
    LocalStep(RestoredTo(s, w.job), t, w.(pc := RestoreIssued));
  }
}
