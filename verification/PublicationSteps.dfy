/** Every action of the publication protocol keeps the invariant. */
module PublicationSteps {
  import opened Common
  import opened PublicationProtocol
  import opened PublicationInvariant

  lemma Facts(s: State, t: Token)
    requires Inv(s) && Running(s, t)
    ensures var w := s.workers[t]; var job := s.jobs[w.job];
            WorkerOk(t, w, job, s.leadership, s.now) && JobOk(w.job, job, s.leadership, s.now)
    ensures s.leadership.tx.Some? && s.leadership.tx.value.owner == t ==>
      TxShape(s.leadership.tx.value, s.workers[t], s.jobs[s.workers[t].job], s.leadership, s.now)
    ensures s.jobs[s.workers[t].job].release != s.jobs[s.workers[t].job].parent
  {
  }

  // ----- steps on local variables -----

  lemma LoadKeeps(s: State, t: Token)
    requires Inv(s) && StepEnabled(s, t, LoadCandidate)
    ensures Inv(Load(s, t))
  {
    hide Inv;
    Facts(s, t);
    var w := s.workers[t];
    if PointerPhase(w.loadedState) {
      LocalStep(s, t, w.(pc := Reconciling, promotionAttempted := true, promotionStateKnown := false));
    } else {
      LocalStep(s, t, w.(pc := Ready));
    }
  }

  lemma StartKeeps(s: State, t: Token)
    requires Inv(s) && StepEnabled(s, t, StartAttempt)
    ensures Inv(Start(s, t))
  {
    hide Inv;
    Facts(s, t);
    LocalStep(s, t, Start(s, t).workers[t]);
  }

  lemma ReconcileKeeps(s: State, t: Token)
    requires Inv(s) && StepEnabled(s, t, ReconcileReclaimed) && StepGranted(s, t, ReconcileReclaimed)
    ensures Inv(Reconcile(s, t))
  {
    hide Inv;
    Facts(s, t);
    LocalStep(s, t, Reconcile(s, t).workers[t]);
  }

  lemma ObserveKeeps(s: State, t: Token)
    requires Inv(s) && StepEnabled(s, t, ObservePointer)
    ensures Inv(Observe(s, t))
  {
    hide Inv;
    Facts(s, t);
    LocalStep(s, t, Observe(s, t).workers[t]);
  }

  lemma BranchKeeps(s: State, t: Token)
    requires Inv(s) && StepEnabled(s, t, ChooseBranch)
    ensures Inv(Branch(s, t))
  {
    hide Inv;
    Facts(s, t);
    var w := s.workers[t];
    if w.before.release != s.jobs[w.job].release {
      LocalStep(s, t, w.(pc := Inserting, promotionAttempted := true, promotionStateKnown := false));
    } else {
      LocalStep(s, t, w.(pc := Checking));
    }
  }

  lemma ReplyOutcomes(t: Token, w: Worker, job: Job, l: Leadership, now: int)
    requires WorkerOk(t, w, job, l, now) && w.pc == Awaiting && w.reply.Some?
    ensures WorkerOk(t, w.(pc := InnerCatch), job, l, now)
    ensures w.reply.value ==> WorkerOk(t, w.(pc := Checking, promotionStateKnown := true, promoted := true), job, l, now)
    ensures job.claimToken == Some(t) ==> !InDoubt(l, now, w.job)
  {
  }

  lemma AcknowledgeKeeps(s: State, t: Token)
    requires Inv(s) && StepEnabled(s, t, ReceiveReply)
    ensures Inv(Acknowledge(s, t))
  {
    hide Inv, WorkerOk, JobOk;
    Facts(s, t);
    var w := s.workers[t];
    ReplyOutcomes(t, w, s.jobs[w.job], s.leadership, s.now);
    if w.reply.value { LocalStep(s, t, w.(pc := Checking, promotionStateKnown := true, promoted := true)); }
    else { LocalStep(s, t, w.(pc := InnerCatch)); }
  }

  lemma ReconcileCommitKeeps(s: State, t: Token)
    requires Inv(s) && StepEnabled(s, t, ReconcileAmbiguous) && StepGranted(s, t, ReconcileAmbiguous)
    ensures Inv(ReconcileCommit(s, t))
  {
    hide Inv;
    Facts(s, t);
    LocalStep(s, t, ReconcileCommit(s, t).workers[t]);
  }

  lemma CheckKeeps(s: State, t: Token)
    requires Inv(s) && StepEnabled(s, t, CheckPromotion)
    ensures Inv(Check(s, t))
  {
    hide Inv;
    Facts(s, t);
    LocalStep(s, t, Check(s, t).workers[t]);
  }

  lemma VerifyKeeps(s: State, t: Token)
    requires Inv(s) && StepEnabled(s, t, RuntimeVerified)
    ensures Inv(Verify(s, t))
  {
    hide Inv;
    Facts(s, t);
    LocalStep(s, t, Verify(s, t).workers[t]);
  }

  lemma CatchReconcileKeeps(s: State, t: Token, reachable: bool)
    requires Inv(s) && StepEnabled(s, t, CatchReconciliation(reachable)) && StepGranted(s, t, CatchReconciliation(reachable))
    ensures Inv(CatchReconcile(s, t, reachable))
  {
    hide Inv;
    Facts(s, t);
    LocalStep(s, t, CatchReconcile(s, t, reachable).workers[t]);
  }

  lemma RestoreReadKeeps(s: State, t: Token)
    requires Inv(s) && StepEnabled(s, t, ReadForRestore)
    ensures Inv(RestoreRead(s, t))
  {
    hide Inv;
    Facts(s, t);
    LocalStep(s, t, RestoreRead(s, t).workers[t]);
  }

  lemma RestoreCheckKeeps(s: State, t: Token, runtimeAgrees: bool)
    requires Inv(s) && StepEnabled(s, t, CheckRestoration(runtimeAgrees))
    ensures Inv(RestoreCheck(s, t, runtimeAgrees))
  {
    hide Inv;
    Facts(s, t);
    LocalStep(s, t, RestoreCheck(s, t, runtimeAgrees).workers[t]);
  }

  // ----- steps on the claimed row -----

  lemma WriteRow(s: State, t: Token, w: Worker, job: Job)
    requires Inv(s) && Running(s, t) && w.job == s.workers[t].job
    requires job.state != Succeeded && TakesSlot(s.jobs, w.job, job)
    requires OwnedWrite(t, w.job, s.jobs[w.job], job, s.leadership, s.now)
    requires WorkerOk(t, w, job, s.leadership, s.now)
    requires KeepsWaiting(s.leadership, s.now, t, s.jobs[w.job], s.workers[t], w)
    requires InDoubt(s.leadership, s.now, w.job) && PointerPhase(job.state) ==>
      job.claimToken == Some(t) && job.lease.Some? && s.leadership.tx.value.phase.deadline <= job.lease.value
    ensures Inv(SetWorker(SetJob(s, w.job, job), t, w))
  {
    OwnedStep(s, t, w, job);
    var s' := SetWorker(SetJob(s, w.job, job), t, w);
    assert s'.(succeeded := RecordSuccess(s.succeeded, w.job, job), exposed := Settle(s.exposed, job)) == s';
  }

  lemma InDoubtIsMine(s: State, t: Token)
    requires Inv(s) && Running(s, t) && Live(s, t) && InDoubt(s.leadership, s.now, s.workers[t].job)
    ensures s.leadership.tx.value.owner == t && WaitsForDecision(s.workers[t])
    ensures PointerPhase(s.jobs[s.workers[t].job].state)
    ensures s.leadership.tx.value.phase.deadline <= s.workers[t].clock + LEASE_MS
  {
    Facts(s, t);
  }

  lemma RenewKeeps(s: State, t: Token, clock: int)
    requires Inv(s) && StepEnabled(s, t, RenewLease(clock))
    ensures Inv(Renew(s, t, clock))
  {
    hide Inv;
    Facts(s, t);
    var w := s.workers[t].(clock := clock);
    var job := s.jobs[w.job];
    if Live(s, t) && InFlight(job.state) {
      var job' := job.(lease := Some(clock + LEASE_MS));
      if InDoubt(s.leadership, s.now, w.job) { InDoubtIsMine(s, t); }
      WriteRow(s, t, w, job');
      assert SetWorker(SetJob(s, w.job, job'), t, w) == Renew(s, t, clock);
    } else {
      LocalStep(s, t, w);
    }
  }

  lemma MarkKeeps(s: State, t: Token)
    requires Inv(s) && StepEnabled(s, t, MarkPromoting)
    ensures Inv(Mark(s, t))
  {
    hide Inv;
    Facts(s, t);
    var w := Mark(s, t).workers[t];
    if InDoubt(s.leadership, s.now, w.job) && Live(s, t) { InDoubtIsMine(s, t); }
    if !Authority(s, t) || Mark(s, t).jobs == s.jobs { LocalStep(s, t, w); }
    else { WriteRow(s, t, w, Mark(s, t).jobs[w.job]); }
  }

  lemma RefreshKeeps(s: State, t: Token)
    requires Inv(s) && StepEnabled(s, t, RecordConflict)
    ensures Inv(Refresh(s, t))
  {
    hide Inv, WorkerOk, JobOk, OwnedWrite;
    Facts(s, t);
    var w := s.workers[t];
    var job := s.jobs[w.job];
    RefreshedOk(t, w, job, s.leadership, s.now);
    if InDoubt(s.leadership, s.now, w.job) && Live(s, t) { InDoubtIsMine(s, t); }
    if Authority(s, t) { WriteRow(s, t, w.(pc := Exited), Close(job, NeedsRefresh)); } else { LocalStep(s, t, w.(pc := Catching)); }
  }

  lemma RefreshedOk(t: Token, w: Worker, job: Job, l: Leadership, now: int)
    requires WorkerOk(t, w, job, l, now) && JobOk(w.job, job, l, now) && w.pc == PointerChanged
    ensures WorkerOk(t, w.(pc := Catching), job, l, now)
    ensures var job' := Close(job, NeedsRefresh);
      job.claimToken == Some(t) && Owned(job.state) ==>
        OwnedWrite(t, w.job, job, job', l, now) && WorkerOk(t, w.(pc := Exited), job', l, now)
  {
  }

  lemma ActivateKeeps(s: State, t: Token)
    requires Inv(s) && StepEnabled(s, t, RecordVerifying)
    ensures Inv(Activate(s, t))
  {
    hide Inv;
    Facts(s, t);
    var w := Activate(s, t).workers[t];
    if InDoubt(s.leadership, s.now, w.job) && Live(s, t) { InDoubtIsMine(s, t); }
    if Authority(s, t) && SlotFree(s.jobs, w.job) { WriteRow(s, t, w, Activate(s, t).jobs[w.job]); } else { LocalStep(s, t, w); }
  }

  lemma FinalizeKeeps(s: State, t: Token, fenced: bool)
    requires Inv(s) && StepEnabled(s, t, FinalizeSuccess(fenced))
    ensures Inv(Finalize(s, t, fenced))
  {
    hide Inv, WorkerOk, JobOk, OwnedWrite;
    Facts(s, t);
    var w := s.workers[t];
    var job := s.jobs[w.job];
    FinalizedOk(t, w, job, s.leadership, s.now);
    if fenced || !Live(s, t) || job.state != Verifying {
      LocalStep(s, t, w.(pc := CatchVerified));
    } else {
      if InDoubt(s.leadership, s.now, w.job) { InDoubtIsMine(s, t); }
      OwnedStep(s, t, w.(pc := Exited), Close(job, Succeeded));
    }
  }

  lemma FinalizedOk(t: Token, w: Worker, job: Job, l: Leadership, now: int)
    requires WorkerOk(t, w, job, l, now) && JobOk(w.job, job, l, now) && w.pc == Finalizing
    ensures WorkerOk(t, w.(pc := CatchVerified), job, l, now)
    ensures var job' := Close(job, Succeeded);
      job.claimToken == Some(t) && job.state == Verifying ==>
        OwnedWrite(t, w.job, job, job', l, now) && WorkerOk(t, w.(pc := Exited), job', l, now)
  {
  }

  lemma ReleaseClaimKeeps(s: State, t: Token)
    requires Inv(s) && StepEnabled(s, t, SuppressRestoration)
    ensures Inv(ReleaseClaim(s, t))
  {
    hide Inv, WorkerOk, JobOk, OwnedWrite;
    Facts(s, t);
    var w := s.workers[t].(pc := Exited);
    var job := s.jobs[w.job];
    ReleasedOk(t, s.workers[t], job, s.leadership, s.now);
    if InDoubt(s.leadership, s.now, w.job) && Live(s, t) { InDoubtIsMine(s, t); }
    if Live(s, t) && job.state == Verifying { WriteRow(s, t, w, job.(claimToken := None, lease := None)); }
    else { LocalStep(s, t, w); }
  }

  lemma ReleasedOk(t: Token, w: Worker, job: Job, l: Leadership, now: int)
    requires WorkerOk(t, w, job, l, now) && JobOk(w.job, job, l, now) && w.pc == CatchVerified
    ensures WorkerOk(t, w.(pc := Exited), job, l, now)
    ensures var job' := job.(claimToken := None, lease := None);
      job.claimToken == Some(t) && job.state == Verifying ==>
        OwnedWrite(t, w.job, job, job', l, now) && WorkerOk(t, w.(pc := Exited), job', l, now)
  {
  }

  lemma DecideRestores(s: State, t: Token)
    requires Inv(s) && StepEnabled(s, t, CatchBranch) && Live(s, t)
    requires s.workers[t].promoted && PointerPhase(s.jobs[s.workers[t].job].state)
    ensures Inv(Decide(s, t))
  {
    hide Inv;
    Facts(s, t);
    var w := s.workers[t];
    WriteRow(s, t, w.(pc := RestoreReading), s.jobs[w.job].(state := RecoveryRequired));
  }

  lemma DecideCloses(s: State, t: Token)
    requires Inv(s) && StepEnabled(s, t, CatchBranch) && Live(s, t)
    requires !s.workers[t].promoted && Owned(s.jobs[s.workers[t].job].state)
    ensures Inv(Decide(s, t))
  {
    hide Inv;
    Facts(s, t);
    var w := s.workers[t];
    if InDoubt(s.leadership, s.now, w.job) { InDoubtIsMine(s, t); }
    WriteRow(s, t, w.(pc := Exited), Close(s.jobs[w.job], if StateUnknown(w) then RecoveryRequired else Failed));
  }

  lemma DecideKeeps(s: State, t: Token)
    requires Inv(s) && StepEnabled(s, t, CatchBranch)
    ensures Inv(Decide(s, t))
  {
    hide Inv;
    Facts(s, t);
    var w := s.workers[t];
    var job := s.jobs[w.job];
    if !Live(s, t) || !Owned(job.state) || (w.promoted && !PointerPhase(job.state)) {
      LocalStep(s, t, w.(pc := Exited));
    } else if w.promoted {
      DecideRestores(s, t);
    } else {
      DecideCloses(s, t);
    }
  }

  lemma ConcludeKeeps(s: State, t: Token)
    requires Inv(s) && StepEnabled(s, t, ConcludeRestoration)
    ensures Inv(Conclude(s, t))
  {
    hide Inv, WorkerOk, JobOk, OwnedWrite;
    Facts(s, t);
    var w := s.workers[t].(pc := Exited);
    var job := s.jobs[w.job];
    if Live(s, t) && job.state == RecoveryRequired {
      ConcludeWrites(s, t);
    } else {
      ExitedOk(t, s.workers[t], job, s.leadership, s.now);
      LocalStep(s, t, w);
    }
  }

  lemma ConcludeWrites(s: State, t: Token)
    requires Inv(s) && StepEnabled(s, t, ConcludeRestoration) && Live(s, t) && s.jobs[s.workers[t].job].state == RecoveryRequired
    ensures Inv(Conclude(s, t))
  {
    hide Inv, WorkerOk, JobOk, OwnedWrite;
    Facts(s, t);
    var w := s.workers[t];
    var job := s.jobs[w.job];
    if w.pc == RestoreConfirmed { ConfirmedOk(s, t); }
    ConcludedOk(t, w, job, s.leadership, s.now);
    if InDoubt(s.leadership, s.now, w.job) { InDoubtIsMine(s, t); }
    WriteRow(s, t, w.(pc := Exited), Close(job, if w.pc == RestoreConfirmed then Restored else RecoveryRequired));
  }

  /** What has been restored is not official any more. */
  lemma ConfirmedOk(s: State, t: Token)
    requires Inv(s) && At(s, t, RestoreConfirmed) && s.jobs[s.workers[t].job].state == RecoveryRequired
    requires WorkerOk(t, s.workers[t], s.jobs[s.workers[t].job], s.leadership, s.now)
    ensures !OnCandidate(s, s.workers[t].job)
  {
    var j := s.workers[t].job;
    assert j in s.leadership.restored;
    hide Inv, WorkerOk;
    if OnCandidate(s, j) {
      OfficialIsOnTop(s, j);
      ExposedLink(s, 0);
    }
  }

  lemma ConcludedOk(t: Token, w: Worker, job: Job, l: Leadership, now: int)
    requires WorkerOk(t, w, job, l, now) && JobOk(w.job, job, l, now) && (w.pc == RestoreConfirmed || w.pc == RestoreFailed)
    requires job.claimToken == Some(t) && job.state == RecoveryRequired && (w.pc == RestoreConfirmed ==> l.pointer.release != job.release)
    ensures var job' := Close(job, if w.pc == RestoreConfirmed then Restored else RecoveryRequired);
      OwnedWrite(t, w.job, job, job', l, now) && WorkerOk(t, w.(pc := Exited), job', l, now)
  {
  }

  lemma ExitedOk(t: Token, w: Worker, job: Job, l: Leadership, now: int)
    requires WorkerOk(t, w, job, l, now) && l.tx != Some(PromotionTx(t, w.job, Open))
    ensures WorkerOk(t, w.(pc := Exited), job, l, now)
  {
  }

  // ----- steps on the worker's Leadership transaction -----

  lemma InsertPromotes(s: State, t: Token)
    requires Inv(s) && At(s, t, Inserting) && s.leadership.tx.None? && Authority(s, t)
    requires s.leadership.pointer == Pointer(s.jobs[s.workers[t].job].parent, s.jobs[s.workers[t].job].expectedGeneration)
    ensures Inv(Goto(s, t, PromotionOpen).(
                leadership := s.leadership.(tx := Some(PromotionTx(t, s.workers[t].job, Open)))))
  {
    hide Inv;
    Facts(s, t);
    var w := s.workers[t];
    TxStep(s, t, w.(pc := PromotionOpen), Some(PromotionTx(t, w.job, Open)));
  }

  lemma InsertOutcomes(t: Token, w: Worker, job: Job, l: Leadership, now: int)
    requires WorkerOk(t, w, job, l, now) && w.pc == Inserting
    ensures WorkerOk(t, w.(pc := PointerChanged, promotionStateKnown := true), job, l, now)
    ensures WorkerOk(t, w.(pc := InnerCatch), job, l, now)
    ensures l.pointer.release == job.release ==>
      WorkerOk(t, w.(pc := Checking, promotionStateKnown := true, promoted := true), job, l, now)
  {
  }

  lemma InsertKeeps(s: State, t: Token, validated: bool)
    requires Inv(s) && StepEnabled(s, t, InsertAndPromote(validated))
    ensures Inv(Insert(s, t, validated))
  {
    hide Inv, WorkerOk, JobOk;
    Facts(s, t);
    var w := s.workers[t];
    var s' := Insert(s, t, validated);
    InsertOutcomes(t, w, s.jobs[w.job], s.leadership, s.now);
    if s'.leadership.tx.Some? { InsertPromotes(s, t); }
    else if s'.workers[t].pc == PointerChanged { LocalStep(s, t, w.(pc := PointerChanged, promotionStateKnown := true)); }
    else if s'.workers[t].pc == InnerCatch { LocalStep(s, t, w.(pc := InnerCatch)); }
    else { LocalStep(s, t, w.(pc := Checking, promotionStateKnown := true, promoted := true)); }
  }

  function RolledBack(l: Leadership, t: Token): Leadership {
    if l.tx.Some? && l.tx.value.owner == t && l.tx.value.phase.Open? then l.(tx := None) else l
  }

  lemma HandlerOk(t: Token, w: Worker, job: Job, l: Leadership, now: int)
    requires WorkerOk(t, w, job, l, now) && JobOk(w.job, job, l, now)
    requires w.pc != Exited && w.pc != Catching
    requires w.pc == Loaded && PointerPhase(w.loadedState) ==> job.claimToken != Some(t)
    ensures WorkerOk(t, w.(pc := Handler(w.pc)), job, RolledBack(l, t), now)
    ensures job.claimToken == Some(t) && WaitsForDecision(w) ==> WaitsForDecision(w.(pc := Handler(w.pc)))
  {
  }

  lemma ThrowKeeps(s: State, t: Token)
    requires Inv(s) && StepEnabled(s, t, Fail) && StepGranted(s, t, Fail)
    ensures Inv(Throw(s, t))
  {
    hide Inv;
    Facts(s, t);
    var w := s.workers[t];
    HandlerOk(t, w, s.jobs[w.job], s.leadership, s.now);
    LeaveTransaction(s, t, Handler(w.pc));
  }

  /** Leaving the program point rolls back whatever transaction was open. */
  lemma LeaveTransaction(s: State, t: Token, pc: Pc)
    requires Inv(s) && Running(s, t)
    requires pc != PromotionOpen && pc != CommitReady
    requires var w := s.workers[t];
      && WorkerOk(t, w.(pc := pc), s.jobs[w.job], RolledBack(s.leadership, t), s.now)
      && (Live(s, t) && WaitsForDecision(w) ==> WaitsForDecision(w.(pc := pc)))
    ensures Inv(Goto(Rollback(s, t), t, pc))
  {
    hide Inv;
    var w := s.workers[t].(pc := pc);
    if Rollback(s, t) == s { LocalStep(s, t, w); }
    else { TxStep(s, t, w, None); }
  }

  lemma CrashKeeps(s: State, t: Token)
    requires Inv(s) && Running(s, t)
    ensures Inv(Crash(s, t))
  {
    hide Inv;
    Facts(s, t);
    LeaveTransaction(s, t, Exited);
  }

  lemma ConfirmAuthorityKeeps(s: State, t: Token, clock: int)
    requires Inv(s) && StepEnabled(s, t, BeforeCommit(clock))
    ensures Inv(ConfirmAuthority(s, t, clock))
  {
    hide Inv;
    Facts(s, t);
    if !Authority(s, t) {
      LeaveTransaction(s, t, InnerCatch);
    } else {
      var w := ConfirmAuthority(s, t, clock).workers[t];
      WriteRow(s, t, w, ConfirmAuthority(s, t, clock).jobs[w.job]);
    }
  }

  lemma SendCommitKeeps(s: State, t: Token)
    requires Inv(s) && StepEnabled(s, t, IssueCommit)
    ensures Inv(SendCommit(s, t))
  {
    hide Inv;
    Facts(s, t);
    var s' := SendCommit(s, t);
    TxStep(s, t, s'.workers[t], s'.leadership.tx);
  }

  lemma StepKeeps(s: State, t: Token, step: Step)
    requires Inv(s) && StepEnabled(s, t, step) && StepGranted(s, t, step)
    ensures Inv(Advance(s, t, step))
  {
    hide Inv;
    match step
    case RenewLease(clock) => RenewKeeps(s, t, clock);
    case StartAttempt => StartKeeps(s, t);
    case LoadCandidate => LoadKeeps(s, t);
    case ReconcileReclaimed => ReconcileKeeps(s, t);
    case ObservePointer => ObserveKeeps(s, t);
    case MarkPromoting => MarkKeeps(s, t);
    case ChooseBranch => BranchKeeps(s, t);
    case InsertAndPromote(validated) => InsertKeeps(s, t, validated);
    case BeforeCommit(clock) => ConfirmAuthorityKeeps(s, t, clock);
    case IssueCommit => SendCommitKeeps(s, t);
    case ReceiveReply => AcknowledgeKeeps(s, t);
    case ReconcileAmbiguous => ReconcileCommitKeeps(s, t);
    case RecordConflict => RefreshKeeps(s, t);
    case CheckPromotion => CheckKeeps(s, t);
    case RecordVerifying => ActivateKeeps(s, t);
    case RuntimeVerified => VerifyKeeps(s, t);
    case FinalizeSuccess(fenced) => FinalizeKeeps(s, t, fenced);
    case SuppressRestoration => ReleaseClaimKeeps(s, t);
    case CatchReconciliation(reachable) => CatchReconcileKeeps(s, t, reachable);
    case CatchBranch => DecideKeeps(s, t);
    case ReadForRestore => RestoreReadKeeps(s, t);
    case RestoreRelease => RestoreKeeps(s, t);
    case CheckRestoration(agrees) => RestoreCheckKeeps(s, t, agrees);
    case ConcludeRestoration => ConcludeKeeps(s, t);
    case Fail => ThrowKeeps(s, t);
    case Die => CrashKeeps(s, t);
  }

  // ----- time and new requests -----

  lemma TickKeeps(s: State, ms: nat)
    requires Inv(s)
    ensures Inv(s.(now := s.now + ms))
  {
    var now := s.now + ms;
    forall j | 0 <= j < |s.jobs| ensures JobOk(j, s.jobs[j], s.leadership, now) {
      assert JobOk(j, s.jobs[j], s.leadership, s.now);
    }
    forall t | t in s.workers ensures s.workers[t].job < |s.jobs| && WorkerOk(t, s.workers[t], s.jobs[s.workers[t].job], s.leadership, now) {
      LaterWorker(t, s.workers[t], s.jobs[s.workers[t].job], s.leadership, s.now, now);
    }
  }

  lemma LaterWorker(t: Token, w: Worker, job: Job, l: Leadership, now: int, later: int)
    requires WorkerOk(t, w, job, l, now) && now <= later
    ensures WorkerOk(t, w, job, l, later)
  {
  }

  lemma RequestKeeps(s: State, release: Release, parent: Release, generation: nat)
    requires Inv(s) && Enabled(s, RequestJob(release, parent, generation))
    ensures Inv(Apply(s, RequestJob(release, parent, generation)))
  {
    hide JobsOk, WorkersOk, ReconcilersOk, TxOk, JobIdentities, OnePointer, PointerOk;
    var job := Job(Requested, None, None, release, parent, generation);
    RequestJobs(s, job);
    RequestWorkers(s, job);
    RequestReconcilers(s, job);
    RequestPointer(s, job);
    RequestIdentities(s, job);
  }

  lemma RequestIdentities(s: State, job: Job)
    requires Inv(s) && FreshRelease(s, job.release) && job.release != job.parent
    requires job.state == Requested && job.claimToken.None?
    ensures var jobs := s.jobs + [job];
      JobIdentities(jobs, s.initial, s.nextToken) && OnePointer(jobs) && TxOk(jobs, s.workers, s.leadership, s.now)
  {
  }

  lemma RequestPointer(s: State, job: Job)
    requires Inv(s) && FreshRelease(s, job.release) && job.state == Requested
    ensures HistoryOk(s.jobs + [job], s.succeeded)
    ensures PointerOk(s.jobs + [job], s.leadership, s.exposed, OfficialRelease(s.jobs + [job], s.succeeded, s.initial))
  {
    var jobs := s.jobs + [job];
    var official := OfficialRelease(s.jobs, s.succeeded, s.initial);
    assert OfficialRelease(jobs, s.succeeded, s.initial) == official;
    forall i | 0 <= i < |s.exposed|
      ensures s.exposed[i] < |jobs| && Link(jobs, s.leadership, s.exposed, official, i)
    {
      ExposedLink(s, i);
    }
    hide JobsOk, WorkersOk, ReconcilersOk, TxOk;
  }

  lemma RequestJobs(s: State, job: Job)
    requires Inv(s) && FreshRelease(s, job.release) && job.state == Requested && job.claimToken.None? && job.lease.None?
    ensures JobsOk(s.jobs + [job], s.leadership, s.now)
  {
    var jobs := s.jobs + [job];
    OfficialIsKnown(s);
    assert s.leadership.pointer.release != job.release;
    assert !InDoubt(s.leadership, s.now, |s.jobs|);
    forall j | 0 <= j < |jobs| ensures JobOk(j, jobs[j], s.leadership, s.now) {
      if j < |s.jobs| { assert JobOk(j, s.jobs[j], s.leadership, s.now); }
    }
  }

  lemma OfficialIsKnown(s: State)
    requires Inv(s)
    ensures s.leadership.pointer.release == s.initial
         || exists j :: 0 <= j < |s.jobs| && s.jobs[j].release == s.leadership.pointer.release
  {
    if s.exposed == [] && s.succeeded != [] {
      assert s.jobs[s.succeeded[|s.succeeded| - 1]].release == s.leadership.pointer.release;
    }
  }

  lemma RequestWorkers(s: State, job: Job)
    requires WorkersOk(s.jobs, s.workers, s.leadership, s.now)
    ensures WorkersOk(s.jobs + [job], s.workers, s.leadership, s.now)
  {
  }

  lemma RequestReconcilers(s: State, job: Job)
    requires ReconcilersOk(s.jobs, s.workers, s.reconcilers, s.leadership, s.exposed, s.now, s.nextToken)
    ensures ReconcilersOk(s.jobs + [job], s.workers, s.reconcilers, s.leadership, s.exposed, s.now, s.nextToken)
  {
  }

  // ----- claiming -----

  /** Whatever the two clocks read, the claim takes an eligible row. */
  lemma ClaimKeeps(s: State, jsNow: int)
    requires Inv(s)
    ensures Inv(Claim(s, jsNow))
  {
    var choice := FirstEligible(s.jobs, s.now, 0);
    if !ClaimBlocked(s.jobs, jsNow) && choice.Some? {
      ClaimTakes(s, jsNow, choice.value);
    }
    hide Inv, ClaimBlocked;
  }

  predicate Takes(s: State, c: nat) {
    c < |s.jobs| && Eligible(s.jobs[c], s.now)
  }

  lemma ClaimTakes(s: State, jsNow: int, c: nat)
    requires Inv(s) && Takes(s, c)
    ensures Inv(SetWorker(SetJob(s, c, Claimed(s.jobs[c], s.nextToken, s.now)), s.nextToken, NewWorker(c, jsNow)).(nextToken := s.nextToken + 1))
  {
    hide JobsOk, WorkersOk, ReconcilersOk, TxOk, OnePointer, HistoryOk, PointerOk, JobIdentities;
    ClaimPointer(s, c);
    ClaimJobs(s, c);
    ClaimWorkers(s, jsNow, c);
    ClaimReconcilers(s, jsNow, c);
    ClaimTx(s, jsNow, c);
    ClaimIdentities(s, jsNow, c);
  }

  lemma ClaimPointer(s: State, c: nat)
    requires Inv(s) && Takes(s, c)
    ensures var jobs := s.jobs[c := Claimed(s.jobs[c], s.nextToken, s.now)];
      HistoryOk(jobs, s.succeeded) && PointerOk(jobs, s.leadership, s.exposed, OfficialRelease(jobs, s.succeeded, s.initial))
  {
    var job' := Claimed(s.jobs[c], s.nextToken, s.now);
    var official := OfficialRelease(s.jobs, s.succeeded, s.initial);
    assert OfficialRelease(s.jobs[c := job'], s.succeeded, s.initial) == official;
    forall i | 0 <= i < |s.exposed| && s.exposed[i] == c
      ensures if i == 0 then MayBeOfficial(job'.state) else job'.state == RecoveryRequired
    {
      ExposedLink(s, i);
    }
    PointerAfter(s.jobs, s.leadership, s.exposed, official, c, job');
    hide JobsOk, WorkersOk, ReconcilersOk, TxOk, PointerOk;
  }

  lemma ClaimJobs(s: State, c: nat)
    requires Inv(s) && Takes(s, c)
    ensures JobsOk(s.jobs[c := Claimed(s.jobs[c], s.nextToken, s.now)], s.leadership, s.now)
  {
    var jobs := s.jobs[c := Claimed(s.jobs[c], s.nextToken, s.now)];
    ClaimedNotInDoubt(s, c);
    forall i | 0 <= i < |jobs| ensures JobOk(i, jobs[i], s.leadership, s.now) {
      JobIsOk(s, i);
    }
  }

  lemma ClaimIdentities(s: State, jsNow: int, c: nat)
    requires Inv(s) && Takes(s, c)
    ensures var jobs := s.jobs[c := Claimed(s.jobs[c], s.nextToken, s.now)];
      JobIdentities(jobs, s.initial, s.nextToken + 1) && OnePointer(jobs)
  {
  }

  lemma ClaimedNotInDoubt(s: State, c: nat)
    requires Inv(s) && Takes(s, c)
    ensures !InDoubt(s.leadership, s.now, c)
  {
    JobIsOk(s, c);
  }

  lemma ClaimTx(s: State, jsNow: int, c: nat)
    requires Inv(s) && Takes(s, c)
    ensures TxOk(s.jobs[c := Claimed(s.jobs[c], s.nextToken, s.now)], s.workers[s.nextToken := NewWorker(c, jsNow)], s.leadership, s.now)
  {
    ClaimedNotInDoubt(s, c);
  }

  lemma ClaimWorkers(s: State, jsNow: int, c: nat)
    requires Inv(s) && Takes(s, c)
    ensures WorkersOk(s.jobs[c := Claimed(s.jobs[c], s.nextToken, s.now)], s.workers[s.nextToken := NewWorker(c, jsNow)], s.leadership, s.now)
  {
    var t := s.nextToken;
    var jobs := s.jobs[c := Claimed(s.jobs[c], t, s.now)];
    var workers := s.workers[t := NewWorker(c, jsNow)];
    forall u | u in workers ensures workers[u].job < |jobs| && WorkerOk(u, workers[u], jobs[workers[u].job], s.leadership, s.now) {
      if u != t {
        var w := s.workers[u];
        assert WorkerOk(u, w, s.jobs[w.job], s.leadership, s.now);
        if w.job == c { LosesClaim(u, w, s.jobs[c], t, s.leadership, s.now); }
      }
    }
  }

  lemma LosesClaim(u: Token, w: Worker, job: Job, t: Token, l: Leadership, now: int)
    requires WorkerOk(u, w, job, l, now) && u != t && Eligible(job, now)
    requires job.claimToken.None? <==> job.lease.None?
    requires job.claimToken.Some? ==> InFlight(job.state)
    ensures WorkerOk(u, w, Claimed(job, t, now), l, now)
  {
  }

  lemma ClaimReconcilers(s: State, jsNow: int, c: nat)
    requires Inv(s) && Takes(s, c)
    ensures ReconcilersOk(s.jobs[c := Claimed(s.jobs[c], s.nextToken, s.now)], s.workers[s.nextToken := NewWorker(c, jsNow)],
                          s.reconcilers, s.leadership, s.exposed, s.now, s.nextToken + 1)
  {
  }

  // ----- recovery reconciliation -----

  lemma ListKeeps(s: State, r: nat, j: nat)
    requires Inv(s) && Enabled(s, ListRecovery(r, j))
    ensures Inv(Apply(s, ListRecovery(r, j)))
  {
  }

  lemma SeeParentKeeps(s: State, r: nat)
    requires Inv(s) && Enabled(s, SeeParent(r)) && Granted(s, SeeParent(r))
    ensures Inv(Apply(s, SeeParent(r)))
  {
    ParentIsNotExposed(s, s.reconcilers[r].job);
    assert ReconcilerOk(s.reconcilers[r], s.jobs[s.reconcilers[r].job], s.workers, s.leadership, s.exposed, s.now, s.nextToken);
  }

  /** A job whose parent is official is not between it and the last success. */
  lemma ParentIsNotExposed(s: State, j: nat)
    requires Inv(s) && j < |s.jobs| && s.leadership.pointer.release == s.jobs[j].parent
    ensures j !in s.exposed
  {
    forall i | 0 <= i < |s.exposed|
      ensures s.exposed[i] != j
    {
      ExposedLink(s, 0);
      ExposedLink(s, i);
      NotOfficial(s, s.exposed[0]);
      OnTop(s);
    }
  }

  /** Only what is finalised, or there from the start, is the official release. */
  lemma NotOfficial(s: State, j: nat)
    requires Inv(s) && j < |s.jobs| && s.jobs[j].state != Succeeded
    ensures s.jobs[j].release != OfficialRelease(s.jobs, s.succeeded, s.initial)
  {
    if s.succeeded != [] {
      assert s.jobs[s.succeeded[|s.succeeded| - 1]].state == Succeeded;
    }
  }

  lemma OnTop(s: State)
    requires Inv(s) && s.exposed != []
    ensures forall i :: 0 <= i < |s.exposed| ==> s.exposed[i] < |s.jobs|
    ensures s.leadership.pointer.release == s.jobs[s.exposed[0]].release
    ensures forall i :: 0 < i < |s.exposed| ==> s.jobs[s.exposed[i]].release != s.jobs[s.exposed[0]].release
  {
    hide JobsOk, WorkersOk, ReconcilersOk, TxOk;
  }

  lemma TakeRecoveryKeeps(s: State, r: nat, jsNow: int)
    requires Inv(s) && Enabled(s, TakeRecovery(r, jsNow))
    ensures Inv(ClaimRecovery(s, r, jsNow))
  {
    var j := s.reconcilers[r].job;
    var job := s.jobs[j];
    assert ReconcilerOk(s.reconcilers[r], job, s.workers, s.leadership, s.exposed, s.now, s.nextToken);
    NotTaken(s, r);
    hide JobsOk, WorkersOk, TxOk, HistoryOk, PointerOk, JobIdentities, OnePointer, ReconcilersOk, InDoubt;
    if job.state == RecoveryRequired && (job.claimToken.None? || job.lease.None? || job.lease.value < jsNow) {
      var job' := job.(claimToken := Some(s.nextToken), lease := Some(jsNow + LEASE_MS));
      RecoveryWrite(s, j, job');
      TakeRecoveryRest(s, r, job');
    }
  }

  lemma NotTaken(s: State, r: nat)
    requires Inv(s) && r in s.reconcilers
    ensures ReconcilersOk(s.jobs, s.workers, s.reconcilers[r := Finished], s.leadership, s.exposed, s.now, s.nextToken)
  {
    hide JobsOk, WorkersOk, TxOk, HistoryOk, PointerOk;
  }

  lemma TakeRecoveryRest(s: State, r: nat, job: Job)
    requires Inv(s) && r in s.reconcilers && s.reconcilers[r].SawParent? && s.reconcilers[r].job < |s.jobs|
    requires SameIdentity(s.jobs[s.reconcilers[r].job], job) && job.state == RecoveryRequired == s.jobs[s.reconcilers[r].job].state
    requires job.claimToken == Some(s.nextToken)
    ensures var j := s.reconcilers[r].job; var jobs := s.jobs[j := job];
      && JobIdentities(jobs, s.initial, s.nextToken + 1) && OnePointer(jobs)
      && WorkerIdentities(jobs, s.workers, s.nextToken + 1)
      && ReconcilersOk(jobs, s.workers, s.reconcilers[r := Holding(j, s.nextToken)], s.leadership, s.exposed, s.now, s.nextToken + 1)
  {
    assert ReconcilerOk(s.reconcilers[r], s.jobs[s.reconcilers[r].job], s.workers, s.leadership, s.exposed, s.now, s.nextToken);
  }

  /** The reconciler writes a row that is in RECOVERY_REQUIRED and not in doubt. */
  lemma RecoveryWrite(s: State, j: nat, job: Job)
    requires Inv(s) && j < |s.jobs| && s.jobs[j].state == RecoveryRequired && SameIdentity(s.jobs[j], job)
    requires j !in s.exposed && !InDoubt(s.leadership, s.now, j)
    requires job.state == RecoveryRequired || (job.state == Restored && job.claimToken.None?)
    requires job.claimToken.None? || job.claimToken.value == s.nextToken
    requires job.claimToken.None? <==> job.lease.None?
    ensures JobsOk(s.jobs[j := job], s.leadership, s.now)
    ensures WorkersOk(s.jobs[j := job], s.workers, s.leadership, s.now)
    ensures TxOk(s.jobs[j := job], s.workers, s.leadership, s.now)
    ensures HistoryOk(s.jobs[j := job], s.succeeded)
    ensures PointerOk(s.jobs[j := job], s.leadership, s.exposed, OfficialRelease(s.jobs[j := job], s.succeeded, s.initial))
  {
    var jobs := s.jobs[j := job];
    RecoveryPointer(s, j, job);
    forall i | 0 <= i < |jobs| ensures JobOk(i, jobs[i], s.leadership, s.now) {
      JobIsOk(s, i);
    }
    hide PointerOk, HistoryOk, ReconcilersOk, JobIdentities, OnePointer;
    forall u | u in s.workers ensures s.workers[u].job < |jobs| && WorkerOk(u, s.workers[u], jobs[s.workers[u].job], s.leadership, s.now) {
      assert WorkerOk(u, s.workers[u], s.jobs[s.workers[u].job], s.leadership, s.now);
    }
  }

  lemma RecoveryPointer(s: State, j: nat, job: Job)
    requires Inv(s) && j < |s.jobs| && s.jobs[j].state == RecoveryRequired && SameIdentity(s.jobs[j], job)
    requires j !in s.exposed && (job.state == RecoveryRequired || job.state == Restored)
    ensures !OnCandidate(s, j) && HistoryOk(s.jobs[j := job], s.succeeded)
    ensures PointerOk(s.jobs[j := job], s.leadership, s.exposed, OfficialRelease(s.jobs[j := job], s.succeeded, s.initial))
  {
    if OnCandidate(s, j) {
      OfficialIsOnTop(s, j);
    }
    HistoryAfter(s.jobs, s.succeeded, s.initial, j, job);
    PointerAfter(s.jobs, s.leadership, s.exposed, OfficialRelease(s.jobs, s.succeeded, s.initial), j, job);
    hide JobsOk, WorkersOk, ReconcilersOk, TxOk, PointerOk;
  }

  lemma FinishRecoveryKeeps(s: State, r: nat)
    requires Inv(s) && Enabled(s, FinishRecovery(r))
    ensures Inv(ConcludeRecovery(s, r))
  {
    var j := s.reconcilers[r].job;
    var job := s.jobs[j];
    assert ReconcilerOk(s.reconcilers[r], job, s.workers, s.leadership, s.exposed, s.now, s.nextToken);
    FinishedRest(s, r);
    hide JobsOk, WorkersOk, TxOk, HistoryOk, PointerOk, JobIdentities, OnePointer, ReconcilersOk, InDoubt;
    if job.state == RecoveryRequired && job.claimToken == Some(s.reconcilers[r].token) {
      RecoveryWrite(s, j, Close(job, Restored));
    }
  }

  lemma FinishedRest(s: State, r: nat)
    requires Inv(s) && Enabled(s, FinishRecovery(r))
    ensures ReconcilersOk(s.jobs, s.workers, s.reconcilers[r := Finished], s.leadership, s.exposed, s.now, s.nextToken)
    ensures var j := s.reconcilers[r].job; var job := s.jobs[j]; var jobs := s.jobs[j := Close(job, Restored)];
      job.state == RecoveryRequired ==>
        && JobIdentities(jobs, s.initial, s.nextToken) && OnePointer(jobs) && WorkerIdentities(jobs, s.workers, s.nextToken)
        && ReconcilersOk(jobs, s.workers, s.reconcilers[r := Finished], s.leadership, s.exposed, s.now, s.nextToken)
  {
  }

  lemma ActionKeeps(s: State, a: Action)
    requires Inv(s) && Enabled(s, a) && Granted(s, a)
    ensures Inv(Apply(s, a))
  {
    hide Inv;
    match a
    case Work(t, step) => StepKeeps(s, t, step);
    case RequestJob(release, parent, generation) => RequestKeeps(s, release, parent, generation);
    case ClaimJob(jsNow) => ClaimKeeps(s, jsNow);
    case CommitDecision(ok) => DecisionKeeps(s, ok);
    case Tick(ms) => TickKeeps(s, ms);
    case ListRecovery(r, j) => ListKeeps(s, r, j);
    case SeeParent(r) => SeeParentKeeps(s, r);
    case TakeRecovery(r, jsNow) => TakeRecoveryKeeps(s, r, jsNow);
    case FinishRecovery(r) => FinishRecoveryKeeps(s, r);
  }

  /** The invariant holds after every granted run. */
  lemma {:induction false} RunKeeps(s: State, actions: seq<Action>)
    requires Inv(s) && CanRun(s, actions) && GrantedRun(s, actions)
    ensures Inv(Run(s, actions))
    decreases |actions|
  {
    hide Inv;
    if actions != [] {
      ActionKeeps(s, actions[0]);
      RunKeeps(Apply(s, actions[0]), actions[1..]);
    }
  }
}
