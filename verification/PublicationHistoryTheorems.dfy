/** The status page over whole runs of the publisher: every snapshot is accepted,
    and no completed stage is taken back. */
module PublicationHistoryTheorems {
  import opened Common
  import opened PublicationStatus
  import opened PublicationHistory
  import opened PublicationHistoryProofs
  import P = PublicationProtocol
  import I = PublicationInvariant
  import PS = PublicationSteps
  import PT = PublicationTheorems
  import PW = PublicationRows

  // ----- the remaining actions -----

  /** What a worker writes in a transaction of its own. */
  predicate IsNote(kind: Kind) {
    kind in {PointerObserved, SnapshotBuilt, Validated, ReleaseInserted, PointerAdvanced}
  }

  lemma NoteKind(h: History, t: P.Token, clock: int, content: Payload)
    requires Enabled(h, Note(t, clock, content))
    ensures var kind := NextNote(h.protocol, t, Noted(h, t)).value; var j := h.protocol.workers[t].job;
      IsNote(kind) && !P.Terminal(h.protocol.jobs[j].state)
  {
  }

  lemma NoteOk(state: P.JobState, kinds: set<Kind>, kind: Kind)
    requires KindsOk(state, kinds) && IsNote(kind)
    ensures KindsOk(state, kinds + {kind})
  {
  }

  /** claimedEvent renews the lease and leaves the state. */
  lemma RenewRow(s: P.State, t: P.Token, clock: int)
    requires PW.TokensIssued(s) && P.StepEnabled(s, t, P.RenewLease(clock))
    ensures var s' := P.Advance(s, t, P.RenewLease(clock));
      && PW.TokensIssued(s') && |s'.jobs| == |s.jobs|
      && forall i :: 0 <= i < |s.jobs| ==> s'.jobs[i].state == s.jobs[i].state
  {
  }

  lemma NoteRow(h: History, t: P.Token, clock: int, content: Payload)
    requires LogInv(h) && Enabled(h, Note(t, clock, content))
    ensures var j := h.protocol.workers[t].job; var h' := Apply(h, Note(t, clock, content));
      && SameStates(h, h', j) && PW.TokensIssued(h'.protocol)
      && h'.protocol.jobs[j].state == h.protocol.jobs[j].state
      && Kinds(h'.logs[j]) == Kinds(h.logs[j]) + {NextNote(h.protocol, t, Noted(h, t)).value}
      && KindsOk(h'.protocol.jobs[j].state, Kinds(h'.logs[j]))
  {
    hide Kinds, KindsOk, Append, NextNote, P.Advance, IsNote, Noted, P.Renew;
    var j := h.protocol.workers[t].job;
    var kind := NextNote(h.protocol, t, Noted(h, t)).value;
    NoteKind(h, t, clock, content);
    KindsAppend(h.logs[j], kind, content);
    RenewRow(h.protocol, t, clock);
    NoteOk(h.protocol.jobs[j].state, Kinds(h.logs[j]), kind);
    hide PW.TokensIssued;
  }

  lemma NoteKeeps(h: History, t: P.Token, clock: int, content: Payload)
    requires LogInv(h) && Enabled(h, Note(t, clock, content))
    ensures LogInv(Apply(h, Note(t, clock, content))) && Continues(h, Apply(h, Note(t, clock, content)))
  {
    NoteRow(h, t, clock, content);
    var h' := Apply(h, Note(t, clock, content));
    var j := h.protocol.workers[t].job;
    hide Kinds, KindsOk, Moves, SameStates, PastReady, Append, NextNote, PW.TokensIssued;
    forall u | u in h'.protocol.workers
      ensures WorkerOk(h'.protocol.workers[u], Noted(h', u), Kinds(h'.logs[h'.protocol.workers[u].job]))
    {
      assert u in h.protocol.workers;
      assert WorkerOk(h.protocol.workers[u], Noted(h, u), Kinds(h.logs[h.protocol.workers[u].job]));
      assert SameStates(h, h', j) ==> (h.protocol.workers[u].job != j ==> h'.logs[h.protocol.workers[u].job] == h.logs[h.protocol.workers[u].job]);
    }
    SameMoves(h.protocol.jobs[j].state);
    OneRow(h, h', j);
  }

  lemma NewLog(payload: Kind -> Payload)
    ensures KindsOk(P.Requested, Kinds(AppendAll([], [RequestedEvent], payload)))
  {
    KindsAppendAll([], [RequestedEvent], payload);
  }

  lemma RequestKeeps(h: History, release: P.Release, parent: P.Release, generation: nat, payload: Kind -> Payload)
    requires LogInv(h) && Enabled(h, Do(P.RequestJob(release, parent, generation), payload))
    ensures var h' := Apply(h, Do(P.RequestJob(release, parent, generation), payload)); LogInv(h') && Continues(h, h')
  {
    hide Kinds, KindsOk, WorkerOk, AppendAll, Moves;
    var h' := Apply(h, Do(P.RequestJob(release, parent, generation), payload));
    assert h'.logs == h.logs + [AppendAll([], [RequestedEvent], payload)];
    NewLog(payload);
    forall i | 0 <= i < |h.logs|
      ensures Moves(h.protocol.jobs[i].state, h'.protocol.jobs[i].state)
    {
      SameMoves(h.protocol.jobs[i].state);
    }
    forall u | u in h'.protocol.workers
      ensures WorkerOk(h'.protocol.workers[u], Noted(h', u), Kinds(h'.logs[h'.protocol.workers[u].job]))
    {
      assert WorkerOk(h.protocol.workers[u], Noted(h, u), Kinds(h.logs[h.protocol.workers[u].job]));
    }
  }

  /** What the actions that write no event do to rows and workers. */
  predicate Quiet(s: P.State, s': P.State) {
    && PW.TokensIssued(s') && |s'.jobs| == |s.jobs|
    && (forall i :: 0 <= i < |s.jobs| ==> (s'.jobs[i].state == s.jobs[i].state
          || (s.jobs[i].state == P.Requested && s'.jobs[i].state == P.Assembling)))
    && forall u :: u in s'.workers ==>
         || (u in s.workers && s'.workers[u].job == s.workers[u].job && s'.workers[u].pc == s.workers[u].pc)
         || (u == s.nextToken && u !in s.workers && s'.workers[u].pc == P.Started)
  }

  lemma ClaimQuiet(s: P.State, jsNow: int)
    requires PW.TokensIssued(s)
    ensures Quiet(s, P.Claim(s, jsNow))
  {
  }

  lemma OtherQuiet(s: P.State, a: P.Action)
    requires PW.TokensIssued(s) && P.Enabled(s, a)
    requires a.CommitDecision? || a.Tick? || a.ListRecovery? || a.SeeParent? || a.TakeRecovery?
    ensures Quiet(s, P.Apply(s, a)) && s.nextToken !in P.Apply(s, a).workers
  {
  }

  lemma QuietMoves(from: P.JobState, to: P.JobState, kinds: set<Kind>)
    requires KindsOk(from, kinds) && (to == from || (from == P.Requested && to == P.Assembling))
    ensures Moves(from, to) && KindsOk(to, kinds)
  {
  }

  lemma QuietKeeps(h: History, h': History)
    requires LogInv(h) && Quiet(h.protocol, h'.protocol) && h'.logs == h.logs
    requires forall u :: u in h.protocol.workers ==> Noted(h', u) == Noted(h, u)
    requires h.protocol.nextToken in h'.protocol.workers ==> Noted(h', h.protocol.nextToken) == {}
    ensures LogInv(h') && Continues(h, h')
  {
    hide Kinds, KindsOk, Moves, PastReady;
    forall i | 0 <= i < |h.logs|
      ensures Moves(h.protocol.jobs[i].state, h'.protocol.jobs[i].state)
      ensures KindsOk(h'.protocol.jobs[i].state, Kinds(h'.logs[i]))
    {
      QuietMoves(h.protocol.jobs[i].state, h'.protocol.jobs[i].state, Kinds(h.logs[i]));
    }
    NewWorkerIsEarly();
    forall u | u in h'.protocol.workers
      ensures WorkerOk(h'.protocol.workers[u], Noted(h', u), Kinds(h'.logs[h'.protocol.workers[u].job]))
    {
      assert u in h.protocol.workers ==> WorkerOk(h.protocol.workers[u], Noted(h, u), Kinds(h.logs[h.protocol.workers[u].job]));
    }
  }

  lemma NewWorkerIsEarly()
    ensures !PastReady(P.Started)
  {
  }

  lemma FinishRow(s: P.State, r: nat)
    requires P.Enabled(s, P.FinishRecovery(r)) && PW.TokensIssued(s)
    ensures var s' := P.ConcludeRecovery(s, r); var j := s.reconcilers[r].job;
      && PW.TokensIssued(s') && |s'.jobs| == |s.jobs| && s'.workers == s.workers
      && (forall i :: 0 <= i < |s.jobs| && i != j ==> s'.jobs[i].state == s.jobs[i].state)
      && (if RecoveryKinds(s, r) == [] then s'.jobs[j].state == s.jobs[j].state
          else RecoveryKinds(s, r) == [RestoredEvent] && s.jobs[j].state == P.RecoveryRequired && s'.jobs[j].state == P.Restored)
  {
  }

  lemma RestoredOk(kinds: set<Kind>)
    requires KindsOk(P.RecoveryRequired, kinds)
    ensures KindsOk(P.Restored, kinds + NewKinds([RestoredEvent])) && Moves(P.RecoveryRequired, P.Restored)
  {
  }

  /** The row and the log after a recovery was reconciled. */
  lemma FinishLog(h: History, r: nat, payload: Kind -> Payload)
    requires LogInv(h) && Enabled(h, Do(P.FinishRecovery(r), payload))
    ensures var j := h.protocol.reconcilers[r].job; var h' := Apply(h, Do(P.FinishRecovery(r), payload));
      && SameStates(h, h', j) && PW.TokensIssued(h'.protocol) && h'.protocol.workers == h.protocol.workers && h'.noted == h.noted
      && Moves(h.protocol.jobs[j].state, h'.protocol.jobs[j].state)
      && Kinds(h.logs[j]) <= Kinds(h'.logs[j]) && KindsOk(h'.protocol.jobs[j].state, Kinds(h'.logs[j]))
  {
    var j := h.protocol.reconcilers[r].job;
    var h' := Apply(h, Do(P.FinishRecovery(r), payload));
    var kinds := RecoveryKinds(h.protocol, r);
    assert h'.protocol == P.ConcludeRecovery(h.protocol, r) && h'.logs[j] == AppendAll(h.logs[j], kinds, payload);
    assert NewKinds([]) == {};
    hide Kinds, KindsOk, Moves, PW.TokensIssued, AppendAll, WorkerOk, P.ConcludeRecovery, RecoveryKinds, NewKinds;
    FinishRow(h.protocol, r);
    KindsAppendAll(h.logs[j], kinds, payload);
    if kinds != [] {
      RestoredOk(Kinds(h.logs[j]));
    } else {
      SameMoves(h.protocol.jobs[j].state);
    }
  }

  lemma FinishKeeps(h: History, r: nat, payload: Kind -> Payload)
    requires LogInv(h) && Enabled(h, Do(P.FinishRecovery(r), payload))
    ensures var h' := Apply(h, Do(P.FinishRecovery(r), payload)); LogInv(h') && Continues(h, h')
  {
    var h' := Apply(h, Do(P.FinishRecovery(r), payload));
    hide Apply, Enabled, Kinds, KindsOk, Moves, PW.TokensIssued, PastReady;
    FinishLog(h, r, payload);
    forall u | u in h'.protocol.workers
      ensures WorkerOk(h'.protocol.workers[u], Noted(h', u), Kinds(h'.logs[h'.protocol.workers[u].job]))
    {
      assert WorkerOk(h.protocol.workers[u], Noted(h, u), Kinds(h.logs[h.protocol.workers[u].job]));
    }
    OneRow(h, h', h.protocol.reconcilers[r].job);
  }

  /** Every action keeps the logs in order and moves every row as allowed. */
  lemma ActionKeeps(h: History, a: Action)
    requires LogInv(h) && Enabled(h, a)
    ensures LogInv(Apply(h, a)) && Continues(h, Apply(h, a))
  {
    hide Continues, Kinds, KindsOk, P.Advance, P.StepEnabled, AppendAll, StepKinds, NextNote, Quiet, P.Claim, P.DecideCommit, P.ClaimRecovery, P.ConcludeRecovery;
    match a
    case Note(t, clock, content) => NoteKeeps(h, t, clock, content);
    case Do(step, payload) =>
      match step
      case Work(t, work) => WorkKeeps(h, t, work, payload);
      case RequestJob(release, parent, generation) => RequestKeeps(h, release, parent, generation, payload);
      case FinishRecovery(r) => FinishKeeps(h, r, payload);
      case ClaimJob(jsNow) =>
        ClaimQuiet(h.protocol, jsNow);
        QuietKeeps(h, Apply(h, a));
      case _ =>
        OtherQuiet(h.protocol, step);
        QuietKeeps(h, h.(protocol := P.Apply(h.protocol, step)));
  }

  lemma {:induction false} LogsKept(h: History, actions: seq<Action>)
    requires LogInv(h) && CanRun(h, actions)
    ensures LogInv(Run(h, actions))
    decreases |actions|
  {
    hide LogInv, Enabled, Apply;
    if actions != [] {
      ActionKeeps(h, actions[0]);
      LogsKept(Apply(h, actions[0]), actions[1..]);
    }
  }

  lemma InitLogs(h: History)
    requires Init(h)
    ensures LogInv(h)
  {
  }

  // ----- every snapshot is accepted -----

  /** Whatever the workers, the network and the clocks do: the snapshot of every row
      meets every rule of the page, and the log of a success holds no failure detail. */
  lemma EverySnapshotAccepted(h: History, actions: seq<Action>, j: nat, failureCode: Option<string>)
    requires Init(h) && CanRun(h, actions) && j < |Run(h, actions).protocol.jobs|
    ensures var end := Run(h, actions);
      && |end.logs| == |end.protocol.jobs|
      && MeetsRules(Shown(end, j, failureCode))
      && (end.protocol.jobs[j].state == P.Succeeded ==> !HasDetail(end.logs[j]) && Shown(end, j, failureCode).completedStages == STAGE_TOTAL)
  {
    InitLogs(h);
    LogsKept(h, actions);
    var end := Run(h, actions);
    AcceptedExact(Record(end.protocol.jobs[j].state, failureCode, end.logs[j]));
    ShownCount(Record(end.protocol.jobs[j].state, failureCode, end.logs[j]));
    DetailKinds(end.logs[j]);
    hide MeetsRules, HasDetail, Project, Kinds;
  }

  /** In every run, the log of a job tells its outcome: every job is REQUESTED in it, and
      SUCCEEDED, FAILED, NEEDS_REFRESH and RESTORED are logged exactly for the jobs that
      ended so; a restoration or a recovery is logged exactly for those that need or
      needed one. */
  lemma OutcomeIsLogged(h: History, actions: seq<Action>, j: nat)
    requires Init(h) && CanRun(h, actions) && j < |Run(h, actions).protocol.jobs|
    ensures var end := Run(h, actions);
      && |end.logs| == |end.protocol.jobs|
      && var state := end.protocol.jobs[j].state; var kinds := Kinds(end.logs[j]);
      && RequestedEvent in kinds
      && (state == P.Succeeded <==> SucceededEvent in kinds)
      && (state == P.Failed <==> FailedEvent in kinds)
      && (state == P.NeedsRefresh <==> Conflicted in kinds)
      && (state == P.Restored <==> RestoredEvent in kinds)
      && (state == P.RecoveryRequired || state == P.Restored <==> RestoreStarted in kinds || RecoveryEvent in kinds)
  {
    InitLogs(h);
    LogsKept(h, actions);
    hide Kinds, Init, CanRun, Run;
  }

  lemma DetailKinds(log: seq<Event>)
    ensures HasDetail(log) ==> HasDetailKind(Kinds(log))
  {
  }

  // ----- completed stages -----

  /** In any reachable state, an action takes completed stages back exactly when it
      moves a VERIFYING job to FAILED or NEEDS_REFRESH before POINTER_ADVANCED is logged. */
  lemma StageLossExact(h: History, a: Action, j: nat, failureCode: Option<string>)
    requires LogInv(h) && Enabled(h, a) && j < |h.logs|
    ensures var h' := Apply(h, a);
      && j < |h'.logs| && |h'.logs| == |h'.protocol.jobs|
      && (Shown(h', j, failureCode).completedStages < Shown(h, j, failureCode).completedStages <==>
            && h.protocol.jobs[j].state == P.Verifying
            && (h'.protocol.jobs[j].state == P.Failed || h'.protocol.jobs[j].state == P.NeedsRefresh)
            && PointerAdvanced !in Kinds(h'.logs[j]))
  {
    ActionKeeps(h, a);
    var h' := Apply(h, a);
    hide Apply, Enabled, KindsOk, Moves, Kinds, Project;
    ShownCount(Record(h.protocol.jobs[j].state, failureCode, h.logs[j]));
    ShownCount(Record(h'.protocol.jobs[j].state, failureCode, h'.logs[j]));
    DropExact(h.protocol.jobs[j].state, Kinds(h.logs[j]), h'.protocol.jobs[j].state, Kinds(h'.logs[j]));
  }

  // ----- VERIFYING is left forwards only -----

  /** A VERIFYING job's candidate is official. */
  predicate VerifyingIsLive(s: P.State) {
    forall j :: 0 <= j < |s.jobs| && s.jobs[j].state == P.Verifying ==> s.leadership.pointer.release == s.jobs[j].release
  }

  predicate NoneVerifying(s: P.State) {
    forall j :: 0 <= j < |s.jobs| ==> s.jobs[j].state != P.Verifying
  }

  /** A transaction that moves the pointer starts and ends over no VERIFYING job. */
  lemma NoneBeneath(s: P.State)
    requires I.Inv(s) && s.leadership.tx.Some? && VerifyingIsLive(s)
    ensures NoneVerifying(s)
  {
    hide I.Inv, P.InDoubt;
    forall j | 0 <= j < |s.jobs|
      ensures s.jobs[j].state != P.Verifying
    {
      I.JobIsOk(s, j);
    }
  }

  /** The two steps that move the pointer find no VERIFYING job. */
  lemma CommitKeepsLive(s: P.State, ok: bool)
    requires I.Inv(s) && P.Enabled(s, P.CommitDecision(ok)) && VerifyingIsLive(s)
    ensures VerifyingIsLive(P.DecideCommit(s, ok)) && P.DecideCommit(s, ok).jobs == s.jobs
  {
    NoneBeneath(s);
    hide I.Inv;
  }

  lemma RestoreKeepsLive(s: P.State, t: P.Token)
    requires I.Inv(s) && P.StepEnabled(s, t, P.RestoreRelease) && VerifyingIsLive(s)
    ensures VerifyingIsLive(P.RestoreCas(s, t)) && P.RestoreCas(s, t).jobs == s.jobs
  {
    RestoresOwn(s, t);
    hide I.Inv;
  }

  /** A worker that restores finds its own job not VERIFYING, and no other on the same release. */
  lemma RestoresOwn(s: P.State, t: P.Token)
    requires I.Inv(s) && P.StepEnabled(s, t, P.RestoreRelease) && VerifyingIsLive(s)
    ensures var j := s.workers[t].job;
      s.leadership.pointer.release == s.jobs[j].release ==> NoneVerifying(s)
  {
    I.ReadyToRestore(s, t);
    hide I.Inv, P.StepEnabled, I.LiveOk;
    I.WorkerIsOk(s, t);
    var own := s.workers[t].job;
    forall j | 0 <= j < |s.jobs| && s.leadership.pointer.release == s.jobs[own].release
      ensures s.jobs[j].state != P.Verifying
    {
      if j != own {
        I.OtherRelease(s, j, own);
      }
    }
  }

  /** What one step of a worker does to its own VERIFYING job. */
  predicate Forward(from: P.JobState, to: P.JobState, live: bool) {
    && (from == P.Verifying ==> to == P.Verifying || to == P.Succeeded || to == P.RecoveryRequired)
    && (to == P.Verifying ==> from == P.Verifying || live)
  }

  /** A claim holder whose candidate is official sees no changed base and no conflict. */
  lemma SeesNoConflict(s: P.State, t: P.Token)
    requires I.Inv(s) && P.Running(s, t) && P.Live(s, t) && VerifyingIsLive(s)
    requires s.jobs[s.workers[t].job].state == P.Verifying
    ensures s.workers[t].pc == P.Observed ==>
      s.workers[t].loadedState == P.Verifying && !P.BaseChanged(s.jobs[s.workers[t].job], s.workers[t].before)
    ensures s.workers[t].pc != P.PointerChanged
  {
    hide I.Inv, I.TxShape, I.JobOk;
    PS.Facts(s, t);
  }

  lemma MarkForward(s: P.State, t: P.Token, step: P.Step)
    requires I.Inv(s) && P.StepEnabled(s, t, step) && VerifyingIsLive(s)
    requires step.MarkPromoting? || step.RecordConflict?
    ensures var j := s.workers[t].job; var s' := P.Advance(s, t, step);
      |s'.jobs| == |s.jobs| && s'.leadership == s.leadership && Forward(s.jobs[j].state, s'.jobs[j].state, false)
  {
    if P.Live(s, t) && s.jobs[s.workers[t].job].state == P.Verifying {
      SeesNoConflict(s, t);
    }
    hide I.Inv, VerifyingIsLive, P.BaseChanged;
  }

  lemma ActivatesOnCandidate(s: P.State, t: P.Token)
    requires I.Inv(s) && P.Running(s, t) && P.Live(s, t) && s.workers[t].pc == P.Activating
    ensures s.leadership.pointer.release == s.jobs[s.workers[t].job].release
  {
    hide I.Inv, I.TxShape, I.JobOk;
    PS.Facts(s, t);
  }

  lemma VerifyForward(s: P.State, t: P.Token, step: P.Step)
    requires I.Inv(s) && P.StepEnabled(s, t, step)
    requires step.RenewLease? || step.BeforeCommit? || step.RecordVerifying?
    ensures var j := s.workers[t].job; var s' := P.Advance(s, t, step);
      |s'.jobs| == |s.jobs| && s'.leadership.pointer == s.leadership.pointer
      && Forward(s.jobs[j].state, s'.jobs[j].state, s.leadership.pointer.release == s.jobs[j].release)
  {
    if step.RecordVerifying? && P.Live(s, t) {
      ActivatesOnCandidate(s, t);
    }
    hide I.Inv;
  }

  /** The last branch of the catch block never fails a job whose candidate is official. */
  lemma DecidesInFavour(s: P.State, t: P.Token)
    requires I.Inv(s) && P.StepEnabled(s, t, P.CatchBranch) && VerifyingIsLive(s)
    requires P.Live(s, t) && s.jobs[s.workers[t].job].state == P.Verifying
    ensures s.workers[t].promoted || P.StateUnknown(s.workers[t])
  {
    hide I.Inv, I.TxShape, I.JobOk, I.Restoring, P.InDoubt, P.Owned, P.StateUnknown;
    PS.Facts(s, t);
  }

  lemma DecideForward(s: P.State, t: P.Token)
    requires I.Inv(s) && P.StepEnabled(s, t, P.CatchBranch) && VerifyingIsLive(s)
    ensures var j := s.workers[t].job; var s' := P.Decide(s, t);
      |s'.jobs| == |s.jobs| && s'.leadership == s.leadership && Forward(s.jobs[j].state, s'.jobs[j].state, false)
  {
    if P.Live(s, t) && s.jobs[s.workers[t].job].state == P.Verifying {
      DecidesInFavour(s, t);
    }
    hide I.Inv, VerifyingIsLive;
  }

  lemma ConcludeForward(s: P.State, t: P.Token, step: P.Step)
    requires P.StepEnabled(s, t, step)
    requires step.FinalizeSuccess? || step.SuppressRestoration? || step.ConcludeRestoration?
    ensures var j := s.workers[t].job; var s' := P.Advance(s, t, step);
      |s'.jobs| == |s.jobs| && s'.leadership == s.leadership && Forward(s.jobs[j].state, s'.jobs[j].state, false)
  {
  }

  /** Steps that write no row; only restore_release also moves the pointer. */
  lemma RowlessForward(s: P.State, t: P.Token, step: P.Step)
    requires P.StepEnabled(s, t, step) && (step.InsertAndPromote? || step.IssueCommit? || step.Fail? || step.Die?)
    ensures P.Advance(s, t, step).jobs == s.jobs && P.Advance(s, t, step).leadership.pointer == s.leadership.pointer
  {
  }

  lemma LocalForward(s: P.State, t: P.Token, step: P.Step)
    requires P.StepEnabled(s, t, step)
    requires step.StartAttempt? || step.LoadCandidate? || step.ReconcileReclaimed? || step.ObservePointer? || step.ChooseBranch?
             || step.RuntimeVerified? || step.CatchReconciliation? || step.ReadForRestore?
             || step.ReceiveReply? || step.ReconcileAmbiguous? || step.CheckPromotion? || step.CheckRestoration?
    ensures P.Advance(s, t, step).jobs == s.jobs && P.Advance(s, t, step).leadership == s.leadership
  {
  }

  /** One step of a worker, over all rows. */
  predicate GoesForward(s: P.State, s': P.State) {
    && |s.jobs| <= |s'.jobs| && VerifyingIsLive(s')
    && forall i :: 0 <= i < |s.jobs| && s.jobs[i].state == P.Verifying ==>
         s'.jobs[i].state == P.Verifying || s'.jobs[i].state == P.Succeeded || s'.jobs[i].state == P.RecoveryRequired
  }

  lemma OwnRowForward(s: P.State, t: P.Token, s': P.State)
    requires P.Running(s, t) && PW.OwnRowOnly(s, s', t) && VerifyingIsLive(s) && s'.leadership.pointer == s.leadership.pointer
    requires PW.TokensIssued(s) && forall i :: 0 <= i < |s.jobs| ==> s'.jobs[i].release == s.jobs[i].release
    requires var j := s.workers[t].job;
      Forward(s.jobs[j].state, s'.jobs[j].state, s.leadership.pointer.release == s.jobs[j].release)
    ensures GoesForward(s, s')
  {
  }

  lemma WriterReleases(s: P.State, t: P.Token, step: P.Step)
    requires P.StepEnabled(s, t, step)
    requires step.RenewLease? || step.MarkPromoting? || step.BeforeCommit? || step.RecordConflict? || step.RecordVerifying?
    ensures |P.Advance(s, t, step).jobs| == |s.jobs|
    ensures forall i :: 0 <= i < |s.jobs| ==> P.Advance(s, t, step).jobs[i].release == s.jobs[i].release
  {
  }

  lemma ConcluderReleases(s: P.State, t: P.Token, step: P.Step)
    requires P.StepEnabled(s, t, step)
    requires step.FinalizeSuccess? || step.SuppressRestoration? || step.CatchBranch? || step.ConcludeRestoration?
    ensures |P.Advance(s, t, step).jobs| == |s.jobs|
    ensures forall i :: 0 <= i < |s.jobs| ==> P.Advance(s, t, step).jobs[i].release == s.jobs[i].release
  {
  }

  lemma WritesForward(s: P.State, t: P.Token, step: P.Step)
    requires I.Inv(s) && P.StepEnabled(s, t, step) && VerifyingIsLive(s) && PW.TokensIssued(s)
    requires step.RenewLease? || step.MarkPromoting? || step.BeforeCommit? || step.RecordConflict? || step.RecordVerifying?
             || step.FinalizeSuccess? || step.SuppressRestoration? || step.CatchBranch? || step.ConcludeRestoration?
    ensures GoesForward(s, P.Advance(s, t, step))
  {
    var s' := P.Advance(s, t, step);
    assert P.Running(s, t);
    hide P.Advance, P.StepEnabled, I.Inv, PW.OwnRowOnly, Forward, PW.TokensIssued, VerifyingIsLive, GoesForward;
    if step.FinalizeSuccess? || step.SuppressRestoration? || step.CatchBranch? || step.ConcludeRestoration? {
      ConcluderReleases(s, t, step);
    } else {
      WriterReleases(s, t, step);
    }
    PW.WorkTouchesOwnRow(s, t, step);
    WriterForward(s, t, step);
    OwnRowForward(s, t, s');
  }

  lemma WorkForward(s: P.State, t: P.Token, step: P.Step)
    requires I.Inv(s) && P.StepEnabled(s, t, step) && VerifyingIsLive(s) && PW.TokensIssued(s)
    ensures GoesForward(s, P.Advance(s, t, step))
  {
    hide P.Advance, P.StepEnabled, I.Inv, PW.TokensIssued;
    if step.RestoreRelease? {
      RestoreForward(s, t);
    } else if step.InsertAndPromote? || step.IssueCommit? || step.Fail? || step.Die? {
      RowlessForward(s, t, step);
    } else if step.RenewLease? || step.MarkPromoting? || step.BeforeCommit? || step.RecordConflict? || step.RecordVerifying?
              || step.FinalizeSuccess? || step.SuppressRestoration? || step.CatchBranch? || step.ConcludeRestoration? {
      WritesForward(s, t, step);
    } else {
      LocalForward(s, t, step);
    }
  }

  lemma RestoreForward(s: P.State, t: P.Token)
    requires I.Inv(s) && P.StepEnabled(s, t, P.RestoreRelease) && VerifyingIsLive(s)
    ensures GoesForward(s, P.Advance(s, t, P.RestoreRelease))
  {
    assert P.Advance(s, t, P.RestoreRelease) == P.RestoreCas(s, t);
    hide I.Inv, VerifyingIsLive, P.RestoreCas, P.Advance, P.StepEnabled;
    RestoreKeepsLive(s, t);
  }

  lemma WeakerForward(from: P.JobState, to: P.JobState, live: bool)
    requires Forward(from, to, false)
    ensures Forward(from, to, live)
  {
  }

  lemma WriterForward(s: P.State, t: P.Token, step: P.Step)
    requires I.Inv(s) && P.StepEnabled(s, t, step) && VerifyingIsLive(s)
    requires step.RenewLease? || step.MarkPromoting? || step.BeforeCommit? || step.RecordConflict? || step.RecordVerifying?
             || step.FinalizeSuccess? || step.SuppressRestoration? || step.CatchBranch? || step.ConcludeRestoration?
    ensures var j := s.workers[t].job; var s' := P.Advance(s, t, step);
      |s'.jobs| == |s.jobs| && s'.leadership.pointer == s.leadership.pointer
      && Forward(s.jobs[j].state, s'.jobs[j].state, s.leadership.pointer.release == s.jobs[j].release)
  {
    var j := s.workers[t].job;
    var from := s.jobs[j];
    var s' := P.Advance(s, t, step);
    if step.CatchBranch? {
      DecideForward(s, t);
      assert s' == P.Decide(s, t);
      hide *;
      WeakerForward(from.state, s'.jobs[j].state, s.leadership.pointer.release == from.release);
    } else {
      hide P.Advance, P.StepEnabled, I.Inv, Forward, VerifyingIsLive;
      if step.MarkPromoting? || step.RecordConflict? {
        MarkForward(s, t, step);
        WeakerForward(from.state, s'.jobs[j].state, s.leadership.pointer.release == from.release);
      } else if step.RenewLease? || step.BeforeCommit? || step.RecordVerifying? {
        VerifyForward(s, t, step);
      } else {
        ConcludeForward(s, t, step);
        WeakerForward(from.state, s'.jobs[j].state, s.leadership.pointer.release == from.release);
      }
    }
  }

  lemma ClaimForward(s: P.State, jsNow: int)
    requires VerifyingIsLive(s)
    ensures GoesForward(s, P.Claim(s, jsNow))
  {
  }

  lemma CommitForward(s: P.State, ok: bool)
    requires I.Inv(s) && P.Enabled(s, P.CommitDecision(ok)) && P.Granted(s, P.CommitDecision(ok)) && VerifyingIsLive(s)
    ensures GoesForward(s, P.DecideCommit(s, ok))
  {
    CommitKeepsLive(s, ok);
    hide I.Inv, VerifyingIsLive, P.DecideCommit;
  }

  lemma RequestForward(s: P.State, release: P.Release, parent: P.Release, generation: nat)
    requires P.Enabled(s, P.RequestJob(release, parent, generation)) && VerifyingIsLive(s)
    ensures GoesForward(s, P.Apply(s, P.RequestJob(release, parent, generation)))
  {
  }

  lemma RecoveryForward(s: P.State, a: P.Action)
    requires P.Enabled(s, a) && VerifyingIsLive(s)
    requires a.Tick? || a.ListRecovery? || a.SeeParent? || a.TakeRecovery? || a.FinishRecovery?
    ensures GoesForward(s, P.Apply(s, a))
  {
  }

  lemma ActionForward(s: P.State, a: P.Action)
    requires I.Inv(s) && P.Enabled(s, a) && P.Granted(s, a) && VerifyingIsLive(s) && PW.TokensIssued(s)
    ensures GoesForward(s, P.Apply(s, a))
  {
    hide I.Inv, GoesForward, VerifyingIsLive, PW.TokensIssued, P.Advance, P.StepEnabled, P.Granted;
    match a
    case Work(t, step) => WorkForward(s, t, step);
    case ClaimJob(jsNow) => ClaimForward(s, jsNow);
    case CommitDecision(ok) => CommitForward(s, ok);
    case RequestJob(release, parent, generation) => RequestForward(s, release, parent, generation);
    case _ => RecoveryForward(s, a);
  }

  // ----- the page never takes a stage back -----

  predicate Steady(h: History) {
    I.Inv(h.protocol) && VerifyingIsLive(h.protocol) && LogInv(h)
  }

  lemma ProtocolOf(h: History, a: Action)
    requires Enabled(h, a) && Granted(h, a)
    ensures var step := if a.Do? then a.step else P.Work(a.t, P.RenewLease(a.clock));
      P.Enabled(h.protocol, step) && P.Granted(h.protocol, step) && Apply(h, a).protocol == P.Apply(h.protocol, step)
  {
    hide P.Advance, P.StepEnabled, AppendAll, StepKinds, NextNote;
  }

  lemma SteadyKept(h: History, a: Action)
    requires Steady(h) && Enabled(h, a) && Granted(h, a)
    ensures Steady(Apply(h, a)) && GoesForward(h.protocol, Apply(h, a).protocol)
  {
    ActionKeeps(h, a);
    ProtocolOf(h, a);
    assert PW.TokensIssued(h.protocol);
    hide I.Inv, LogInv, Apply, Enabled, Granted, PW.TokensIssued, P.Enabled, P.Granted, P.Apply, Continues;
    var step := if a.Do? then a.step else P.Work(a.t, P.RenewLease(a.clock));
    PS.ActionKeeps(h.protocol, step);
    ActionForward(h.protocol, step);
  }

  /** Completed stages never drop, from any state a granted run can reach on. */
  lemma FirstStage(h: History, actions: seq<Action>, j: nat, before: Option<string>, after: Option<string>)
    requires Steady(h) && CanRun(h, actions) && GrantedRun(h, actions) && j < |h.logs| && actions != []
    ensures var next := Apply(h, actions[0]);
      && Steady(next) && CanRun(next, actions[1..]) && GrantedRun(next, actions[1..]) && Run(next, actions[1..]) == Run(h, actions)
      && j < |next.logs| && |next.logs| == |next.protocol.jobs| && |h.logs| == |h.protocol.jobs|
      && Shown(h, j, before).completedStages <= Shown(next, j, before).completedStages
  {
    hide Apply, Enabled, Granted, Project, Kinds, KindsOk, WorkerOk;
    SteadyKept(h, actions[0]);
    StageLossExact(h, actions[0], j, before);
  }

  lemma {:induction false} StagesNeverTakenBack(h: History, actions: seq<Action>, j: nat, before: Option<string>, after: Option<string>)
    requires Steady(h) && CanRun(h, actions) && GrantedRun(h, actions) && j < |h.logs|
    ensures Steady(Run(h, actions)) && j < |Run(h, actions).logs| == |Run(h, actions).protocol.jobs|
    ensures Shown(h, j, before).completedStages <= Shown(Run(h, actions), j, after).completedStages
    decreases |actions|
  {
    if actions == [] {
      ShownCount(Record(h.protocol.jobs[j].state, before, h.logs[j]));
      ShownCount(Record(h.protocol.jobs[j].state, after, h.logs[j]));
    } else {
      var next := Apply(h, actions[0]);
      hide *;
      FirstStage(h, actions, j, before, after);
      StagesNeverTakenBack(next, actions[1..], j, before, after);
    }
  }

  lemma {:induction false} SteadyRun(h: History, actions: seq<Action>)
    requires Steady(h) && CanRun(h, actions) && GrantedRun(h, actions)
    ensures Steady(Run(h, actions)) && |h.logs| <= |Run(h, actions).logs|
    decreases |actions|
  {
    hide Steady, Enabled, Granted, Apply;
    if actions != [] {
      SteadyKept(h, actions[0]);
      LogsGrow(h, actions[0]);
      SteadyRun(Apply(h, actions[0]), actions[1..]);
    }
  }

  lemma LogsGrow(h: History, a: Action)
    requires Steady(h) && Enabled(h, a)
    ensures |h.logs| <= |Apply(h, a).logs|
  {
    ActionKeeps(h, a);
    hide Apply, Enabled;
  }

  /** Over a granted run from the start: what the page showed as completed at one
      moment it shows as completed at every later one, and a VERIFYING job is
      VERIFYING, SUCCEEDED or in recovery one step on. */
  lemma StatusNeverRegresses(
    h: History, first: seq<Action>, later: seq<Action>, j: nat, before: Option<string>, after: Option<string>)
    requires Init(h) && CanRun(h, first) && GrantedRun(h, first) && j < |Run(h, first).protocol.jobs|
    requires CanRun(Run(h, first), later) && GrantedRun(Run(h, first), later)
    ensures var middle, end := Run(h, first), Run(Run(h, first), later);
      && |middle.logs| == |middle.protocol.jobs| <= |end.protocol.jobs| == |end.logs|
      && Shown(middle, j, before).completedStages <= Shown(end, j, after).completedStages
  {
    InitSteady(h);
    SteadyRun(h, first);
    SteadyRun(Run(h, first), later);
    SizesOf(Run(h, first));
    SizesOf(Run(Run(h, first), later));
    hide Steady, Run;
    StagesNeverTakenBack(Run(h, first), later, j, before, after);
  }

  lemma SizesOf(h: History)
    requires Steady(h)
    ensures |h.logs| == |h.protocol.jobs|
  {
  }

  lemma InitSteady(h: History)
    requires Init(h)
    ensures Steady(h)
  {
    InitLogs(h);
    I.InitKeeps(h.protocol);
  }

  /** In a granted run a VERIFYING job's candidate is official, and the job leaves
      that state for SUCCEEDED or RECOVERY_REQUIRED only. */
  lemma VerifyingIsLeftForward(h: History, actions: seq<Action>, a: Action, j: nat)
    requires Init(h) && CanRun(h, actions) && GrantedRun(h, actions)
    requires Enabled(Run(h, actions), a) && Granted(Run(h, actions), a)
    requires j < |Run(h, actions).protocol.jobs| && Run(h, actions).protocol.jobs[j].state == P.Verifying
    ensures var s := Run(h, actions).protocol; var s' := Apply(Run(h, actions), a).protocol;
      && s.leadership.pointer.release == s.jobs[j].release && j < |s'.jobs|
      && (s'.jobs[j].state == P.Verifying || s'.jobs[j].state == P.Succeeded || s'.jobs[j].state == P.RecoveryRequired)
  {
    InitSteady(h);
    SteadyRun(h, actions);
    SteadyKept(Run(h, actions), a);
    hide I.Inv, LogInv, Run, Apply, Enabled, Granted;
  }

  predicate Undecided(s: P.State, t: P.Token, pc: P.Pc) {
    && P.At(s, t, pc) && P.Live(s, t) && s.jobs[s.workers[t].job].state == P.Verifying
    && !s.workers[t].promoted && !s.workers[t].promotionAttempted
  }

  lemma ThrowFails(s: P.State, t: P.Token)
    requires Undecided(s, t, P.Loaded)
    ensures P.StepEnabled(s, t, P.Fail)
    ensures var s1 := P.Advance(s, t, P.Fail); s1.jobs == s.jobs && P.StepEnabled(s1, t, P.CatchReconciliation(true))
    ensures var s2 := P.Advance(P.Advance(s, t, P.Fail), t, P.CatchReconciliation(true));
      s2.jobs == s.jobs && Undecided(s2, t, P.Deciding) && s2.workers[t].job == s.workers[t].job
  {
  }

  lemma DecidesToFail(s: P.State, t: P.Token)
    requires Undecided(s, t, P.Deciding)
    ensures P.StepEnabled(s, t, P.CatchBranch) && StepKinds(s, t, P.CatchBranch) == [FailedEvent]
    ensures |P.Advance(s, t, P.CatchBranch).jobs| == |s.jobs|
    ensures P.Advance(s, t, P.CatchBranch).jobs[s.workers[t].job].state == P.Failed
  {
  }

  /** A worker step that waits for no note. */
  lemma FreeStep(h: History, t: P.Token, step: P.Step, payload: Kind -> Payload) returns (a: Action)
    requires LogInv(h) && P.StepEnabled(h.protocol, t, step) && (step.Fail? || step.CatchReconciliation? || step.CatchBranch?)
    ensures a == Do(P.Work(t, step), payload) && Enabled(h, a) && LogInv(Apply(h, a))
    ensures Apply(h, a).protocol == P.Advance(h.protocol, t, step)
    ensures step.CatchBranch? || Apply(h, a).logs == h.logs
    ensures StepKinds(h.protocol, t, step) == [FailedEvent] ==>
      Kinds(Apply(h, a).logs[h.protocol.workers[t].job]) == Kinds(h.logs[h.protocol.workers[t].job]) + NewKinds([FailedEvent])
  {
    a := Do(P.Work(t, step), payload);
    FreeApplies(h, t, step, payload);
    hide *;
    ActionKeeps(h, a);
    KindsAppendAll(h.logs[h.protocol.workers[t].job], StepKinds(h.protocol, t, step), payload);
  }

  lemma FreeApplies(h: History, t: P.Token, step: P.Step, payload: Kind -> Payload)
    requires LogInv(h) && P.StepEnabled(h.protocol, t, step) && (step.Fail? || step.CatchReconciliation? || step.CatchBranch?)
    ensures t in h.protocol.workers && h.protocol.workers[t].job < |h.logs|
    ensures var a := Do(P.Work(t, step), payload); var j := h.protocol.workers[t].job;
      && Enabled(h, a) && Apply(h, a).protocol == P.Advance(h.protocol, t, step)
      && Apply(h, a).logs == h.logs[j := AppendAll(h.logs[j], StepKinds(h.protocol, t, step), payload)]
      && (step.CatchBranch? || Apply(h, a).logs == h.logs)
  {
    assert P.Running(h.protocol, t);
    hide P.Advance, Kinds, KindsOk, WorkerOk, PW.TokensIssued, P.StepEnabled, StepKinds;
    if !step.CatchBranch? {
      FreeIsSilent(h.protocol, t, step);
    }
  }

  lemma FreeIsSilent(s: P.State, t: P.Token, step: P.Step)
    requires P.StepEnabled(s, t, step) && (step.Fail? || step.CatchReconciliation?)
    ensures StepKinds(s, t, step) == []
  {
    SilentSteps(s, t, step);
  }

  lemma ThreeActions(h: History, a: Action, b: Action, c: Action)
    requires Enabled(h, a) && Enabled(Apply(h, a), b) && Enabled(Apply(Apply(h, a), b), c)
    ensures CanRun(h, [a, b, c]) && Run(h, [a, b, c]) == Apply(Apply(Apply(h, a), b), c)
  {
    hide Enabled, Apply;
    assert [a, b, c][1..] == [b, c] && [b, c][1..] == [c] && [c][1..] == [];
    var end := Apply(Apply(Apply(h, a), b), c);
    assert CanRun(end, []) && Run(end, []) == end;
    assert CanRun(Apply(Apply(h, a), b), [c]) && Run(Apply(Apply(h, a), b), [c]) == end;
    assert CanRun(Apply(h, a), [b, c]) && Run(Apply(h, a), [b, c]) == end;
  }

  /** The throw reaches the last branch of the catch block without writing anything. */
  lemma ThrowIsCaught(h: History, t: P.Token, payload: Kind -> Payload) returns (fail: Action, read: Action)
    requires LogInv(h) && Undecided(h.protocol, t, P.Loaded)
    ensures Enabled(h, fail) && Enabled(Apply(h, fail), read)
    ensures var h2 := Apply(Apply(h, fail), read);
      LogInv(h2) && h2.logs == h.logs && h2.protocol.jobs == h.protocol.jobs && Undecided(h2.protocol, t, P.Deciding)
      && h2.protocol.workers[t].job == h.protocol.workers[t].job
  {
    hide P.Advance, P.StepEnabled, Kinds, Apply, Enabled, StepKinds, LogInv, Undecided, P.Live;
    ThrowFails(h.protocol, t);
    fail := FreeStep(h, t, P.Fail, payload);
    read := FreeStep(Apply(h, fail), t, P.CatchReconciliation(true), payload);
  }

  lemma LogSizes(h: History)
    requires LogInv(h)
    ensures |h.logs| == |h.protocol.jobs|
  {
  }

  lemma LastBranch(h: History, t: P.Token, payload: Kind -> Payload, failureCode: Option<string>) returns (decide: Action)
    requires LogInv(h) && Undecided(h.protocol, t, P.Deciding)
    requires PointerAdvanced !in Kinds(h.logs[h.protocol.workers[t].job])
    ensures Enabled(h, decide) && |Apply(h, decide).logs| == |h.logs| == |Apply(h, decide).protocol.jobs|
    ensures var j := h.protocol.workers[t].job;
      Shown(Apply(h, decide), j, failureCode).completedStages < Shown(h, j, failureCode).completedStages
  {
    hide P.Advance, P.StepEnabled, Kinds, Apply, Enabled, StepKinds, Project, LogInv, P.Live;
    DecidesToFail(h.protocol, t);
    decide := FreeStep(h, t, P.CatchBranch, payload);
    ActionSizes(h, decide);
    LogSizes(h);
    StageLossExact(h, decide, h.protocol.workers[t].job, failureCode);
  }

  /** A throw between the reload of a VERIFYING job and its reconciliation is one way
      in which the page takes a completed stage back. */
  lemma ReclaimThrowTakesStageBack(h: History, t: P.Token, failureCode: Option<string>, payload: Kind -> Payload) returns (actions: seq<Action>)
    requires LogInv(h) && Undecided(h.protocol, t, P.Loaded)
    requires PointerAdvanced !in Kinds(h.logs[h.protocol.workers[t].job])
    ensures CanRun(h, actions) && |Run(h, actions).logs| == |h.logs| == |Run(h, actions).protocol.jobs|
    ensures var j := h.protocol.workers[t].job;
      Shown(Run(h, actions), j, failureCode).completedStages < Shown(h, j, failureCode).completedStages
  {
    hide P.Advance, P.StepEnabled, Kinds, Apply, Enabled, Run, CanRun, Project;
    var fail, read := ThrowIsCaught(h, t, payload);
    var decide := LastBranch(Apply(Apply(h, fail), read), t, payload, failureCode);
    ThreeActions(h, fail, read, decide);
    actions := [fail, read, decide];
  }

  lemma ActionSizes(h: History, a: Action)
    requires LogInv(h) && Enabled(h, a) && a.Do? && a.step.Work?
    ensures |Apply(h, a).logs| == |h.logs| == |Apply(h, a).protocol.jobs|
  {
    ActionKeeps(h, a);
    hide P.Advance, P.StepEnabled, StepKinds, AppendAll;
  }

  // ----- the log itself -----

  /** Numbered upwards, with no event twice. */
  predicate CleanLog(log: seq<Event>) {
    && (forall i, j :: 0 <= i < j < |log| ==> log[i].sequence < log[j].sequence)
    && forall i, j :: 0 <= i < j < |log| ==> !(log[i].kind == log[j].kind && log[i].payload == log[j].payload)
  }

  predicate AllClean(logs: seq<seq<Event>>) {
    forall j :: 0 <= j < |logs| ==> CleanLog(logs[j])
  }

  lemma AppendClean(log: seq<Event>, kind: Kind, payload: Payload)
    requires CleanLog(log)
    ensures CleanLog(Append(log, kind, payload))
  {
    var after := Append(log, kind, payload);
    if after != log {
      forall i | 0 <= i < |log|
        ensures log[i].sequence < NextSequence(log) && !(log[i].kind == kind && log[i].payload == payload)
      {
        assert log[i] in log;
      }
      hide NextSequence;
    }
  }

  lemma {:induction false} AppendAllClean(log: seq<Event>, kinds: seq<Kind>, payload: Kind -> Payload)
    requires CleanLog(log)
    ensures CleanLog(AppendAll(log, kinds, payload))
    decreases |kinds|
  {
    hide CleanLog, Append;
    if kinds != [] {
      AppendClean(log, kinds[0], payload(kinds[0]));
      AppendAllClean(Append(log, kinds[0], payload(kinds[0])), kinds[1..], payload);
    }
  }

  lemma NothingIsClean()
    ensures CleanLog([])
  {
  }

  lemma WroteClean(logs: seq<seq<Event>>, j: nat, kinds: seq<Kind>, payload: Kind -> Payload)
    requires AllClean(logs) && j < |logs|
    ensures AllClean(Wrote(logs, j, kinds, payload))
  {
    hide CleanLog, AppendAll;
    AppendAllClean(logs[j], kinds, payload);
  }

  lemma ActionClean(h: History, a: Action)
    requires AllClean(h.logs) && Enabled(h, a)
    ensures AllClean(Apply(h, a).logs)
  {
    NothingIsClean();
    assert a.Note? ==> P.Running(h.protocol, a.t);
    assert a.Do? && a.step.Work? ==> P.Running(h.protocol, a.step.t);
    hide CleanLog, AppendAll, Append, P.Advance, P.StepEnabled, P.Apply, StepKinds, RecoveryKinds, NextNote, Wrote;
    match a
    case Note(t, clock, content) =>
      var j := h.protocol.workers[t].job;
      AppendClean(h.logs[j], NextNote(h.protocol, t, Noted(h, t)).value, content);
    case Do(step, payload) =>
      match step
      case Work(t, work) => WroteClean(h.logs, h.protocol.workers[t].job, StepKinds(h.protocol, t, work), payload);
      case RequestJob(_, _, _) => AppendAllClean([], [RequestedEvent], payload);
      case FinishRecovery(r) => WroteClean(h.logs, h.protocol.reconcilers[r].job, RecoveryKinds(h.protocol, r), payload);
      case _ =>
  }

  lemma {:induction false} RunClean(h: History, actions: seq<Action>)
    requires AllClean(h.logs) && CanRun(h, actions)
    ensures AllClean(Run(h, actions).logs)
    decreases |actions|
  {
    hide AllClean, Enabled, Apply;
    if actions != [] {
      ActionClean(h, actions[0]);
      RunClean(Apply(h, actions[0]), actions[1..]);
    }
  }

  /** In every run, the events of a job are numbered upwards and none is logged twice,
      however often its claim was lost and its work repeated. */
  lemma EventsLoggedOnce(h: History, actions: seq<Action>, j: nat)
    requires Init(h) && CanRun(h, actions) && j < |Run(h, actions).logs|
    ensures CleanLog(Run(h, actions).logs[j])
  {
    assert AllClean(h.logs);
    RunClean(h, actions);
    hide CleanLog, CanRun, Run;
  }
}
