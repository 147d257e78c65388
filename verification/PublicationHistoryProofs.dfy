/** What every row and event log of the publisher keep, and what the status page
    therefore shows. */
module PublicationHistoryProofs {
  import opened Common
  import opened PublicationStatus
  import opened PublicationHistory
  import P = PublicationProtocol
  import I = PublicationInvariant
  import PS = PublicationSteps
  import PT = PublicationTheorems
  import PW = PublicationRows
  import W = WorkflowTheorems

  // ----- the kinds in a log -----

  lemma KindsAppend(log: seq<Event>, kind: Kind, payload: Payload)
    ensures Kinds(Append(log, kind, payload)) == Kinds(log) + {kind}
  {
    var after := Append(log, kind, payload);
    assert forall e :: e in log ==> e in after;
    if after != log {
      var last := after[|log|];
      assert last in after && last.kind == kind;
      assert forall e :: e in after ==> e in log || e == last;
    }
  }

  function NewKinds(kinds: seq<Kind>): set<Kind> {
    set k | k in kinds
  }

  lemma FirstOfKinds(kinds: seq<Kind>)
    requires kinds != []
    ensures NewKinds(kinds) == {kinds[0]} + NewKinds(kinds[1..])
  {
    assert kinds == [kinds[0]] + kinds[1..];
  }

  lemma {:induction false} KindsAppendAll(log: seq<Event>, kinds: seq<Kind>, payload: Kind -> Payload)
    ensures Kinds(AppendAll(log, kinds, payload)) == Kinds(log) + NewKinds(kinds)
    decreases |kinds|
  {
    hide Kinds, Append;
    if kinds != [] {
      FirstOfKinds(kinds);
      KindsAppend(log, kinds[0], payload(kinds[0]));
      KindsAppendAll(Append(log, kinds[0], payload(kinds[0])), kinds[1..], payload);
      hide NewKinds;
    }
  }

  // ----- the invariant -----

  predicate HasDetailKind(kinds: set<Kind>) {
    RestoreStarted in kinds || FailedEvent in kinds || RecoveryEvent in kinds
  }

  /** The outcome of a job and the event that tells of it come together. */
  predicate OutcomeLogged(state: P.JobState, kinds: set<Kind>) {
    && RequestedEvent in kinds
    && (state == P.Succeeded <==> SucceededEvent in kinds)
    && (state == P.Succeeded <==> Verified in kinds)
    && (state == P.Failed <==> FailedEvent in kinds)
    && (state == P.NeedsRefresh <==> Conflicted in kinds)
    && (state == P.Restored <==> RestoredEvent in kinds)
    && (state == P.RecoveryRequired || state == P.Restored <==> RestoreStarted in kinds || RecoveryEvent in kinds)
  }

  predicate KindsOk(state: P.JobState, kinds: set<Kind>) {
    && OutcomeLogged(state, kinds)
    && (HasDetailKind(kinds) ==> state == P.RecoveryRequired || state == P.Restored || state == P.Failed)
    && (Verified in kinds ==> state == P.Succeeded)
    && (P.PointerPhase(state) ==> Validated in kinds)
  }

  /** Between the reading of the pointer and the end of the try block. */
  predicate PastReady(pc: P.Pc) {
    match pc
    case Observed => true
    case Marked => true
    case Inserting => true
    case PromotionOpen => true
    case CommitReady => true
    case Awaiting => true
    case InnerCatch => true
    case PointerChanged => true
    case Checking => true
    case Activating => true
    case Probing => true
    case Finalizing => true
    case _ => false
  }

  predicate WorkerOk(w: P.Worker, noted: set<Kind>, kinds: set<Kind>) {
    noted <= kinds && (PastReady(w.pc) ==> Validated in noted)
  }

  predicate LogInv(h: History) {
    && |h.logs| == |h.protocol.jobs|
    && PW.TokensIssued(h.protocol)
    && (forall j :: 0 <= j < |h.logs| ==> KindsOk(h.protocol.jobs[j].state, Kinds(h.logs[j])))
    && (forall t :: t in h.protocol.workers ==>
          WorkerOk(h.protocol.workers[t], Noted(h, t), Kinds(h.logs[h.protocol.workers[t].job])))
  }

  /** The ways a row's state may change. */
  predicate Moves(from: P.JobState, to: P.JobState) {
    || from == to
    || (from == P.Requested && (to == P.Assembling || to == P.Failed || to == P.RecoveryRequired))
    || (from == P.Assembling && (to == P.Promoting || P.PointerPhase(to) || Leaves(to)))
    || (from == P.Promoting && (to == P.Verifying || Leaves(to)))
    || (from == P.Verifying && (to == P.Succeeded || Leaves(to)))
    || (from == P.RecoveryRequired && to == P.Restored)
  }

  predicate Leaves(to: P.JobState) {
    to == P.NeedsRefresh || to == P.Failed || to == P.RecoveryRequired
  }

  /** The condition under which the number of completed stages drops. */
  predicate FallsBack(from: P.JobState, to: P.JobState, kinds': set<Kind>) {
    from == P.Verifying && (to == P.Failed || to == P.NeedsRefresh) && PointerAdvanced !in kinds'
  }

  lemma DropExact(from: P.JobState, kinds: set<Kind>, to: P.JobState, kinds': set<Kind>)
    requires Moves(from, to) && kinds <= kinds' && KindsOk(from, kinds) && KindsOk(to, kinds')
    ensures Completed(to, kinds') < Completed(from, kinds) <==> FallsBack(from, to, kinds')
  {
  }

  // ----- one step of a worker -----

  /** What a step does to the row it works on and what it logs. */
  predicate RowOk(from: P.JobState, to: P.JobState, kinds: set<Kind>, written: seq<Kind>) {
    Moves(from, to) && KindsOk(to, kinds + NewKinds(written))
  }

  lemma Unchanged(state: P.JobState, kinds: set<Kind>)
    requires KindsOk(state, kinds)
    ensures RowOk(state, state, kinds, [])
  {
  }

  lemma MarkOk(s: P.State, t: P.Token, kinds: set<Kind>)
    requires P.StepEnabled(s, t, P.MarkPromoting) && KindsOk(s.jobs[s.workers[t].job].state, kinds) && Validated in kinds
    ensures var j := s.workers[t].job;
      |P.Mark(s, t).jobs| == |s.jobs| && RowOk(s.jobs[j].state, P.Mark(s, t).jobs[j].state, kinds, StepKinds(s, t, P.MarkPromoting))
  {
  }

  lemma ConflictOk(s: P.State, t: P.Token, kinds: set<Kind>)
    requires P.StepEnabled(s, t, P.RecordConflict) && KindsOk(s.jobs[s.workers[t].job].state, kinds)
    ensures var j := s.workers[t].job;
      |P.Refresh(s, t).jobs| == |s.jobs| && RowOk(s.jobs[j].state, P.Refresh(s, t).jobs[j].state, kinds, StepKinds(s, t, P.RecordConflict))
  {
  }

  lemma FinalizeOk(s: P.State, t: P.Token, fenced: bool, kinds: set<Kind>)
    requires P.StepEnabled(s, t, P.FinalizeSuccess(fenced)) && KindsOk(s.jobs[s.workers[t].job].state, kinds)
    ensures var j := s.workers[t].job; var s' := P.Finalize(s, t, fenced);
      |s'.jobs| == |s.jobs| && RowOk(s.jobs[j].state, s'.jobs[j].state, kinds, StepKinds(s, t, P.FinalizeSuccess(fenced)))
  {
  }

  lemma DecideOk(s: P.State, t: P.Token, kinds: set<Kind>)
    requires P.StepEnabled(s, t, P.CatchBranch) && KindsOk(s.jobs[s.workers[t].job].state, kinds)
    ensures var j := s.workers[t].job; var s' := P.Decide(s, t);
      |s'.jobs| == |s.jobs| && RowOk(s.jobs[j].state, s'.jobs[j].state, kinds, StepKinds(s, t, P.CatchBranch))
  {
  }

  lemma ConcludeOk(s: P.State, t: P.Token, kinds: set<Kind>)
    requires P.StepEnabled(s, t, P.ConcludeRestoration) && KindsOk(s.jobs[s.workers[t].job].state, kinds)
    ensures var j := s.workers[t].job; var s' := P.Conclude(s, t);
      |s'.jobs| == |s.jobs| && RowOk(s.jobs[j].state, s'.jobs[j].state, kinds, StepKinds(s, t, P.ConcludeRestoration))
  {
  }

  /** The steps that write a row without an event. */
  lemma SilentWriterOk(s: P.State, t: P.Token, step: P.Step, kinds: set<Kind>)
    requires P.StepEnabled(s, t, step) && KindsOk(s.jobs[s.workers[t].job].state, kinds)
    requires PastReady(s.workers[t].pc) ==> Validated in kinds
    requires step.RenewLease? || step.BeforeCommit? || step.RecordVerifying? || step.SuppressRestoration?
    ensures var j := s.workers[t].job; var s' := P.Advance(s, t, step);
      |s'.jobs| == |s.jobs| && Moves(s.jobs[j].state, s'.jobs[j].state) && KindsOk(s'.jobs[j].state, kinds)
  {
  }

  predicate Reports(step: P.Step) {
    step.MarkPromoting? || step.RecordConflict? || step.FinalizeSuccess? || step.CatchBranch? || step.ConcludeRestoration?
  }

  lemma SilentSteps(s: P.State, t: P.Token, step: P.Step)
    requires P.StepEnabled(s, t, step) && !Reports(step)
    ensures StepKinds(s, t, step) == []
  {
  }

  lemma ReporterOk(s: P.State, t: P.Token, step: P.Step, kinds: set<Kind>)
    requires P.StepEnabled(s, t, step) && KindsOk(s.jobs[s.workers[t].job].state, kinds) && Reports(step)
    requires PastReady(s.workers[t].pc) ==> Validated in kinds
    ensures var j := s.workers[t].job; var s' := P.Advance(s, t, step);
      |s'.jobs| == |s.jobs| && RowOk(s.jobs[j].state, s'.jobs[j].state, kinds, StepKinds(s, t, step))
  {
    hide RowOk, KindsOk, StepKinds, P.Mark, P.Refresh, P.Finalize, P.Decide, P.Conclude;
    match step
    case MarkPromoting => MarkOk(s, t, kinds);
    case RecordConflict => ConflictOk(s, t, kinds);
    case FinalizeSuccess(fenced) => FinalizeOk(s, t, fenced, kinds);
    case CatchBranch => DecideOk(s, t, kinds);
    case ConcludeRestoration => ConcludeOk(s, t, kinds);
  }

  lemma QuietOk(from: P.JobState, to: P.JobState, kinds: set<Kind>)
    requires Moves(from, to) && KindsOk(to, kinds)
    ensures RowOk(from, to, kinds, [])
  {
    assert kinds + NewKinds([]) == kinds;
  }

  lemma RowStepOk(s: P.State, t: P.Token, step: P.Step, kinds: set<Kind>)
    requires P.StepEnabled(s, t, step) && KindsOk(s.jobs[s.workers[t].job].state, kinds)
    requires PastReady(s.workers[t].pc) ==> Validated in kinds
    ensures var j := s.workers[t].job; var s' := P.Advance(s, t, step);
      |s'.jobs| == |s.jobs| && RowOk(s.jobs[j].state, s'.jobs[j].state, kinds, StepKinds(s, t, step))
  {
    var j := s.workers[t].job;
    var from := s.jobs[j].state;
    hide RowOk, KindsOk, StepKinds, P.Advance, P.StepEnabled, Moves;
    if Reports(step) {
      ReporterOk(s, t, step, kinds);
    } else {
      SilentSteps(s, t, step);
      if step.RenewLease? || step.BeforeCommit? || step.RecordVerifying? || step.SuppressRestoration? {
        SilentWriterOk(s, t, step, kinds);
        QuietOk(from, P.Advance(s, t, step).jobs[j].state, kinds);
      } else if step.InsertAndPromote? || step.IssueCommit? || step.ReceiveReply? || step.ReconcileAmbiguous? || step.CheckPromotion?
                || step.RestoreRelease? || step.CheckRestoration? || step.Fail? || step.Die? {
        W.PromotionMoves(s, t, step);
        Unchanged(from, kinds);
      } else {
        W.LocalMoves(s, t, step);
        Unchanged(from, kinds);
      }
    }
  }

  /** Only reading the pointer takes a worker past the preparation. */
  predicate PcOk(s: P.State, t: P.Token, step: P.Step)
    requires P.StepEnabled(s, t, step)
  {
    t in P.Advance(s, t, step).workers &&
    (PastReady(P.Advance(s, t, step).workers[t].pc) ==> PastReady(s.workers[t].pc) || step.ObservePointer?)
  }

  lemma HandlerLeaves(pc: P.Pc)
    ensures PastReady(P.Handler(pc)) ==> PastReady(pc)
  {
  }

  lemma ThrowPcOk(s: P.State, t: P.Token, step: P.Step)
    requires P.StepEnabled(s, t, step) && (step.Fail? || step.Die?)
    ensures PcOk(s, t, step)
  {
    HandlerLeaves(s.workers[t].pc);
  }

  lemma ReporterPcOk(s: P.State, t: P.Token, step: P.Step)
    requires P.StepEnabled(s, t, step) && Reports(step)
    ensures PcOk(s, t, step)
  {
    hide P.Close, P.BaseChanged;
  }

  lemma WriterPcOk(s: P.State, t: P.Token, step: P.Step)
    requires P.StepEnabled(s, t, step)
    requires step.RenewLease? || step.BeforeCommit? || step.RecordVerifying? || step.SuppressRestoration? || step.CheckPromotion?
    ensures PcOk(s, t, step)
  {
  }

  lemma PromoterPcOk(s: P.State, t: P.Token, step: P.Step)
    requires P.StepEnabled(s, t, step)
    requires step.InsertAndPromote? || step.IssueCommit? || step.ReceiveReply? || step.ReconcileAmbiguous?
    ensures PcOk(s, t, step)
  {
  }

  lemma CheckerPcOk(s: P.State, t: P.Token, step: P.Step)
    requires P.StepEnabled(s, t, step)
    requires step.RestoreRelease? || step.CheckRestoration?
    ensures PcOk(s, t, step)
  {
  }

  lemma ReaderPcOk(s: P.State, t: P.Token, step: P.Step)
    requires P.StepEnabled(s, t, step)
    requires step.StartAttempt? || step.LoadCandidate? || step.ReconcileReclaimed? || step.ObservePointer? || step.ChooseBranch?
             || step.RuntimeVerified? || step.CatchReconciliation? || step.ReadForRestore?
    ensures PcOk(s, t, step)
  {
  }

  lemma StepPcOk(s: P.State, t: P.Token, step: P.Step)
    requires P.StepEnabled(s, t, step)
    ensures PcOk(s, t, step)
  {
    hide PcOk, P.StepEnabled;
    if step.Fail? || step.Die? {
      ThrowPcOk(s, t, step);
    } else if Reports(step) {
      ReporterPcOk(s, t, step);
    } else if step.RenewLease? || step.BeforeCommit? || step.RecordVerifying? || step.SuppressRestoration? || step.CheckPromotion? {
      WriterPcOk(s, t, step);
    } else if step.InsertAndPromote? || step.IssueCommit? || step.ReceiveReply? || step.ReconcileAmbiguous? {
      PromoterPcOk(s, t, step);
    } else if step.RestoreRelease? || step.CheckRestoration? {
      CheckerPcOk(s, t, step);
    } else {
      ReaderPcOk(s, t, step);
    }
  }

  // ----- every action -----

  predicate SameStates(h: History, h': History, j: nat) {
    && |h'.protocol.jobs| == |h.protocol.jobs| && |h'.logs| == |h.logs| == |h.protocol.jobs|
    && forall i :: 0 <= i < |h.logs| && i != j ==>
         h'.protocol.jobs[i].state == h.protocol.jobs[i].state && h'.logs[i] == h.logs[i]
  }

  /** Every log keeps its kinds and every row moves as allowed. */
  predicate Continues(h: History, h': History) {
    && |h.protocol.jobs| == |h.logs| <= |h'.logs| == |h'.protocol.jobs|
    && forall i :: 0 <= i < |h.logs| ==>
         Kinds(h.logs[i]) <= Kinds(h'.logs[i]) && Moves(h.protocol.jobs[i].state, h'.protocol.jobs[i].state)
  }

  lemma SameMoves(state: P.JobState)
    ensures Moves(state, state)
  {
  }

  /** One row and its log change. */
  lemma OneRow(h: History, h': History, j: nat)
    requires LogInv(h) && j < |h.logs| && SameStates(h, h', j) && PW.TokensIssued(h'.protocol)
    requires Moves(h.protocol.jobs[j].state, h'.protocol.jobs[j].state)
    requires Kinds(h.logs[j]) <= Kinds(h'.logs[j]) && KindsOk(h'.protocol.jobs[j].state, Kinds(h'.logs[j]))
    requires forall t :: t in h'.protocol.workers ==>
      WorkerOk(h'.protocol.workers[t], Noted(h', t), Kinds(h'.logs[h'.protocol.workers[t].job]))
    ensures LogInv(h') && Continues(h, h')
  {
    hide Kinds, KindsOk, WorkerOk, Moves;
    forall i | 0 <= i < |h.logs|
      ensures Moves(h.protocol.jobs[i].state, h'.protocol.jobs[i].state)
    {
      SameMoves(h.protocol.jobs[i].state);
    }
  }

  lemma OtherWorker(w: P.Worker, noted: set<Kind>, kinds: set<Kind>, kinds': set<Kind>)
    requires WorkerOk(w, noted, kinds) && kinds <= kinds'
    ensures WorkerOk(w, noted, kinds')
  {
  }

  lemma MovedWorker(w: P.Worker, w': P.Worker, noted: set<Kind>, kinds: set<Kind>, kinds': set<Kind>)
    requires WorkerOk(w, noted, kinds) && kinds <= kinds'
    requires PastReady(w'.pc) ==> PastReady(w.pc) || Validated in noted
    ensures WorkerOk(w', noted, kinds')
  {
  }

  /** The row and the log after a step of a worker. */
  lemma WorkRow(h: History, t: P.Token, step: P.Step, payload: Kind -> Payload)
    requires LogInv(h) && Enabled(h, Do(P.Work(t, step), payload))
    ensures var j := h.protocol.workers[t].job; var h' := Apply(h, Do(P.Work(t, step), payload));
      && SameStates(h, h', j) && PW.TokensIssued(h'.protocol)
      && Moves(h.protocol.jobs[j].state, h'.protocol.jobs[j].state)
      && Kinds(h.logs[j]) <= Kinds(h'.logs[j]) && KindsOk(h'.protocol.jobs[j].state, Kinds(h'.logs[j]))
  {
    var s := h.protocol;
    var j := s.workers[t].job;
    assert WorkerOk(s.workers[t], Noted(h, t), Kinds(h.logs[j]));
    RowStepOk(s, t, step, Kinds(h.logs[j]));
    KindsAppendAll(h.logs[j], StepKinds(s, t, step), payload);
    PW.WorkTouchesOwnRow(s, t, step);
    PW.WorkRowStep(s, t, step, j);
    hide P.Advance, P.StepEnabled, KindsOk, Kinds, Moves, PastReady, StepKinds, AppendAll, NotesWritten, PW.RowStep;
  }

  lemma WorkWorkers(h: History, t: P.Token, step: P.Step, payload: Kind -> Payload, u: P.Token)
    requires LogInv(h) && Enabled(h, Do(P.Work(t, step), payload))
    requires u in P.Advance(h.protocol, t, step).workers
    requires var h' := Apply(h, Do(P.Work(t, step), payload)); var j := h.protocol.workers[t].job;
      SameStates(h, h', j) && PW.TokensIssued(h'.protocol) && Kinds(h.logs[j]) <= Kinds(h'.logs[j])
    ensures var h' := Apply(h, Do(P.Work(t, step), payload));
      WorkerOk(h'.protocol.workers[u], Noted(h', u), Kinds(h'.logs[h'.protocol.workers[u].job]))
  {
    var s := h.protocol;
    var h' := Apply(h, Do(P.Work(t, step), payload));
    assert WorkerOk(s.workers[t], Noted(h, t), Kinds(h.logs[s.workers[t].job]));
    PW.WorkTouchesOwnRow(s, t, step);
    StepPcOk(s, t, step);
    hide P.Advance, P.StepEnabled, Kinds, PastReady, StepKinds, AppendAll, WorkerOk, KindsOk;
    var k := s.workers[u].job;
    if u == t {
      MovedWorker(s.workers[t], h'.protocol.workers[t], Noted(h, t), Kinds(h.logs[k]), Kinds(h'.logs[k]));
    } else {
      OtherWorker(s.workers[u], Noted(h, u), Kinds(h.logs[k]), Kinds(h'.logs[k]));
    }
  }

  lemma WorkKeeps(h: History, t: P.Token, step: P.Step, payload: Kind -> Payload)
    requires LogInv(h) && Enabled(h, Do(P.Work(t, step), payload))
    ensures LogInv(Apply(h, Do(P.Work(t, step), payload))) && Continues(h, Apply(h, Do(P.Work(t, step), payload)))
  {
    WorkRow(h, t, step, payload);
    var h' := Apply(h, Do(P.Work(t, step), payload));
    assert h'.protocol == P.Advance(h.protocol, t, step);
    hide P.Advance, P.StepEnabled, Kinds, KindsOk, WorkerOk, Moves, SameStates, PW.TokensIssued, StepKinds, NotesWritten, AppendAll;
    forall u | u in h'.protocol.workers
      ensures WorkerOk(h'.protocol.workers[u], Noted(h', u), Kinds(h'.logs[h'.protocol.workers[u].job]))
    {
      WorkWorkers(h, t, step, payload, u);
    }
    OneRow(h, h', h.protocol.workers[t].job);
  }
}
