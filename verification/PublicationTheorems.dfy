/** What the publication protocol guarantees over whole runs, and what each thing asked
    of the environment is worth. */
module PublicationTheorems {
  import opened Common
  import opened PublicationProtocol
  import opened PublicationInvariant
  import opened PublicationSteps
  import opened PublicationRows

  predicate NothingInFlight(s: State) {
    forall j :: 0 <= j < |s.jobs| ==> !InFlight(s.jobs[j].state)
  }

  predicate RecordsSuccesses(s: State) {
    forall k :: 0 <= k < |s.succeeded| ==> s.succeeded[k] < |s.jobs|
  }

  /** With nothing in flight, the official release is the last success or the initial release. */
  predicate PointerSafe(s: State)
    requires RecordsSuccesses(s)
  {
    NothingInFlight(s) ==> s.leadership.pointer.release == OfficialRelease(s.jobs, s.succeeded, s.initial)
  }

  /** Pointer safety, for every number of workers, crash, expired lease and lost reply,
      and whatever the clocks of a claim read. */
  lemma PointerSafety(s: State, actions: seq<Action>)
    requires Init(s) && CanRun(s, actions) && GrantedRun(s, actions)
    ensures var e := Run(s, actions); RecordsSuccesses(e) && PointerSafe(e) && HistoryOk(e.jobs, e.succeeded)
  {
    InitKeeps(s);
    RunKeeps(s, actions);
    hide Init;
    InvIsSafe(Run(s, actions));
  }

  lemma InvIsSafe(s: State)
    requires Inv(s)
    ensures RecordsSuccesses(s) && PointerSafe(s) && HistoryOk(s.jobs, s.succeeded)
  {
    if s.exposed != [] {
      ExposedLink(s, 0);
    }
    hide JobsOk, TxOk, WorkersOk, ReconcilersOk;
  }

  /** At any moment: from the official pointer the parents lead down to the last success,
      over jobs that are PROMOTING or VERIFYING, the topmost one only, or in recovery. */
  lemma PointerDuringFlight(s: State, actions: seq<Action>)
    requires Init(s) && CanRun(s, actions) && GrantedRun(s, actions)
    ensures var e := Run(s, actions);
      RecordsSuccesses(e) && PointerOk(e.jobs, e.leadership, e.exposed, OfficialRelease(e.jobs, e.succeeded, e.initial))
  {
    InitKeeps(s);
    RunKeeps(s, actions);
    hide Init;
    InvIsSafe(Run(s, actions));
  }

  lemma AloneExposed(s: State)
    requires Inv(s) && AtMostOneInFlight(s)
    ensures |s.exposed| <= 1
  {
    if |s.exposed| > 1 {
      ExposedLink(s, 0);
      ExposedLink(s, 1);
    }
    hide JobsOk, TxOk, WorkersOk, ReconcilersOk;
  }

  /** Where claims see no lease between their clocks there is no other job in flight: only
      its own candidate can stand in for the last success. */
  lemma PointerIsItsOwn(s: State, actions: seq<Action>, j: nat)
    requires Init(s) && CanRun(s, actions) && GrantedRun(s, actions) && ClockRun(s, actions)
    requires j < |Run(s, actions).jobs| && InFlight(Run(s, actions).jobs[j].state)
    ensures var e := Run(s, actions);
      && RecordsSuccesses(e)
      && (|| e.leadership.pointer.release == OfficialRelease(e.jobs, e.succeeded, e.initial)
          || (&& e.leadership.pointer.release == e.jobs[j].release
              && e.jobs[j].parent == OfficialRelease(e.jobs, e.succeeded, e.initial)
              && e.jobs[j].state != Assembling))
  {
    GlobalExclusion(s, actions);
    InitKeeps(s);
    RunKeeps(s, actions);
    hide Init, ClockRun, GrantedRun;
    OwnIsExposed(Run(s, actions), j);
  }

  lemma OwnIsExposed(e: State, j: nat)
    requires Inv(e) && AtMostOneInFlight(e) && j < |e.jobs| && InFlight(e.jobs[j].state)
    ensures RecordsSuccesses(e)
    ensures
      || e.leadership.pointer.release == OfficialRelease(e.jobs, e.succeeded, e.initial)
      || (&& e.leadership.pointer.release == e.jobs[j].release
          && e.jobs[j].parent == OfficialRelease(e.jobs, e.succeeded, e.initial)
          && e.jobs[j].state != Assembling)
  {
    AloneExposed(e);
    if e.exposed != [] {
      ExposedLink(e, 0);
      assert InFlight(e.jobs[e.exposed[0]].state);
    }
    hide JobsOk, TxOk, WorkersOk, ReconcilersOk;
  }

  // ----- a restoration that lands late -----

  lemma StillRestorable(s: State, e: State, t: Token)
    requires Inv(s) && At(s, t, RestoreReady) && Inv(e)
    requires var j := s.workers[t].job; j < |e.jobs| && Follows(s.jobs[j], e.jobs[j])
    requires e.leadership.pointer == Pointer(s.jobs[s.workers[t].job].release, s.workers[t].restoreGeneration)
    requires e.leadership.tx.None?
    ensures Restorable(e, s.workers[t].job)
  {
    WorkerIsOk(s, t);
    JobIsOk(e, s.workers[t].job);
    hide Inv, LiveOk, InDoubt;
  }

  lemma RestoredIsOfficial(s: State, j: nat)
    requires Inv(s) && Restorable(s, j)
    ensures Inv(RestoredTo(s, j))
    ensures var r := RestoredTo(s, j);
      && RecordsSuccesses(r) && PointerSafe(r)
      && (AtMostOneInFlight(s) ==> r.leadership.pointer.release == OfficialRelease(r.jobs, r.succeeded, r.initial))
  {
    RestoreSwaps(s, j);
    InvIsSafe(RestoredTo(s, j));
    BeneathTop(s, j);
    if AtMostOneInFlight(s) {
      AloneExposed(s);
    }
    hide Inv, AtMostOneInFlight;
  }

  /** The worker that asked for a restoration may have died or given up long ago: when its
      compare-and-swap still takes effect, it puts back what was official before, which
      is the last success if nothing else is in flight, and every promise of this module
      holds from there on. */
  lemma LateRestoreIsSafe(start: State, before: seq<Action>, t: Token, actions: seq<Action>)
    requires Init(start) && CanRun(start, before) && GrantedRun(start, before)
    requires var s := Run(start, before); CanRun(s, actions) && GrantedRun(s, actions) && At(s, t, RestoreReady)
    requires var s := Run(start, before); var l := Run(s, actions).leadership; var w := s.workers[t];
      l.pointer == Pointer(s.jobs[w.job].release, w.restoreGeneration) && l.tx.None?
    ensures var s := Run(start, before); var e := Run(s, actions); var j := s.workers[t].job;
      && j < |e.jobs| && Inv(RestoredTo(e, j))
      && var r := RestoredTo(e, j);
         && RecordsSuccesses(r) && PointerSafe(r)
         && (AtMostOneInFlight(e) ==> r.leadership.pointer.release == OfficialRelease(r.jobs, r.succeeded, r.initial))
  {
    hide *;
    InitTidy(start);
    RunTidies(start, before);
    InitKeeps(start);
    RunKeeps(start, before);
    var s := Run(start, before);
    RunKeeps(s, actions);
    AtRuns(s, t);
    RunFollows(s, actions, s.workers[t].job);
    StillRestorable(s, Run(s, actions), t);
    RestoredIsOfficial(Run(s, actions), s.workers[t].job);
  }

  lemma AtRuns(s: State, t: Token)
    requires At(s, t, RestoreReady)
    ensures t in s.workers && s.workers[t].job < |s.jobs|
  {
  }

  // ----- what each grant is worth -----

  /** The official release is the last success, or the candidate of a job that still
      answers for it. */
  predicate Accounted(s: State)
    requires RecordsSuccesses(s)
  {
    || s.leadership.pointer.release == OfficialRelease(s.jobs, s.succeeded, s.initial)
    || exists j :: 0 <= j < |s.jobs| && s.jobs[j].release == s.leadership.pointer.release && MayBeOfficial(s.jobs[j].state)
  }

  /** What an exception in the unguarded lines of a reclaimed job does. */
  function ReclaimThrow(s: State, t: Token): State
    requires StepEnabled(s, t, Fail) && s.workers[t].pc == Loaded
  {
    Decide(CatchReconcile(Throw(s, t), t, true), t)
  }

  lemma ReclaimThrowFails(s: State, t: Token)
    requires Inv(s) && At(s, t, Loaded) && Live(s, t)
    ensures var j := s.workers[t].job; var s' := ReclaimThrow(s, t);
      && s'.jobs == s.jobs[j := Close(s.jobs[j], Failed)]
      && s'.leadership == s.leadership && s'.succeeded == s.succeeded && s'.initial == s.initial
  {
    Facts(s, t);
    hide Inv;
  }

  lemma FailingExact(s: State, j: nat)
    requires Inv(s) && j < |s.jobs| && InFlight(s.jobs[j].state)
    ensures var s' := SetJob(s, j, Close(s.jobs[j], Failed));
      && RecordsSuccesses(s') && (Accounted(s') <==> !OnCandidate(s, j))
  {
    var s' := SetJob(s, j, Close(s.jobs[j], Failed));
    HistoryAfter(s.jobs, s.succeeded, s.initial, j, Close(s.jobs[j], Failed));
    NotOfficial(s, j);
    if s.exposed != [] {
      ExposedLink(s, 0);
      assert s.exposed[0] != j ==> s'.jobs[s.exposed[0]] == s.jobs[s.exposed[0]];
    }
    hide JobsOk, TxOk, WorkersOk, ReconcilersOk;
  }

  /** With no other job in flight, that is pointer safety itself. */
  lemma FailingAlone(s: State, j: nat)
    requires Inv(s) && j < |s.jobs| && InFlight(s.jobs[j].state) && AtMostOneInFlight(s)
    ensures var s' := SetJob(s, j, Close(s.jobs[j], Failed));
      && RecordsSuccesses(s') && NothingInFlight(s') && (PointerSafe(s') <==> !OnCandidate(s, j))
  {
    FailingExact(s, j);
    hide Inv;
  }

  /** A reclaimed job that throws there is recorded as FAILED with its pointer unread, and
      the pointer is accounted for exactly when it is not on the job's candidate. */
  lemma ReclaimThrowExact(s: State, t: Token)
    requires Inv(s) && At(s, t, Loaded) && Live(s, t)
    ensures var s' := ReclaimThrow(s, t);
      && RecordsSuccesses(s')
      && s.workers[t].job < |s'.jobs| && s'.jobs[s.workers[t].job].state == Failed
      && s'.leadership.pointer == s.leadership.pointer
      && (Accounted(s') <==> !OnCandidate(s, s.workers[t].job))
      && (AtMostOneInFlight(s) ==> NothingInFlight(s') && (PointerSafe(s') <==> !OnCandidate(s, s.workers[t].job)))
  {
    ReclaimThrowFails(s, t);
    assert Owned(s.jobs[s.workers[t].job].state) by { Facts(s, t); }
    hide Inv, ReclaimThrow, AtMostOneInFlight, NothingInFlight;
    FailingExact(s, s.workers[t].job);
    if AtMostOneInFlight(s) {
      FailingAlone(s, s.workers[t].job);
    }
  }

  /** A COMMIT that takes effect, in time or late, leaves the pointer accounted for
      exactly when its job has not been closed meanwhile, or is itself the last success;
      and then the parents still lead down to the last success. */
  lemma LateCommitExact(s: State)
    requires Inv(s) && Enabled(s, CommitDecision(true))
    ensures var s' := DecideCommit(s, true); var job := s.jobs[s.leadership.tx.value.job];
      var official := OfficialRelease(s.jobs, s.succeeded, s.initial);
      && RecordsSuccesses(s')
      && (Accounted(s') <==> MayBeOfficial(job.state) || job.release == official)
      && (MayBeOfficial(job.state) ==> PointerOk(s'.jobs, s'.leadership, s'.exposed, official))
  {
    var j := s.leadership.tx.value.job;
    var s' := DecideCommit(s, true);
    assert s'.jobs[j] == s.jobs[j];
    if MayBeOfficial(s.jobs[j].state) {
      PromotionPointer(s);
    }
    hide JobsOk, TxOk, WorkersOk, ReconcilersOk, PointerOk;
  }

  lemma CommitSees(s: State)
    requires Inv(s) && Enabled(s, CommitDecision(true))
    ensures var job := s.jobs[s.leadership.tx.value.job]; s.leadership.pointer.release == job.parent != job.release
  {
    hide JobsOk, WorkersOk, ReconcilersOk, HistoryOk, OnePointer, PointerOk;
  }

  predicate ReadsPointer(step: Step) {
    step.ReconcileReclaimed? || step.ReconcileAmbiguous? || step == CatchReconciliation(true)
  }

  /** The worker after a reconciling read. */
  function Reading(w: Worker, pc: Pc, candidate: bool): Worker {
    w.(pc := pc, promoted := candidate, promotionStateKnown := true)
  }

  lemma ReadGives(s: State, t: Token, step: Step)
    requires StepEnabled(s, t, step) && ReadsPointer(step)
    requires step.CatchReconciliation? ==> StateUnknown(s.workers[t])
    ensures var w := s.workers[t]; var s' := Advance(s, t, step); var on := OnCandidate(s, w.job);
      && s'.jobs == s.jobs && s'.leadership == s.leadership && s'.now == s.now && t in s'.workers
      && (step.ReconcileReclaimed? ==> s'.workers[t] == Reading(w, Ready, on))
      && (step.ReconcileAmbiguous? && on ==> s'.workers[t] == Reading(w, Checking, true))
      && (step.ReconcileAmbiguous? && !on ==> s'.workers[t] == w.(pc := Catching, promotionStateKnown := true))
      && (step.CatchReconciliation? ==> s'.workers[t] == Reading(w, Deciding, on))
  {
  }

  /** A COMMIT taking effect in time makes what the worker believes of the pointer false. */
  predicate CommitCanBelie(s: State, t: Token)
    requires Running(s, t)
  {
    && Enabled(s, CommitDecision(true)) && Granted(s, CommitDecision(true))
    && OnCandidate(DecideCommit(s, true), s.workers[t].job) != s.workers[t].promoted
  }

  /** Whatever decision is on the wire, the worker's own candidate is not official yet. */
  lemma NotYetOfficial(s: State, t: Token)
    requires Inv(s) && Running(s, t) && Live(s, t) && Decides(s, true) && Owned(s.jobs[s.workers[t].job].state)
    ensures s.leadership.pointer.release != s.jobs[s.workers[t].job].release
    ensures var j := s.leadership.tx.value.job;
      j < |s.jobs| && (j != s.workers[t].job ==> s.jobs[j].release != s.jobs[s.workers[t].job].release)
  {
    hide Inv, JobOk;
    var j := s.leadership.tx.value.job;
    CommitSees(s);
    if j != s.workers[t].job {
      OtherRelease(s, j, s.workers[t].job);
      if s.leadership.tx.value.owner == t {
        OwnerJob(s);
      } else {
        DecisionPassesBy(s, t);
      }
    }
  }

  lemma BelieExact(s: State, t: Token, step: Step)
    requires Inv(s) && StepEnabled(s, t, step) && Live(s, t) && ReadsPointer(step)
    requires step.CatchReconciliation? ==> StateUnknown(s.workers[t])
    ensures var s' := Advance(s, t, step); var w := s.workers[t];
      && Running(s', t) && s'.workers[t].promoted == OnCandidate(s', w.job)
      && (CommitCanBelie(s', t) <==> InDoubt(s.leadership, s.now, w.job))
  {
    EnabledRuns(s, t, step);
    hide Inv, Advance, StepEnabled, WorkerOk;
    ReadGives(s, t, step);
    WorkerIsOk(s, t);
    NotPromoted(s, t, step);
    if Decides(s, true) {
      NotYetOfficial(s, t);
    }
    Decided(s, t, Advance(s, t, step));
  }

  lemma EnabledRuns(s: State, t: Token, step: Step)
    requires StepEnabled(s, t, step)
    ensures Running(s, t)
  {
  }

  /** Before an ambiguous promotion is read, the candidate is not believed to be official. */
  lemma NotPromoted(s: State, t: Token, step: Step)
    requires StepEnabled(s, t, step) && Live(s, t)
    requires WorkerOk(t, s.workers[t], s.jobs[s.workers[t].job], s.leadership, s.now)
    requires ReadsPointer(step) && (step.CatchReconciliation? ==> StateUnknown(s.workers[t]))
    ensures (step.ReconcileAmbiguous? ==> !s.workers[t].promoted) && Owned(s.jobs[s.workers[t].job].state)
  {
    hide InDoubt;
  }

  lemma Decided(s: State, t: Token, s': State)
    requires Running(s, t) && Running(s', t) && s'.jobs == s.jobs && s'.leadership == s.leadership && s'.now == s.now
    requires s'.workers[t].job == s.workers[t].job && s'.workers[t].promoted == OnCandidate(s', s.workers[t].job)
    requires Decides(s, true) ==>
      && s.leadership.pointer.release != s.jobs[s.workers[t].job].release
      && var j := s.leadership.tx.value.job;
         j < |s.jobs| && (j != s.workers[t].job ==> s.jobs[j].release != s.jobs[s.workers[t].job].release)
    ensures CommitCanBelie(s', t) <==> InDoubt(s.leadership, s.now, s.workers[t].job)
  {
  }

  /** What a claim holder believes after one of the three reconciling reads is sound
      exactly when no COMMIT of its job can still take effect. */
  lemma EarlyReadExact(s: State, t: Token, step: Step)
    requires Inv(s) && StepEnabled(s, t, step) && Live(s, t) && ReadsPointer(step)
    requires step.CatchReconciliation? ==> StateUnknown(s.workers[t])
    ensures var s' := Advance(s, t, step); var w := s.workers[t];
      && t in s'.workers && w.job < |s'.jobs|
      && (WorkerOk(t, s'.workers[t], s'.jobs[w.job], s'.leadership, s'.now) <==> !InDoubt(s.leadership, s.now, w.job))
      && s'.workers[t].promoted == OnCandidate(s', w.job)
      && (CommitCanBelie(s', t) <==> InDoubt(s.leadership, s.now, w.job))
  {
    var w := s.workers[t];
    ReadGives(s, t, step);
    BelieExact(s, t, step);
    Facts(s, t);
    CandidateNotInDoubt(s, w.job);
    BeliefExact(t, w, s.jobs[w.job], s.leadership, s.now, Advance(s, t, step).workers[t]);
    hide Inv, JobOk, TxShape, Advance, WorkerOk, InDoubt;
  }

  lemma BeliefExact(t: Token, w: Worker, job: Job, l: Leadership, now: int, w': Worker)
    requires WorkerOk(t, w, job, l, now) && job.claimToken == Some(t) && w'.job == w.job
    requires l.pointer.release == job.release ==> !InDoubt(l, now, w.job)
    requires var on := l.pointer.release == job.release;
      || (w.pc == Reconciling && w' == Reading(w, Ready, on))
      || (w.pc == InnerCatch && w' == if on then Reading(w, Checking, true) else w.(pc := Catching, promotionStateKnown := true))
      || (w.pc == Catching && StateUnknown(w) && w' == Reading(w, Deciding, on))
    ensures WorkerOk(t, w', job, l, now) <==> !InDoubt(l, now, w.job)
  {
    hide InDoubt;
  }

  lemma CandidateNotInDoubt(s: State, j: nat)
    requires Inv(s) && j < |s.jobs|
    ensures s.leadership.pointer.release == s.jobs[j].release ==> !InDoubt(s.leadership, s.now, j)
  {
    hide JobsOk, WorkersOk, ReconcilersOk, HistoryOk, OnePointer, PointerOk;
  }
}
