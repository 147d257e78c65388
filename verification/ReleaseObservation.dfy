/** Observing the official Leadership release from Studio
    (packages/leadership-bridge/src/index.ts, apps/web/src/server/leadership-sync.ts):
    a guard is captured, Leadership is read, and the snapshot is imported only if
    the guard still holds.  Publications go on concurrently. */
module ReleaseObservation {
  import opened Common
  import opened PublicationProtocol
  import opened PublicationInvariant
  import PS = PublicationSteps
  import PT = PublicationTheorems
  import PW = PublicationRows
  import X = PublicationCounterexamples
  import PU = PublicationRuns

  /** publicationReconciliationFenceStates. */
  predicate FenceState(st: JobState) {
    st == Requested || InFlight(st)
  }

  predicate Fenced(jobs: seq<Job>) {
    exists j :: 0 <= j < |jobs| && FenceState(jobs[j].state)
  }

  /** The fence is up exactly while some job has not ended. */
  lemma FenceExact(jobs: seq<Job>)
    ensures Fenced(jobs) <==> exists j :: 0 <= j < |jobs| && jobs[j].state !in {Succeeded, NeedsRefresh, Restored, Failed}
  {
  }

  /** What is captured: the number of job rows. */
  datatype Capture = Blocked | Free(count: nat)

  function CaptureGuard(jobs: seq<Job>): Capture {
    if Fenced(jobs) then Blocked else Free(|jobs|)
  }

  /** The test in front of every observation write. */
  predicate GuardHolds(jobs: seq<Job>, count: nat) {
    !Fenced(jobs) && |jobs| == count
  }

  // ----- the guard is free of ABA -----

  lemma Unfenced(s: State)
    requires PW.AllTidy(s)
    ensures PW.TokensIssued(s)
    ensures forall j :: 0 <= j < |s.jobs| && !FenceState(s.jobs[j].state) ==>
      Terminal(s.jobs[j].state) && s.jobs[j].claimToken.None?
  {
    forall j | 0 <= j < |s.jobs|
      ensures PW.Tidy(s.jobs[j])
    {
    }
  }

  lemma {:induction false} JobsNeverDeleted(s: State, actions: seq<Action>)
    requires CanRun(s, actions) && PW.TokensIssued(s)
    ensures |s.jobs| <= |Run(s, actions).jobs|
    decreases |actions|
  {
    if actions != [] {
      hide Apply;
      if s.jobs != [] {
        PW.ActionRowStep(s, actions[0], 0);
      } else {
        FirstTokens(s, actions[0]);
      }
      JobsNeverDeleted(Apply(s, actions[0]), actions[1..]);
    }
  }

  lemma FirstTokens(s: State, a: Action)
    requires s.jobs == [] && PW.TokensIssued(s) && Enabled(s, a)
    ensures PW.TokensIssued(Apply(s, a))
  {
  }

  lemma {:induction false} PrefixRuns(s: State, actions: seq<Action>, k: nat)
    requires CanRun(s, actions) && k <= |actions|
    ensures CanRun(s, actions[..k]) && CanRun(Run(s, actions[..k]), actions[k..])
    ensures Run(Run(s, actions[..k]), actions[k..]) == Run(s, actions)
    ensures GrantedRun(s, actions) ==> GrantedRun(s, actions[..k]) && GrantedRun(Run(s, actions[..k]), actions[k..])
    decreases |actions|
  {
    hide Apply, Enabled, Granted;
    if k == 0 {
      assert actions[..0] == [] && actions[0..] == actions;
    } else {
      PrefixRuns(Apply(s, actions[0]), actions[1..], k - 1);
      assert actions[..k][0] == actions[0] && actions[..k][1..] == actions[1..][..k - 1];
      assert actions[k..] == actions[1..][k - 1..];
    }
  }

  lemma {:induction false} UnchangedRows(s: State, actions: seq<Action>, k: nat)
    requires PW.AllTidy(s) && CanRun(s, actions) && k <= |actions|
    requires CaptureGuard(s.jobs).Free? && GuardHolds(Run(s, actions).jobs, CaptureGuard(s.jobs).count)
    ensures CanRun(s, actions[..k])
    ensures Run(s, actions[..k]).jobs == s.jobs && !Fenced(Run(s, actions[..k]).jobs)
  {
    PrefixRuns(s, actions, k);
    Unfenced(s);
    hide PW.AllTidy;
    var middle := Run(s, actions[..k]);
    JobsNeverDeleted(s, actions[..k]);
    TokensStay(s, actions[..k]);
    JobsNeverDeleted(middle, actions[k..]);
    assert |middle.jobs| == |s.jobs|;
    forall j | 0 <= j < |s.jobs|
      ensures middle.jobs[j] == s.jobs[j]
    {
      assert !FenceState(s.jobs[j].state);
      PW.TerminalStays(s, actions[..k], j);
    }
  }

  /** After any past and whatever the environment does: if the guard captured in the
      state `before` leads to still holds after `actions`, then no job was in a fence
      state at any instant in between; the job rows never changed at all. */
  lemma {:induction false} GuardIsAbaFree(start: State, before: seq<Action>, actions: seq<Action>, k: nat)
    requires Init(start) && CanRun(start, before) && CanRun(Run(start, before), actions) && k <= |actions|
    requires CaptureGuard(Run(start, before).jobs).Free?
    requires GuardHolds(Run(Run(start, before), actions).jobs, CaptureGuard(Run(start, before).jobs).count)
    ensures var s := Run(start, before);
      CanRun(s, actions[..k]) && Run(s, actions[..k]).jobs == s.jobs && !Fenced(Run(s, actions[..k]).jobs)
  {
    PW.InitTidy(start);
    PW.RunTidies(start, before);
    UnchangedRows(Run(start, before), actions, k);
  }

  lemma {:induction false} TokensStay(s: State, actions: seq<Action>)
    requires CanRun(s, actions) && PW.TokensIssued(s)
    ensures PW.TokensIssued(Run(s, actions))
    decreases |actions|
  {
    if actions != [] {
      hide Apply;
      if s.jobs != [] {
        PW.ActionRowStep(s, actions[0], 0);
      } else {
        FirstTokens(s, actions[0]);
      }
      TokensStay(Apply(s, actions[0]), actions[1..]);
    }
  }

  // ----- what is imported -----

  /** A finalisation is the only thing that extends the history, and it starts from VERIFYING. */
  lemma SuccessNeedsVerifying(s: State, a: Action)
    requires Enabled(s, a) && Apply(s, a).succeeded != s.succeeded
    ensures exists j :: 0 <= j < |s.jobs| && s.jobs[j].state == Verifying
  {
    assert a.Work?;
    assert s.jobs[s.workers[a.t].job].state == Verifying;
  }

  lemma {:induction false} HistoryStands(s: State, actions: seq<Action>)
    requires CanRun(s, actions)
    requires forall k :: 0 <= k <= |actions| ==> CanRun(s, actions[..k]) && !Fenced(Run(s, actions[..k]).jobs)
    ensures Run(s, actions).succeeded == s.succeeded
    decreases |actions|
  {
    if actions != [] {
      assert CanRun(s, actions[..0]) && actions[..0] == [];
      assert !Fenced(Run(s, actions[..0]).jobs);
      var next := Apply(s, actions[0]);
      if next.succeeded != s.succeeded {
        SuccessNeedsVerifying(s, actions[0]);
      }
      hide Apply, Enabled;
      forall k | 0 <= k <= |actions| - 1
        ensures CanRun(next, actions[1..][..k]) && !Fenced(Run(next, actions[1..][..k]).jobs)
      {
        assert CanRun(s, actions[..k + 1]);
        assert actions[..k + 1][0] == actions[0] && actions[..k + 1][1..] == actions[1..][..k];
      }
      HistoryStands(next, actions[1..]);
    }
  }

  lemma {:induction false} RunIsGranted(s: State, actions: seq<Action>)
    requires Init(s) && CanRun(s, actions) && GrantedRun(s, actions)
    ensures Inv(Run(s, actions))
  {
    InitKeeps(s);
    PS.RunKeeps(s, actions);
  }

  /** Capture, read, import: when the import happens, the release that was read is
      the official one, the last job that SUCCEEDED or the initial release, when it
      was read and still when it is imported.  No unverified candidate is imported. */
  lemma {:induction false} ImportedIsOfficial(start: State, before: seq<Action>, actions: seq<Action>, read: nat)
    requires Init(start) && CanRun(start, before) && GrantedRun(start, before)
    requires CanRun(Run(start, before), actions) && GrantedRun(Run(start, before), actions) && read <= |actions|
    requires CaptureGuard(Run(start, before).jobs).Free?
    requires GuardHolds(Run(Run(start, before), actions).jobs, CaptureGuard(Run(start, before).jobs).count)
    ensures var s := Run(start, before); var end := Run(s, actions);
      && CanRun(s, actions[..read])
      && PT.RecordsSuccesses(end)
      && Run(s, actions[..read]).leadership.pointer.release == OfficialRelease(end.jobs, end.succeeded, end.initial)
      && end.leadership.pointer.release == Run(s, actions[..read]).leadership.pointer.release
  {
    RunIsGranted(start, before);
    PW.InitTidy(start);
    PW.RunTidies(start, before);
    var s := Run(start, before);
    PrefixRuns(s, actions, read);
    var seen := Run(s, actions[..read]);
    PS.RunKeeps(s, actions[..read]);
    PS.RunKeeps(s, actions);
    UnchangedRows(s, actions, read);
    QuietStretch(s, actions, |actions|);
    QuietStretch(s, actions, read);
    assert actions[..|actions|] == actions;
    InitialStays(s, actions);
    InitialStays(s, actions[..read]);
    OfficialWhenQuiet(seen);
    OfficialWhenQuiet(Run(s, actions));
    hide Inv, Init, GrantedRun, PW.AllTidy;
  }

  lemma QuietStretch(s: State, actions: seq<Action>, k: nat)
    requires PW.AllTidy(s) && CanRun(s, actions) && k <= |actions|
    requires CaptureGuard(s.jobs).Free? && GuardHolds(Run(s, actions).jobs, CaptureGuard(s.jobs).count)
    ensures CanRun(s, actions[..k])
    ensures Run(s, actions[..k]).succeeded == s.succeeded && Run(s, actions[..k]).jobs == s.jobs
  {
    UnchangedRows(s, actions, k);
    forall i | 0 <= i <= k
      ensures CanRun(s, actions[..k][..i]) && !Fenced(Run(s, actions[..k][..i]).jobs)
    {
      assert actions[..k][..i] == actions[..i];
      UnchangedRows(s, actions, i);
    }
    HistoryStands(s, actions[..k]);
  }

  lemma {:induction false} InitialStays(s: State, actions: seq<Action>)
    requires CanRun(s, actions)
    ensures Run(s, actions).initial == s.initial
    decreases |actions|
  {
    if actions != [] {
      InitialKept(s, actions[0]);
      hide Apply, Enabled;
      InitialStays(Apply(s, actions[0]), actions[1..]);
    }
  }

  lemma InitialKept(s: State, a: Action)
    requires Enabled(s, a)
    ensures Apply(s, a).initial == s.initial
  {
  }

  lemma OfficialWhenQuiet(s: State)
    requires Inv(s) && !Fenced(s.jobs)
    ensures PT.RecordsSuccesses(s)
    ensures s.leadership.pointer.release == OfficialRelease(s.jobs, s.succeeded, s.initial)
  {
    PT.InvIsSafe(s);
    assert forall j :: 0 <= j < |s.jobs| ==> !FenceState(s.jobs[j].state);
    hide Inv;
  }

  // ----- why the rows are counted -----

  /** The job of `Sending` after its COMMIT took effect: its row, the pointer, and where its worker stands. */
  function Promoted(job: Job, pointer: Pointer, restored: set<nat>, w: Worker): State {
    X.START.(jobs := [job], workers := map[0 := w], nextToken := 1,
             leadership := Leadership(pointer, {0, 1}, None, restored), exposed := if pointer.release == 1 then [0] else [])
  }

  const OWNED := X.FirstJob(Promoting, Some(0), Some(LEASE_MS))
  const RESTORING := X.FirstJob(RecoveryRequired, Some(0), Some(LEASE_MS))
  const INFORMED := Worker(0, Checking, 0, Assembling, true, true, true, false, Pointer(0, 0), LEASE_MS, Some(true), 0)

  lemma CommitTaken()
    ensures Enabled(X.ON_THE_WIRE, CommitDecision(true)) && Granted(X.ON_THE_WIRE, CommitDecision(true))
    ensures Apply(X.ON_THE_WIRE, CommitDecision(true)) ==
      Promoted(OWNED, Pointer(1, 1), {}, INFORMED.(pc := Awaiting, promoted := false, promotionStateKnown := false))
  {
  }

  lemma Step(actions: seq<Action>, s: State, step: PublicationProtocol.Step, s': State) returns (actions': seq<Action>)
    requires PU.Leads(X.START, actions, s) && StepEnabled(s, 0, step) && StepGranted(s, 0, step) && s' == Advance(s, 0, step)
    ensures actions <= actions' && PU.Leads(X.START, actions', s')
  {
    actions' := PU.Then(X.START, actions, s, Work(0, step));
  }

  lemma ProbeThrows(actions: seq<Action>) returns (actions': seq<Action>)
    requires PU.Leads(X.START, actions, Apply(X.ON_THE_WIRE, CommitDecision(true)))
    ensures actions <= actions'
    ensures PU.Leads(X.START, actions', Promoted(OWNED, Pointer(1, 1), {}, INFORMED.(pc := Catching)))
  {
    hide PU.Leads;
    CommitTaken();
    var s0 := Promoted(OWNED, Pointer(1, 1), {}, INFORMED.(pc := Awaiting, promoted := false, promotionStateKnown := false));
    var s1 := Promoted(OWNED, Pointer(1, 1), {}, INFORMED);
    actions' := Step(actions, s0, ReceiveReply, s1);
    actions' := Step(actions', s1, Fail, Promoted(OWNED, Pointer(1, 1), {}, INFORMED.(pc := Catching)));
  }

  /** The probe of the promoted candidate fails, and the job enters recovery. */
  lemma ProbeFails(actions: seq<Action>) returns (actions': seq<Action>)
    requires PU.Leads(X.START, actions, Apply(X.ON_THE_WIRE, CommitDecision(true)))
    ensures actions <= actions'
    ensures PU.Leads(X.START, actions', Promoted(RESTORING, Pointer(1, 1), {}, INFORMED.(pc := RestoreReading)))
  {
    hide PU.Leads;
    actions' := ProbeThrows(actions);
    var s2 := Promoted(OWNED, Pointer(1, 1), {}, INFORMED.(pc := Catching));
    var s3 := Promoted(OWNED, Pointer(1, 1), {}, INFORMED.(pc := Deciding));
    actions' := Step(actions', s2, CatchReconciliation(true), s3);
    actions' := Step(actions', s3, CatchBranch, Promoted(RESTORING, Pointer(1, 1), {}, INFORMED.(pc := RestoreReading)));
  }

  /** The parent is restored, and the job ends RESTORED. */
  lemma Restores(actions: seq<Action>) returns (actions': seq<Action>)
    requires PU.Leads(X.START, actions, Promoted(RESTORING, Pointer(1, 1), {}, INFORMED.(pc := RestoreReading)))
    ensures actions <= actions'
    ensures PU.Leads(X.START, actions', Promoted(X.FirstJob(Restored, None, None), Pointer(0, 2), {0}, INFORMED.(pc := Exited, restoreGeneration := 1)))
  {
    hide PU.Leads;
    var w := INFORMED.(restoreGeneration := 1);
    var s0 := Promoted(RESTORING, Pointer(1, 1), {}, INFORMED.(pc := RestoreReading));
    var s1 := Promoted(RESTORING, Pointer(1, 1), {}, w.(pc := RestoreReady));
    var s2 := Promoted(RESTORING, Pointer(0, 2), {0}, w.(pc := RestoreIssued));
    var s3 := Promoted(RESTORING, Pointer(0, 2), {0}, w.(pc := RestoreConfirmed));
    actions' := Step(actions, s0, ReadForRestore, s1);
    actions' := Step(actions', s1, RestoreRelease, s2);
    actions' := Step(actions', s2, CheckRestoration(true), s3);
    actions' := Step(actions', s3, ConcludeRestoration,
                     Promoted(X.FirstJob(Restored, None, None), Pointer(0, 2), {0}, w.(pc := Exited)));
  }

  /** A job requested after the capture can come and go before the import: no fence
      is seen at either end, yet the release that was read never was official.  Only
      the number of rows gives it away. */
  lemma CountIsNeeded() returns (actions: seq<Action>, read: nat)
    ensures Init(X.START) && CanRun(X.START, actions) && GrantedRun(X.START, actions) && read <= |actions|
    ensures !Fenced(X.START.jobs) && !Fenced(Run(X.START, actions).jobs)
    ensures var end := Run(X.START, actions);
      && CanRun(X.START, actions[..read]) && PT.RecordsSuccesses(end)
      && Run(X.START, actions[..read]).leadership.pointer.release != OfficialRelease(end.jobs, end.succeeded, end.initial)
  {
    var sent := X.Sending();
    var decided := PU.Then(X.START, sent, X.ON_THE_WIRE, CommitDecision(true));
    var end := Promoted(X.FirstJob(Restored, None, None), Pointer(0, 2), {0}, INFORMED.(pc := Exited, restoreGeneration := 1));
    actions := ProbeFails(decided);
    actions := Restores(actions);
    read := |decided|;
    assert actions[..read] == decided;
    hide CanRun, GrantedRun, Run;
    CountReached(actions, end);
    CountReached(decided, Apply(X.ON_THE_WIRE, CommitDecision(true)));
  }

  lemma CountReached(actions: seq<Action>, s: State)
    requires PU.Leads(X.START, actions, s)
    ensures CanRun(X.START, actions) && GrantedRun(X.START, actions) && Run(X.START, actions) == s
  {
  }

  // ----- the transactions and the single flight -----

  /** Release id and manifest hash of one Leadership release. */
  datatype Snapshot = Snapshot(release: Release, manifest: nat)

  datatype Reconciliation = IsBlocked | StaleGuard(guarded: nat, observed: nat) | Current | Imported

  /** The row `official` of leadership_sync_cursor and the releases observed so far. */
  class SyncCursor {
    var last: Option<Snapshot>
    var failed: bool                    // lastErrorCode is set
    var observed: set<Snapshot>

    constructor ()
      ensures last.None? && !failed && observed == {}
    {
      last, failed, observed := None, false, {};
    }

    /** reconcileOfficialLeadershipRelease: fence and count are tested in the same
        transaction as every write. */
    method ReconcileOfficial(jobs: seq<Job>, snapshot: Snapshot, count: nat) returns (r: Reconciliation)
      modifies this
      ensures r.Current? || r.Imported? <==> GuardHolds(jobs, count)
      ensures r.IsBlocked? <==> Fenced(jobs)
      ensures r.StaleGuard? ==> r == StaleGuard(count, |jobs|) && count != |jobs|
      ensures GuardHolds(jobs, count) ==> last == Some(snapshot) && !failed
      ensures r.Imported? ==> observed == old(observed) + {snapshot} && old(last) != Some(snapshot)
      ensures !r.Imported? ==> observed == old(observed) && last == old(last)
      ensures !GuardHolds(jobs, count) ==> failed == old(failed)
    {
      if Fenced(jobs) {
        return IsBlocked;
      }
      if |jobs| != count {
        return StaleGuard(count, |jobs|);
      }
      if last == Some(snapshot) {
        failed := false;
        return Current;
      }
      observed := observed + {snapshot};
      last, failed := Some(snapshot), false;
      return Imported;
    }

    /** recordLeadershipReleaseObservationFailure: the cursor is only marked when it exists. */
    method RecordFailure(jobs: seq<Job>, count: nat) returns (recorded: bool)
      modifies this`failed
      ensures recorded <==> GuardHolds(jobs, count)
      ensures failed == (old(failed) || (recorded && last.Some?))
    {
      if Fenced(jobs) || |jobs| != count {
        return false;
      }
      if last.Some? {
        failed := true;
      }
      return true;
    }
  }

  /** The module variables of leadership-sync.ts.  `guard` is the captured guard of
      the observation in progress. */
  class LeadershipSync {
    var active: bool
    var nextObservationAt: int
    var guard: Option<nat>

    ghost predicate Valid()
      reads this
    {
      guard.Some? ==> active
    }

    constructor ()
      ensures Valid() && !active && nextObservationAt == 0
    {
      active, nextObservationAt, guard := false, 0, None;
    }

    /** A call starts an observation exactly when none runs and it is due or forced. */
    method Begin(clock: int, force: bool) returns (started: bool)
      requires Valid()
      modifies this
      ensures Valid()
      ensures started <==> !old(active) && (force || clock >= nextObservationAt)
      ensures active == (old(active) || started) && nextObservationAt == old(nextObservationAt)
      ensures started ==> guard.None?
    {
      if (!force && clock < nextObservationAt) || active {
        return false;
      }
      active, guard := true, None;
      return true;
    }

    /** captureLeadershipReleaseReconciliationGuard returned; a blocked capture ends the observation. */
    method Captured(jobs: seq<Job>, clock: int) returns (goOn: bool)
      requires Valid() && active
      modifies this
      ensures Valid()
      ensures goOn <==> CaptureGuard(jobs).Free?
      ensures goOn ==> active && guard == Some(CaptureGuard(jobs).count) && nextObservationAt == old(nextObservationAt)
      ensures !goOn ==> !active && nextObservationAt == clock + 5_000
    {
      if Fenced(jobs) {
        nextObservationAt, active, guard := clock + 5_000, false, None;
        return false;
      }
      guard := Some(|jobs|);
      return true;
    }

    /** The read snapshot is committed under the captured guard and no other. */
    method Commit(cursor: SyncCursor, jobs: seq<Job>, snapshot: Snapshot, clock: int) returns (r: Reconciliation)
      requires Valid() && guard.Some?
      modifies this, cursor
      ensures Valid() && !active
      ensures r.Current? || r.Imported? <==> GuardHolds(jobs, old(guard).value)
      ensures GuardHolds(jobs, old(guard).value) ==> cursor.last == Some(snapshot) && !cursor.failed
      ensures r.Imported? ==> cursor.observed == old(cursor.observed) + {snapshot}
      ensures !r.Imported? ==> cursor.observed == old(cursor.observed) && cursor.last == old(cursor.last)
      ensures !GuardHolds(jobs, old(guard).value) ==> cursor.failed == old(cursor.failed)
      ensures nextObservationAt == clock + if GuardHolds(jobs, old(guard).value) then 30_000 else 5_000
    {
      r := cursor.ReconcileOfficial(jobs, snapshot, guard.value);
      nextObservationAt := clock + if r.IsBlocked? || r.StaleGuard? then 5_000 else 30_000;
      active, guard := false, None;
    }

    /** The read or the commit threw. */
    method Failed(cursor: SyncCursor, jobs: seq<Job>, clock: int)
      requires Valid() && active
      modifies this, cursor`failed
      ensures Valid() && !active && nextObservationAt == clock + 10_000
      ensures old(guard).None? ==> cursor.failed == old(cursor.failed)
      ensures old(guard).Some? ==> cursor.failed == (old(cursor.failed) || (GuardHolds(jobs, old(guard).value) && cursor.last.Some?))
    {
      nextObservationAt := clock + 10_000;
      if guard.Some? {
        var recorded := cursor.RecordFailure(jobs, guard.value);
      }
      active, guard := false, None;
    }
  }
}
