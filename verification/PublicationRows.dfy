/** What the job rows of the publisher keep in every run, or in every run whose claims
    see no lease between the two clocks: nothing here is asked of COMMIT, of the
    reconciling reads or of a reclaim. */
module PublicationRows {
  import opened Common
  import opened PublicationProtocol
  import I = PublicationInvariant

  predicate AtMostOneInFlight(s: State) {
    forall i, j :: 0 <= i < |s.jobs| && 0 <= j < |s.jobs| && InFlight(s.jobs[i].state) && InFlight(s.jobs[j].state) ==> i == j
  }

  // ----- tokens -----

  /** A worker that lost its claim changes no row, whatever it does next. */
  lemma StaleWorkerIsPowerless(s: State, t: Token, step: Step)
    requires StepEnabled(s, t, step) && !Live(s, t)
    ensures var s' := Advance(s, t, step); s'.jobs == s.jobs && s'.succeeded == s.succeeded
  {
  }

  predicate TokensIssued(s: State) {
    && (forall i :: 0 <= i < |s.jobs| && s.jobs[i].claimToken.Some? ==> s.jobs[i].claimToken.value < s.nextToken)
    && (forall t :: t in s.workers ==> t < s.nextToken && s.workers[t].job < |s.jobs|)
  }

  /** What one action does to one row: nothing, unless the row is claimed with a
      token nobody had, or its claim holder writes it. */
  predicate RowStep(job: Job, job': Job, nextToken: Token) {
    || job' == job
    || (job.claimToken.Some? && (job'.claimToken == job.claimToken || job'.claimToken.None?))
    || (!Terminal(job.state) && job'.claimToken.Some? && job'.claimToken.value == nextToken)
  }

  predicate OwnRowOnly(s: State, s': State, t: Token)
    requires Running(s, t)
  {
    var j := s.workers[t].job;
    && |s'.jobs| == |s.jobs| && s'.nextToken == s.nextToken
    && t in s'.workers && s'.workers[t].job == j && s'.workers == s.workers[t := s'.workers[t]]
    && (s'.jobs == s.jobs
        || (&& s.jobs[j].claimToken == Some(t) && s'.jobs == s.jobs[j := s'.jobs[j]]
            && (s'.jobs[j].claimToken == Some(t) || s'.jobs[j].claimToken.None?)))
  }

  lemma ClaimantWritesOwnRow(s: State, t: Token, step: Step)
    requires StepEnabled(s, t, step)
    requires step.RenewLease? || step.MarkPromoting? || step.BeforeCommit? || step.RecordConflict? || step.RecordVerifying?
    ensures OwnRowOnly(s, Advance(s, t, step), t)
  {
  }

  lemma ConclusionWritesOwnRow(s: State, t: Token, step: Step)
    requires StepEnabled(s, t, step)
    requires step.FinalizeSuccess? || step.SuppressRestoration? || step.CatchBranch? || step.ConcludeRestoration?
    ensures OwnRowOnly(s, Advance(s, t, step), t)
  {
  }

  lemma PromotionWritesNoRow(s: State, t: Token, step: Step)
    requires StepEnabled(s, t, step)
    requires step.InsertAndPromote? || step.IssueCommit? || step.ReceiveReply? || step.ReconcileAmbiguous? || step.CheckPromotion?
             || step.RestoreRelease? || step.CheckRestoration? || step.Fail? || step.Die?
    ensures OwnRowOnly(s, Advance(s, t, step), t)
  {
  }

  lemma WorkTouchesOwnRow(s: State, t: Token, step: Step)
    requires StepEnabled(s, t, step)
    ensures OwnRowOnly(s, Advance(s, t, step), t)
  {
    if step.RenewLease? || step.MarkPromoting? || step.BeforeCommit? || step.RecordConflict? || step.RecordVerifying? {
      ClaimantWritesOwnRow(s, t, step);
    } else if step.FinalizeSuccess? || step.SuppressRestoration? || step.CatchBranch? || step.ConcludeRestoration? {
      ConclusionWritesOwnRow(s, t, step);
    } else if step.InsertAndPromote? || step.IssueCommit? || step.ReceiveReply? || step.ReconcileAmbiguous? || step.CheckPromotion?
              || step.RestoreRelease? || step.CheckRestoration? || step.Fail? || step.Die? {
      PromotionWritesNoRow(s, t, step);
    }
  }

  /** What one action leaves behind for the row of `j` and for every worker. */
  predicate RowsAndWorkersKept(s: State, s': State, j: nat)
    requires j < |s.jobs|
  {
    && TokensIssued(s') && |s.jobs| <= |s'.jobs|
    && RowStep(s.jobs[j], s'.jobs[j], s.nextToken)
    && forall t :: t in s.workers ==> t in s'.workers && s'.workers[t].job == s.workers[t].job
  }

  lemma WorkRowStep(s: State, t: Token, step: Step, j: nat)
    requires StepEnabled(s, t, step) && j < |s.jobs| && TokensIssued(s)
    ensures RowsAndWorkersKept(s, Advance(s, t, step), j)
  {
    WorkTouchesOwnRow(s, t, step);
    hide Advance, StepEnabled;
  }

  lemma DecisionRowStep(s: State, ok: bool, j: nat)
    requires Enabled(s, CommitDecision(ok)) && j < |s.jobs| && TokensIssued(s)
    ensures RowsAndWorkersKept(s, DecideCommit(s, ok), j)
  {
  }

  lemma RecoveryRowStep(s: State, r: nat, jsNow: int, j: nat)
    requires Enabled(s, TakeRecovery(r, jsNow)) && j < |s.jobs| && TokensIssued(s)
    ensures RowsAndWorkersKept(s, ClaimRecovery(s, r, jsNow), j)
  {
  }

  lemma ActionRowStep(s: State, a: Action, j: nat)
    requires Enabled(s, a) && j < |s.jobs| && TokensIssued(s)
    ensures RowsAndWorkersKept(s, Apply(s, a), j)
  {
    match a
    case Work(t, step) => WorkRowStep(s, t, step, j);
    case CommitDecision(ok) => DecisionRowStep(s, ok, j);
    case TakeRecovery(r, jsNow) => RecoveryRowStep(s, r, jsNow, j);
    case _ =>
  }

  /** A claim once lost is lost for good, even if every lease check were skipped. */
  lemma {:induction false} StaleForGood(s: State, actions: seq<Action>, t: Token)
    requires CanRun(s, actions) && TokensIssued(s) && Running(s, t) && !Live(s, t)
    ensures Running(Run(s, actions), t) && !Live(Run(s, actions), t)
    decreases |actions|
  {
    if actions != [] {
      ActionRowStep(s, actions[0], s.workers[t].job);
      StaleForGood(Apply(s, actions[0]), actions[1..], t);
    }
  }

  // ----- rows -----

  /** A row outside the flight is owned by nobody, and a token comes with its lease. */
  predicate Tidy(job: Job) {
    (!InFlight(job.state) ==> job.claimToken.None?) && (job.claimToken.None? <==> job.lease.None?)
  }

  predicate Doomed(state: JobState) {
    state == RecoveryRequired || state == Restored
  }

  /** What a write may do to a tidy row. */
  predicate Written(job: Job, job': Job) {
    && Tidy(job') && I.SameIdentity(job, job')
    && (job' == job || (InFlight(job.state) && job'.state != Requested))
    && (Doomed(job.state) ==> Doomed(job'.state))
  }

  lemma ClaimantWrites(s: State, t: Token, step: Step)
    requires StepEnabled(s, t, step) && Tidy(s.jobs[s.workers[t].job])
    requires step.RenewLease? || step.MarkPromoting? || step.BeforeCommit? || step.RecordConflict? || step.RecordVerifying?
    ensures var j := s.workers[t].job; var s' := Advance(s, t, step);
      |s'.jobs| == |s.jobs| && Written(s.jobs[j], s'.jobs[j])
  {
  }

  lemma ConcluderWrites(s: State, t: Token, step: Step)
    requires StepEnabled(s, t, step) && Tidy(s.jobs[s.workers[t].job])
    requires step.FinalizeSuccess? || step.SuppressRestoration? || step.CatchBranch? || step.ConcludeRestoration?
    ensures var j := s.workers[t].job; var s' := Advance(s, t, step);
      |s'.jobs| == |s.jobs| && Written(s.jobs[j], s'.jobs[j])
  {
  }

  predicate WritesRow(step: Step) {
    || step.RenewLease? || step.MarkPromoting? || step.BeforeCommit? || step.RecordConflict? || step.RecordVerifying?
    || step.FinalizeSuccess? || step.SuppressRestoration? || step.CatchBranch? || step.ConcludeRestoration?
  }

  lemma PromoterWritesNone(s: State, t: Token, step: Step)
    requires StepEnabled(s, t, step)
    requires step.InsertAndPromote? || step.IssueCommit? || step.ReceiveReply? || step.ReconcileAmbiguous? || step.CheckPromotion?
             || step.RestoreRelease? || step.CheckRestoration? || step.Fail? || step.Die?
    ensures Advance(s, t, step).jobs == s.jobs
  {
  }

  lemma ReaderWritesNone(s: State, t: Token, step: Step)
    requires StepEnabled(s, t, step)
    requires step.StartAttempt? || step.LoadCandidate? || step.ReconcileReclaimed? || step.ObservePointer? || step.ChooseBranch?
             || step.RuntimeVerified? || step.CatchReconciliation? || step.ReadForRestore?
    ensures Advance(s, t, step).jobs == s.jobs
  {
  }

  lemma WorkWrites(s: State, t: Token, step: Step)
    requires StepEnabled(s, t, step) && Tidy(s.jobs[s.workers[t].job])
    ensures var j := s.workers[t].job; var s' := Advance(s, t, step);
      |s'.jobs| == |s.jobs| && Written(s.jobs[j], s'.jobs[j])
  {
    var job := s.jobs[s.workers[t].job];
    assert Written(job, job);
    hide Advance, StepEnabled, Written, Tidy;
    if step.RenewLease? || step.MarkPromoting? || step.BeforeCommit? || step.RecordConflict? || step.RecordVerifying? {
      ClaimantWrites(s, t, step);
    } else if step.FinalizeSuccess? || step.SuppressRestoration? || step.CatchBranch? || step.ConcludeRestoration? {
      ConcluderWrites(s, t, step);
    } else if step.InsertAndPromote? || step.IssueCommit? || step.ReceiveReply? || step.ReconcileAmbiguous? || step.CheckPromotion?
              || step.RestoreRelease? || step.CheckRestoration? || step.Fail? || step.Die? {
      PromoterWritesNone(s, t, step);
    } else {
      ReaderWritesNone(s, t, step);
    }
  }

  predicate AllTidy(s: State) {
    TokensIssued(s) && forall j :: 0 <= j < |s.jobs| ==> Tidy(s.jobs[j])
  }

  /** What an action other than a claim does to the rows. */
  predicate RowsWritten(s: State, s': State) {
    && |s.jobs| <= |s'.jobs| && AllTidy(s')
    && (forall j :: 0 <= j < |s.jobs| ==> Written(s.jobs[j], s'.jobs[j]))
    && (forall j :: |s.jobs| <= j < |s'.jobs| ==> s'.jobs[j].state == Requested)
  }

  lemma SameWritten(job: Job)
    requires Tidy(job)
    ensures Written(job, job)
  {
  }

  lemma WorkRows(s: State, t: Token, step: Step)
    requires AllTidy(s) && StepEnabled(s, t, step)
    ensures RowsWritten(s, Advance(s, t, step))
  {
    var j := s.workers[t].job;
    var s' := Advance(s, t, step);
    WorkTouchesOwnRow(s, t, step);
    WorkRowStep(s, t, step, j);
    WorkWrites(s, t, step);
    hide Advance, StepEnabled, TokensIssued, Tidy, Written;
    forall i | 0 <= i < |s.jobs|
      ensures Tidy(s'.jobs[i]) && Written(s.jobs[i], s'.jobs[i])
    {
      SameWritten(s.jobs[i]);
      WrittenIsTidy(s.jobs[j], s'.jobs[j]);
    }
  }

  lemma WrittenIsTidy(job: Job, job': Job)
    requires Written(job, job')
    ensures Tidy(job')
  {
  }

  lemma RequestRows(s: State, release: Release, parent: Release, generation: nat)
    requires AllTidy(s) && Enabled(s, RequestJob(release, parent, generation))
    ensures RowsWritten(s, Apply(s, RequestJob(release, parent, generation)))
  {
  }

  lemma DecisionRows(s: State, ok: bool)
    requires AllTidy(s) && Enabled(s, CommitDecision(ok))
    ensures RowsWritten(s, DecideCommit(s, ok))
  {
  }

  lemma RecoveryRows(s: State, a: Action)
    requires AllTidy(s) && Enabled(s, a)
    requires a.Tick? || a.ListRecovery? || a.SeeParent? || a.TakeRecovery? || a.FinishRecovery?
    ensures RowsWritten(s, Apply(s, a))
  {
  }

  lemma OtherRows(s: State, a: Action)
    requires AllTidy(s) && Enabled(s, a) && !a.ClaimJob?
    ensures RowsWritten(s, Apply(s, a))
  {
    hide RowsWritten, AllTidy, Advance, StepEnabled;
    match a
    case Work(t, step) => WorkRows(s, t, step);
    case RequestJob(release, parent, generation) => RequestRows(s, release, parent, generation);
    case CommitDecision(ok) => DecisionRows(s, ok);
    case _ => RecoveryRows(s, a);
  }

  lemma ClaimTidies(s: State, jsNow: int)
    requires AllTidy(s)
    ensures AllTidy(Claim(s, jsNow))
  {
  }

  /** Nothing is asked of the environment. */
  lemma ActionTidies(s: State, a: Action)
    requires AllTidy(s) && Enabled(s, a)
    ensures AllTidy(Apply(s, a))
  {
    if a.ClaimJob? {
      ClaimTidies(s, a.jsNow);
    } else {
      OtherRows(s, a);
    }
    hide AllTidy, Advance, StepEnabled;
  }

  lemma {:induction false} RunTidies(s: State, actions: seq<Action>)
    requires AllTidy(s) && CanRun(s, actions)
    ensures AllTidy(Run(s, actions))
    decreases |actions|
  {
    hide AllTidy, Apply, Enabled;
    if actions != [] {
      ActionTidies(s, actions[0]);
      RunTidies(Apply(s, actions[0]), actions[1..]);
    }
  }

  lemma InitTidy(s: State)
    requires Init(s)
    ensures AllTidy(s)
  {
  }

  // ----- terminal states -----

  /** A terminal row that is owned by nobody is never written. */
  lemma {:induction false} TerminalStays(s: State, actions: seq<Action>, j: nat)
    requires CanRun(s, actions) && j < |s.jobs| && TokensIssued(s)
    requires Terminal(s.jobs[j].state) && s.jobs[j].claimToken.None?
    ensures j < |Run(s, actions).jobs| && Run(s, actions).jobs[j] == s.jobs[j]
    decreases |actions|
  {
    if actions != [] {
      ActionRowStep(s, actions[0], j);
      TerminalStays(Apply(s, actions[0]), actions[1..], j);
    }
  }

  /** In every run, whatever the environment does: a job that has reached NEEDS_REFRESH,
      SUCCEEDED, RESTORED or FAILED never changes again. */
  lemma TerminalIsAbsorbing(start: State, before: seq<Action>, actions: seq<Action>, j: nat)
    requires Init(start) && CanRun(start, before) && CanRun(Run(start, before), actions)
    requires j < |Run(start, before).jobs| && Terminal(Run(start, before).jobs[j].state)
    ensures var s := Run(start, before); var end := Run(s, actions);
      j < |end.jobs| && end.jobs[j] == s.jobs[j]
  {
    InitTidy(start);
    RunTidies(start, before);
    assert Tidy(Run(start, before).jobs[j]);
    TerminalStays(Run(start, before), actions, j);
  }

  // ----- global exclusion -----

  /** No lease lies between the two clocks that one claim reads. */
  predicate NoLeaseInGap(s: State, jsNow: int) {
    forall j :: 0 <= j < |s.jobs| && Owned(s.jobs[j].state) && s.jobs[j].lease.Some? ==>
      !(s.now <= s.jobs[j].lease.value <= jsNow)
  }

  /** The one thing exclusion asks of the environment: no claim finds a lease between the
      two clocks it reads. */
  predicate ClockRun(s: State, actions: seq<Action>)
    requires CanRun(s, actions)
    decreases |actions|
  {
    actions == [] ||
    ((actions[0].ClaimJob? ==> NoLeaseInGap(s, actions[0].jsNow)) && ClockRun(Apply(s, actions[0]), actions[1..]))
  }

  /** Global exclusion and the first-in first-out order. */
  predicate Exclusive(jobs: seq<Job>) {
    && (forall i, j :: 0 <= i < |jobs| && 0 <= j < |jobs| && InFlight(jobs[i].state) && InFlight(jobs[j].state) ==> i == j)
    && (forall i, j :: 0 <= i < |jobs| && 0 <= j < |jobs| && InFlight(jobs[i].state) && jobs[j].state == Requested ==> i < j)
  }

  /** The row that a claim takes is the one in flight, or the oldest request. */
  lemma ClaimFinds(s: State, jsNow: int)
    requires AllTidy(s) && Exclusive(s.jobs) && NoLeaseInGap(s, jsNow)
    requires !ClaimBlocked(s.jobs, jsNow) && FirstEligible(s.jobs, s.now, 0).Some?
    ensures var c := FirstEligible(s.jobs, s.now, 0).value;
      && (forall j :: 0 <= j < |s.jobs| && InFlight(s.jobs[j].state) ==> j == c)
      && (forall j :: 0 <= j < |s.jobs| && s.jobs[j].state == Requested ==> c <= j)
      && (s.jobs[c].state == Requested || Owned(s.jobs[c].state))
  {
    var c := FirstEligible(s.jobs, s.now, 0).value;
    forall j | 0 <= j < |s.jobs| && InFlight(s.jobs[j].state)
      ensures j == c
    {
      assert Tidy(s.jobs[j]) && !ActiveOwner(s.jobs[j], jsNow);
      assert Eligible(s.jobs[j], s.now);
      assert c <= j;
    }
  }

  lemma ClaimExcludes(s: State, jsNow: int)
    requires AllTidy(s) && Exclusive(s.jobs) && NoLeaseInGap(s, jsNow)
    ensures Exclusive(Claim(s, jsNow).jobs)
  {
    if !ClaimBlocked(s.jobs, jsNow) && FirstEligible(s.jobs, s.now, 0).Some? {
      ClaimFinds(s, jsNow);
    }
    hide ClaimBlocked;
  }

  lemma WriteExcludes(s: State, s': State)
    requires Exclusive(s.jobs) && RowsWritten(s, s')
    ensures Exclusive(s'.jobs)
  {
    assert forall j :: 0 <= j < |s.jobs| ==> Written(s.jobs[j], s'.jobs[j]);
  }

  lemma {:induction false} RunExcludes(s: State, actions: seq<Action>)
    requires AllTidy(s) && Exclusive(s.jobs) && CanRun(s, actions) && ClockRun(s, actions)
    ensures Exclusive(Run(s, actions).jobs)
    decreases |actions|
  {
    hide AllTidy, Exclusive, Advance, StepEnabled, Claim, RowsWritten, NoLeaseInGap;
    if actions != [] {
      ActionTidies(s, actions[0]);
      if actions[0].ClaimJob? {
        ClaimExcludes(s, actions[0].jsNow);
      } else {
        OtherRows(s, actions[0]);
        WriteExcludes(s, Apply(s, actions[0]));
      }
      RunExcludes(Apply(s, actions[0]), actions[1..]);
    }
  }

  /** At most one job is in flight, and it is older than every request, in every run
      whose claims see no lease between their two clocks. */
  lemma GlobalExclusion(s: State, actions: seq<Action>)
    requires Init(s) && CanRun(s, actions) && ClockRun(s, actions)
    ensures var e := Run(s, actions);
      && AtMostOneInFlight(e)
      && forall i, j :: 0 <= i < |e.jobs| && 0 <= j < |e.jobs| && InFlight(e.jobs[i].state) && e.jobs[j].state == Requested ==> i < j
  {
    InitTidy(s);
    RunExcludes(s, actions);
  }

  /** With no lease between the two clocks, an unblocked claim finds the job that is in
      flight, and otherwise the oldest request. */
  lemma ClaimFindsOldest(start: State, before: seq<Action>, jsNow: int)
    requires Init(start) && CanRun(start, before) && ClockRun(start, before) && NoLeaseInGap(Run(start, before), jsNow)
    requires var s := Run(start, before); !ClaimBlocked(s.jobs, jsNow) && FirstEligible(s.jobs, s.now, 0).Some?
    ensures var s := Run(start, before); var c := FirstEligible(s.jobs, s.now, 0).value;
      && (forall j :: 0 <= j < |s.jobs| && InFlight(s.jobs[j].state) ==> j == c)
      && (forall j :: 0 <= j < |s.jobs| && s.jobs[j].state == Requested ==> c <= j)
      && (s.jobs[c].state == Requested || Owned(s.jobs[c].state))
  {
    InitTidy(start);
    RunTidies(start, before);
    RunExcludes(start, before);
    ClaimFinds(Run(start, before), jsNow);
  }

  lemma GapClaim(s: State, jsNow: int, g: nat)
    requires AllTidy(s) && Exclusive(s.jobs)
    requires g < |s.jobs| && Owned(s.jobs[g].state) && s.jobs[g].lease.Some? && s.now <= s.jobs[g].lease.value <= jsNow
    ensures AtMostOneInFlight(Claim(s, jsNow)) <==> forall j :: 0 <= j < |s.jobs| ==> s.jobs[j].state != Requested
  {
    var choice := FirstEligible(s.jobs, s.now, 0);
    assert !ClaimBlocked(s.jobs, jsNow);
    forall j | 0 <= j < |s.jobs| && Eligible(s.jobs[j], s.now) ensures s.jobs[j].state == Requested {
      assert j != g;
    }
    if choice.Some? {
      var c := choice.value;
      var s' := Claim(s, jsNow);
      assert InFlight(s'.jobs[c].state) && InFlight(s'.jobs[g].state) && c != g;
    } else {
      forall j | 0 <= j < |s.jobs| ensures s.jobs[j].state != Requested {
        assert !Eligible(s.jobs[j], s.now);
      }
    }
  }

  /** The claim reads two clocks.  It breaks exclusion exactly when a claimed job
      has a lease between them and some request is waiting. */
  lemma ClaimExclusionExact(start: State, before: seq<Action>, jsNow: int)
    requires Init(start) && CanRun(start, before) && ClockRun(start, before)
    ensures var s := Run(start, before);
      AtMostOneInFlight(Claim(s, jsNow)) <==>
        || (exists j :: 0 <= j < |s.jobs| && s.jobs[j].state == RecoveryRequired)
        || NoLeaseInGap(s, jsNow)
        || (forall j :: 0 <= j < |s.jobs| ==> s.jobs[j].state != Requested)
  {
    InitTidy(start);
    RunTidies(start, before);
    RunExcludes(start, before);
    ClaimExcludesExactly(Run(start, before), jsNow);
    hide AllTidy, Exclusive, Claim, ClaimBlocked, NoLeaseInGap, AtMostOneInFlight;
  }

  lemma ClaimExcludesExactly(s: State, jsNow: int)
    requires AllTidy(s) && Exclusive(s.jobs)
    ensures AtMostOneInFlight(Claim(s, jsNow)) <==>
      || (exists j :: 0 <= j < |s.jobs| && s.jobs[j].state == RecoveryRequired)
      || NoLeaseInGap(s, jsNow)
      || (forall j :: 0 <= j < |s.jobs| ==> s.jobs[j].state != Requested)
  {
    if NoLeaseInGap(s, jsNow) {
      ClaimExcludes(s, jsNow);
    } else {
      var g :| 0 <= g < |s.jobs| && Owned(s.jobs[g].state) && s.jobs[g].lease.Some? && s.now <= s.jobs[g].lease.value <= jsNow;
      assert Tidy(s.jobs[g]);
      GapClaim(s, jsNow, g);
    }
  }

  // ----- one pointer transaction -----

  lemma WorkTakesSlot(s: State, t: Token, step: Step)
    requires StepEnabled(s, t, step)
    ensures var j := s.workers[t].job; var s' := Advance(s, t, step);
      |s'.jobs| == |s.jobs| && I.TakesSlot(s.jobs, j, s'.jobs[j])
  {
    hide SlotFree;
    if step.RenewLease? || step.MarkPromoting? || step.BeforeCommit? || step.RecordConflict? || step.RecordVerifying? {
    } else if step.FinalizeSuccess? || step.SuppressRestoration? || step.CatchBranch? || step.ConcludeRestoration? {
    } else {
      WritesNoRow(s, t, step);
      hide Advance, StepEnabled;
    }
  }

  lemma WritesNoRow(s: State, t: Token, step: Step)
    requires StepEnabled(s, t, step) && !WritesRow(step)
    ensures Advance(s, t, step).jobs == s.jobs
  {
    hide Advance, StepEnabled;
    if step.InsertAndPromote? || step.IssueCommit? || step.ReceiveReply? || step.ReconcileAmbiguous? || step.CheckPromotion?
       || step.RestoreRelease? || step.CheckRestoration? || step.Fail? || step.Die? {
      PromoterWritesNone(s, t, step);
    } else {
      ReaderWritesNone(s, t, step);
    }
  }

  lemma WorkOnePointer(s: State, t: Token, step: Step)
    requires I.OnePointer(s.jobs) && StepEnabled(s, t, step)
    ensures I.OnePointer(Advance(s, t, step).jobs)
  {
    WorkTakesSlot(s, t, step);
    WorkTouchesOwnRow(s, t, step);
    hide Advance, StepEnabled;
  }

  lemma ClaimOnePointer(s: State, jsNow: int)
    requires I.OnePointer(s.jobs)
    ensures I.OnePointer(Claim(s, jsNow).jobs)
  {
    hide ClaimBlocked;
  }

  lemma OtherOnePointer(s: State, a: Action)
    requires I.OnePointer(s.jobs) && Enabled(s, a) && !a.Work? && !a.ClaimJob?
    ensures I.OnePointer(Apply(s, a).jobs)
  {
  }

  lemma {:induction false} RunOnePointer(s: State, actions: seq<Action>)
    requires I.OnePointer(s.jobs) && CanRun(s, actions)
    ensures I.OnePointer(Run(s, actions).jobs)
    decreases |actions|
  {
    hide I.OnePointer, Advance, StepEnabled, Claim;
    if actions != [] {
      match actions[0] {
        case Work(t, step) => WorkOnePointer(s, t, step);
        case ClaimJob(jsNow) => ClaimOnePointer(s, jsNow);
        case _ => OtherOnePointer(s, actions[0]);
      }
      RunOnePointer(Apply(s, actions[0]), actions[1..]);
    }
  }

  /** In every run, whatever the environment does: at most one job is PROMOTING or
      VERIFYING, so that a second claim never becomes a second pointer transaction. */
  lemma OnePointerTransaction(s: State, actions: seq<Action>)
    requires Init(s) && CanRun(s, actions)
    ensures I.OnePointer(Run(s, actions).jobs)
  {
    RunOnePointer(s, actions);
  }

  // ----- identities -----

  /** A row keeps what its preflight receipt sealed, and recovery is left for RESTORED only. */
  predicate Follows(job: Job, job': Job) {
    I.SameIdentity(job, job') && (Doomed(job.state) ==> Doomed(job'.state))
  }

  lemma ClaimFollows(s: State, jsNow: int, j: nat)
    requires j < |s.jobs|
    ensures |Claim(s, jsNow).jobs| == |s.jobs| && Follows(s.jobs[j], Claim(s, jsNow).jobs[j])
  {
    hide ClaimBlocked;
  }

  lemma ActionFollows(s: State, a: Action, j: nat)
    requires AllTidy(s) && Enabled(s, a) && j < |s.jobs|
    ensures j < |Apply(s, a).jobs| && Follows(s.jobs[j], Apply(s, a).jobs[j])
  {
    if a.ClaimJob? {
      ClaimFollows(s, a.jsNow, j);
    } else {
      OtherRows(s, a);
      assert RowsWritten(s, Apply(s, a)) ==> Written(s.jobs[j], Apply(s, a).jobs[j]);
    }
    hide AllTidy, Advance, StepEnabled, Claim;
  }

  lemma {:induction false} RunFollows(s: State, actions: seq<Action>, j: nat)
    requires AllTidy(s) && CanRun(s, actions) && j < |s.jobs|
    ensures j < |Run(s, actions).jobs| && Follows(s.jobs[j], Run(s, actions).jobs[j])
    decreases |actions|
  {
    hide AllTidy, Apply, Enabled, Doomed;
    if actions != [] {
      ActionTidies(s, actions[0]);
      ActionFollows(s, actions[0], j);
      RunFollows(Apply(s, actions[0]), actions[1..], j);
    }
  }

  // ----- finalised or restored -----

  predicate RestoringOk(s: State) {
    forall t :: t in s.workers && I.Restoring(s.workers[t].pc) ==>
      s.workers[t].job < |s.jobs| && Doomed(s.jobs[s.workers[t].job].state)
  }

  /** Who restores and what is restored never leaves recovery for anything but RESTORED,
      and what is finalised stays SUCCEEDED. */
  predicate Separate(s: State) {
    && AllTidy(s) && RestoringOk(s)
    && (forall j :: j in s.leadership.restored ==> j < |s.jobs| && Doomed(s.jobs[j].state))
    && (forall k :: 0 <= k < |s.succeeded| ==> s.succeeded[k] < |s.jobs| && s.jobs[s.succeeded[k]].state == Succeeded)
  }

  /** What a step does beside the rows. */
  predicate StaysSeparate(s: State, t: Token, s': State, restores: bool)
    requires Running(s, t)
  {
    var j := s.workers[t].job;
    && |s'.jobs| == |s.jobs| && t in s'.workers
    && (I.Restoring(s'.workers[t].pc) ==> I.Restoring(s.workers[t].pc) || Doomed(s'.jobs[j].state))
    && (s'.succeeded == s.succeeded || (s'.succeeded == s.succeeded + [j] && s'.jobs[j].state == Succeeded))
    && (s'.leadership.restored == s.leadership.restored
        || (restores && I.Restoring(s.workers[t].pc) && s'.leadership.restored == s.leadership.restored + {j}))
  }

  lemma WriterSeparate(s: State, t: Token, step: Step)
    requires StepEnabled(s, t, step) && (step.RenewLease? || step.BeforeCommit? || step.RecordVerifying? || step.SuppressRestoration?)
    ensures StaysSeparate(s, t, Advance(s, t, step), false)
  {
  }

  lemma MarkerSeparate(s: State, t: Token, step: Step)
    requires StepEnabled(s, t, step) && (step.MarkPromoting? || step.RecordConflict?)
    ensures StaysSeparate(s, t, Advance(s, t, step), false)
  {
  }

  lemma ConcluderSeparate(s: State, t: Token, step: Step)
    requires StepEnabled(s, t, step) && (step.FinalizeSuccess? || step.ConcludeRestoration?)
    ensures StaysSeparate(s, t, Advance(s, t, step), false)
  {
  }

  lemma DeciderSeparate(s: State, t: Token)
    requires StepEnabled(s, t, CatchBranch)
    ensures StaysSeparate(s, t, Decide(s, t), false)
  {
  }

  lemma PromoterSeparate(s: State, t: Token, step: Step)
    requires StepEnabled(s, t, step)
    requires step.IssueCommit? || step.ReceiveReply? || step.ReconcileAmbiguous?
    ensures StaysSeparate(s, t, Advance(s, t, step), false)
  {
  }

  lemma InserterSeparate(s: State, t: Token, validated: bool)
    requires StepEnabled(s, t, InsertAndPromote(validated))
    ensures StaysSeparate(s, t, Insert(s, t, validated), false)
  {
  }

  lemma RestorerSeparate(s: State, t: Token, step: Step)
    requires StepEnabled(s, t, step)
    requires step.CheckPromotion? || step.RestoreRelease? || step.CheckRestoration?
    ensures StaysSeparate(s, t, Advance(s, t, step), true)
  {
  }

  lemma HandlerRestores(pc: Pc)
    ensures I.Restoring(Handler(pc)) ==> I.Restoring(pc)
  {
  }

  lemma ThrowerSeparate(s: State, t: Token, step: Step)
    requires StepEnabled(s, t, step) && (step.Fail? || step.Die?)
    ensures StaysSeparate(s, t, Advance(s, t, step), false)
  {
    HandlerRestores(s.workers[t].pc);
    hide Handler;
  }

  lemma ReaderSeparate(s: State, t: Token, step: Step)
    requires StepEnabled(s, t, step)
    requires step.StartAttempt? || step.LoadCandidate? || step.ReconcileReclaimed? || step.ObservePointer? || step.ChooseBranch?
             || step.RuntimeVerified? || step.CatchReconciliation? || step.ReadForRestore?
    ensures StaysSeparate(s, t, Advance(s, t, step), false)
  {
  }

  lemma EitherSeparate(s: State, t: Token, s': State)
    requires Running(s, t) && StaysSeparate(s, t, s', false)
    ensures StaysSeparate(s, t, s', true)
  {
  }

  lemma WorkStaysSeparate(s: State, t: Token, step: Step)
    requires StepEnabled(s, t, step)
    ensures StaysSeparate(s, t, Advance(s, t, step), true)
  {
    var s' := Advance(s, t, step);
    if step.CatchBranch? {
      DeciderSeparate(s, t);
      assert s' == Decide(s, t);
      hide *;
      EitherSeparate(s, t, s');
    } else if step.InsertAndPromote? {
      InserterSeparate(s, t, step.validated);
      assert s' == Insert(s, t, step.validated);
      hide *;
      EitherSeparate(s, t, s');
    } else {
      hide Advance, StepEnabled, StaysSeparate;
      if step.CheckPromotion? || step.RestoreRelease? || step.CheckRestoration? {
        RestorerSeparate(s, t, step);
      } else {
        if step.RenewLease? || step.BeforeCommit? || step.RecordVerifying? || step.SuppressRestoration? {
          WriterSeparate(s, t, step);
        } else if step.MarkPromoting? || step.RecordConflict? {
          MarkerSeparate(s, t, step);
        } else if step.FinalizeSuccess? || step.ConcludeRestoration? {
          ConcluderSeparate(s, t, step);
        } else if step.IssueCommit? || step.ReceiveReply? || step.ReconcileAmbiguous? {
          PromoterSeparate(s, t, step);
        } else if step.Fail? || step.Die? {
          ThrowerSeparate(s, t, step);
        } else {
          ReaderSeparate(s, t, step);
        }
        EitherSeparate(s, t, s');
      }
    }
  }

  lemma WorkSeparate(s: State, t: Token, step: Step)
    requires Separate(s) && StepEnabled(s, t, step)
    ensures Separate(Advance(s, t, step))
  {
    var j := s.workers[t].job;
    var s' := Advance(s, t, step);
    WorkRows(s, t, step);
    WorkTouchesOwnRow(s, t, step);
    WorkStaysSeparate(s, t, step);
    assert Tidy(s.jobs[j]) && Written(s.jobs[j], s'.jobs[j]);
    OwnRowSeparate(s, t, s');
  }

  lemma OwnRowSeparate(s: State, t: Token, s': State)
    requires Separate(s) && Running(s, t) && Tidy(s.jobs[s.workers[t].job]) && AllTidy(s')
    requires OwnRowOnly(s, s', t) && StaysSeparate(s, t, s', true) && Written(s.jobs[s.workers[t].job], s'.jobs[s.workers[t].job])
    ensures Separate(s')
  {
    hide AllTidy;
  }

  lemma ClaimSeparate(s: State, jsNow: int)
    requires Separate(s)
    ensures Separate(Claim(s, jsNow))
  {
    ClaimTidies(s, jsNow);
    assert TokensIssued(s);
    hide AllTidy, TokensIssued, ClaimBlocked, Tidy;
  }

  lemma OtherSeparate(s: State, a: Action)
    requires Separate(s) && Enabled(s, a)
    requires a.RequestJob? || a.CommitDecision? || a.Tick? || a.ListRecovery? || a.SeeParent? || a.TakeRecovery? || a.FinishRecovery?
    ensures Separate(Apply(s, a))
  {
    hide Separate, RowsWritten, Apply, Enabled;
    SeparateIsTidy(s);
    OtherRows(s, a);
    OtherBeside(s, a);
    RowsSeparate(s, Apply(s, a));
  }

  lemma SeparateIsTidy(s: State)
    requires Separate(s)
    ensures AllTidy(s)
  {
  }

  /** Nobody starts to restore, and nothing is restored or finalised. */
  predicate NothingBeside(s: State, s': State) {
    && s'.leadership.restored == s.leadership.restored && s'.succeeded == s.succeeded
    && forall t :: t in s'.workers ==> t in s.workers && s'.workers[t].pc == s.workers[t].pc && s'.workers[t].job == s.workers[t].job
  }

  lemma OtherBeside(s: State, a: Action)
    requires Enabled(s, a)
    requires a.RequestJob? || a.CommitDecision? || a.Tick? || a.ListRecovery? || a.SeeParent? || a.TakeRecovery? || a.FinishRecovery?
    ensures NothingBeside(s, Apply(s, a))
  {
  }

  lemma RowsSeparate(s: State, s': State)
    requires Separate(s) && RowsWritten(s, s') && NothingBeside(s, s')
    ensures Separate(s')
  {
    assert forall j :: 0 <= j < |s.jobs| ==> Written(s.jobs[j], s'.jobs[j]);
    hide AllTidy;
  }

  lemma ActionSeparate(s: State, a: Action)
    requires Separate(s) && Enabled(s, a)
    ensures Separate(Apply(s, a))
  {
    hide Separate, Advance, StepEnabled, Claim;
    match a
    case Work(t, step) => WorkSeparate(s, t, step);
    case ClaimJob(jsNow) => ClaimSeparate(s, jsNow);
    case _ => OtherSeparate(s, a);
  }

  lemma {:induction false} RunSeparate(s: State, actions: seq<Action>)
    requires Separate(s) && CanRun(s, actions)
    ensures Separate(Run(s, actions))
    decreases |actions|
  {
    hide Separate, Apply, Enabled;
    if actions != [] {
      ActionSeparate(s, actions[0]);
      RunSeparate(Apply(s, actions[0]), actions[1..]);
    }
  }

  /** In every run, whatever the environment does: no job is both finalised in Studio
      and restored in Leadership. */
  lemma NeverFinalisedAndRestored(s: State, actions: seq<Action>, j: nat)
    requires Init(s) && CanRun(s, actions) && j in Run(s, actions).succeeded
    ensures j !in Run(s, actions).leadership.restored
    ensures j < |Run(s, actions).jobs| && Run(s, actions).jobs[j].state == Succeeded
  {
    RunSeparate(s, actions);
  }
}
