/** What the review status page shows, for every review that can be reached. */
module ReviewStatusTheorems {
  import opened Common
  import opened ReviewStatus
  import opened ReviewStatusProofs
  import R = ReviewChain
  import RP = ReviewChainProofs
  import RT = ReviewChainTheorems
  import Text

  lemma {:induction false} CountPrefix(stages: seq<StageView>, n: nat)
    requires n <= |stages| && forall i :: 0 <= i < |stages| ==> (stages[i].state == R.Done <==> i < n)
    ensures CountDone(stages) == n
  {
    if stages != [] {
      CountPrefix(stages[..|stages| - 1], if n == |stages| then n - 1 else n);
    }
  }

  /** The steps of a reachable review, as seen from its first unfinished one. */
  predicate Unfinished(job: R.Job, k: nat) {
    && |job.steps| == R.STAGES && k <= R.STAGES
    && (forall i :: 0 <= i < k ==> job.steps[i].state == R.Done)
    && (k < R.STAGES ==> job.steps[k].state != R.Done)
    && (forall i :: k < i < R.STAGES ==> job.steps[i].state == R.Pending || job.steps[i].state == R.Dropped)
  }

  lemma SplitSteps(job: R.Job)
    requires RP.Inv(job)
    ensures Unfinished(job, R.FirstUnfinished(job.steps, 0))
  {
    hide RP.Bounded, RP.RowAgrees;
    var k := R.FirstUnfinished(job.steps, 0);
    if k < R.STAGES {
      assert job.steps[k].state != R.Done;
    }
  }

  lemma RetryIsThere(r: Record, v: Review, k: nat)
    requires Basic(v) && Reads(r, v) && Waits(v) && Unfinished(v.job, k) && k == R.FirstUnfinished(v.job.steps, 0)
    ensures RetryingStep(r, Rows(v)) == if v.job.retryNotBefore.Some? then Some(k) else None
  {
  }

  lemma CurrentIsThere(r: Record, v: Review, k: nat)
    requires Basic(v) && Reads(r, v) && Waits(v) && Unfinished(v.job, k) && k == R.FirstUnfinished(v.job.steps, 0)
    ensures CurrentStep(r, Rows(v)) == if k < R.STAGES then Some(k) else None
  {
    RetryIsThere(r, v, k);
    var rows := Rows(v);
    hide RetryingStep, Waits;
    if k < R.STAGES {
      assert rows[k].state == v.job.steps[k].state;
    }
  }

  predicate AttemptShown(v: Review, k: nat)
    requires |v.job.steps| == R.STAGES && k < R.STAGES
  {
    v.job.steps[k].state == R.Executing || v.job.steps[k].state == R.Broken || v.job.retryNotBefore.Some?
  }

  /** Completed stages, current stage and announced retry all speak of the first
      unfinished step, and a retry is announced exactly when one is scheduled. */
  predicate SpeaksOf(s: Snapshot, v: Review, k: nat)
    requires |v.job.steps| == |v.runs| == R.STAGES && k <= R.STAGES
  {
    && s.completedStages == k
    && (k == R.STAGES ==> s.current.None?)
    && (k < R.STAGES ==>
          s.current == Some(CurrentView(k + 1, ROLES[k], v.job.steps[k].state,
            if AttemptShown(v, k) && v.job.steps[k].attempts > 0 then Some(v.job.steps[k].attempts) else None)))
    && (s.retry.Some? <==> v.job.retryNotBefore.Some?)
    && (s.retry.Some? ==>
          && k < R.STAGES && s.retry.value.ordinal == k + 1 && s.retry.value.attempt == v.job.steps[k].attempts
          && Some(s.retry.value.scheduledAt) == v.job.retryNotBefore && s.failure.Some?)
  }

  lemma CurrentSpeaks(r: Record, v: Review, k: nat)
    requires Basic(v) && k <= R.STAGES && ByOrdinal(r.steps) == Rows(v) && r.retryNotBefore == v.job.retryNotBefore
    requires RetryingStep(r, Rows(v)) == if v.job.retryNotBefore.Some? then Some(k) else None
    requires CurrentStep(r, Rows(v)) == if k < R.STAGES then Some(k) else None
    ensures Project(r).current ==
      if k == R.STAGES then None
      else Some(CurrentView(k + 1, ROLES[k], v.job.steps[k].state,
                  if AttemptShown(v, k) && v.job.steps[k].attempts > 0 then Some(v.job.steps[k].attempts) else None))
  {
    hide RetryingStep, CurrentStep, ByOrdinal;
    if k < R.STAGES {
      assert RunAgrees(v.job.steps[k], v.runs[k]);
    }
    assert Project(r).current == Current(r, Rows(v)) by { hide *; ProjectsCurrent(r); }
  }

  lemma ProjectsCurrent(r: Record)
    ensures Project(r).current == Current(r, ByOrdinal(r.steps))
    ensures Project(r).completedStages == CountDone(ViewOf(ByOrdinal(r.steps)))
  {
  }

  lemma RetrySpeaks(r: Record, v: Review, k: nat)
    requires Basic(v) && Waits(v) && ByOrdinal(r.steps) == Rows(v) && r.retryNotBefore == v.job.retryNotBefore
    requires k == R.FirstUnfinished(v.job.steps, 0)
    requires RetryingStep(r, Rows(v)) == if v.job.retryNotBefore.Some? then Some(k) else None
    ensures var s := Project(r);
      && (s.retry.Some? <==> v.job.retryNotBefore.Some?)
      && (s.retry.Some? ==>
          && k < R.STAGES && s.retry.value.ordinal == k + 1 && s.retry.value.attempt == v.job.steps[k].attempts
          && Some(s.retry.value.scheduledAt) == v.job.retryNotBefore && s.failure.Some?)
  {
    hide RetryingStep, ByOrdinal, FailureStage, TerminalClass, CountDone, Current;
    if k < R.STAGES {
      assert RunAgrees(v.job.steps[k], v.runs[k]);
    }
  }

  lemma ReadsRetry(r: Record, v: Review)
    requires |v.job.steps| == |v.runs| == R.STAGES && Reads(r, v)
    ensures r.retryNotBefore == v.job.retryNotBefore
  {
  }

  lemma PageSpeaks(r: Record, v: Review)
    requires Basic(v) && Reads(r, v) && Waits(v) && RP.Inv(v.job)
    ensures SpeaksOf(Project(r), v, R.FirstUnfinished(v.job.steps, 0))
  {
    hide RP.Inv, RetryingStep, CurrentStep, ByOrdinal, CountDone, Project, Waits, Reads;
    var k := R.FirstUnfinished(v.job.steps, 0);
    ReadsRetry(r, v);
    SplitSteps(v.job);
    InOrder(r, v);
    RetryIsThere(r, v, k);
    CurrentIsThere(r, v, k);
    CountPrefix(ViewOf(Rows(v)), k);
    hide Unfinished;
    ProjectsCurrent(r);
    CurrentSpeaks(r, v, k);
    RetrySpeaks(r, v, k);
  }

  lemma {:induction false} ReachedWell(v: Review, actions: seq<Action>)
    requires Basic(v) && Waits(v) && RP.Inv(v.job) && CanRun(v, actions) && GrantedRun(v, actions)
    ensures var e := After(v, actions); Basic(e) && Waits(e) && RP.Inv(e.job)
    decreases |actions|
  {
    hide Waits, RP.Inv, Apply, Enabled, RP.Granted;
    if actions != [] {
      WaitsKept(v, actions[0]);
      ReachedWell(Apply(v, actions[0]), actions[1..]);
    }
  }

  lemma StartsWell()
    ensures Basic(NewReview()) && Waits(NewReview()) && RP.Inv(NewReview().job)
  {
    RT.NewJobOk();
    hide RP.Inv;
  }

  // ----- main results -----

  /** The page of every reachable review: where it stands and what it waits for. */
  lemma CurrentStageIsFirstUnfinished(actions: seq<Action>, r: Record)
    requires CanRun(NewReview(), actions) && GrantedRun(NewReview(), actions)
    requires var v := After(NewReview(), actions); |v.job.steps| == |v.runs| == R.STAGES && Reads(r, v)
    ensures var v := After(NewReview(), actions); SpeaksOf(Project(r), v, R.FirstUnfinished(v.job.steps, 0))
  {
    StartsWell();
    ReachedWell(NewReview(), actions);
    PageSpeaks(r, After(NewReview(), actions));
  }

  // ----- what the page says of a failure -----

  /** The class of the failed stage's latest run. */
  function BrokenClass(v: Review, k: nat): Option<FailureClass>
    requires |v.job.steps| == |v.runs| == R.STAGES
  {
    if k < R.STAGES && v.job.steps[k].state == R.Broken && v.runs[k].Some? then v.runs[k].value.failureClass else None
  }

  predicate TellsLane(s: Snapshot, r: Record, v: Review) {
    && (s.lane == Focused <==> v.job.state == R.Running || v.job.laneOwner)
    && (s.lane == Waiting <==> v.job.state == R.Queued && !v.job.laneOwner)
    && (s.proposalReady <==> r.proposal)
  }

  /** A retry names the class of the run that failed, a failed review that of its failed
      stage, before the column of the row. */
  predicate TellsClass(s: Snapshot, r: Record, v: Review, k: nat)
    requires |v.job.steps| == |v.runs| == R.STAGES
  {
    && (s.retry.Some? ==> (s.failure.Some? && s.failure.value.failureClass == s.retry.value.failureClass
          && k < R.STAGES && v.runs[k].Some? && v.runs[k].value.failureClass == Some(s.retry.value.failureClass)))
    && (v.job.state == R.Failed ==> (s.terminal.Some? && s.failure.Some?
          && s.terminal.value.failureClass == OrElse(BrokenClass(v, k), JobFailureClass(r.failureCode))
          && s.failure.value.failureClass == OrElse(s.terminal.value.failureClass, Some(Application)).value))
  }

  /** A recorded reason and place come before the stage the review stands at. */
  predicate TellsPlace(s: Snapshot, r: Record, k: nat)
    requires k <= R.STAGES
  {
    s.failure.Some? ==>
      && (r.failureReason.Some? ==> s.failure.value.reason == r.failureReason.value)
      && (r.failureOrdinal.None? && r.failureRole.None? ==>
            s.failure.value.stage == if k < R.STAGES then Some(FailedStage(k + 1, ROLES[k])) else None)
      && (r.failureOrdinal.Some? && r.failureRole.Some? ==>
            s.failure.value.stage ==
              if 1 <= r.failureOrdinal.value <= R.STAGES then Some(FailedStage(r.failureOrdinal.value, r.failureRole.value)) else None)
  }

  predicate TellsWhy(s: Snapshot, r: Record, v: Review, k: nat)
    requires |v.job.steps| == |v.runs| == R.STAGES && k <= R.STAGES
  {
    TellsLane(s, r, v) && TellsClass(s, r, v, k) && TellsPlace(s, r, k)
  }

  lemma BrokenIsThere(v: Review, k: nat)
    requires Basic(v) && Unfinished(v.job, k)
    ensures var failed := Find(Rows(v), (row: Row) => row.state == R.Broken);
      failed == if k < R.STAGES && v.job.steps[k].state == R.Broken then Some(k) else None
  {
    var rows := Rows(v);
    if k < R.STAGES {
      assert rows[k].state == v.job.steps[k].state;
    }
  }

  lemma ClassesTold(r: Record, v: Review, k: nat)
    requires Basic(v) && Unfinished(v.job, k)
    ensures TerminalClass(r, Rows(v)) == OrElse(BrokenClass(v, k), JobFailureClass(r.failureCode))
    ensures RetryingStep(r, Rows(v)) == (if v.job.retryNotBefore.Some? then Some(k) else None) && k < R.STAGES && v.runs[k].Some? ==>
      RetryClass(r, Rows(v)) == if v.job.retryNotBefore.Some? then v.runs[k].value.failureClass else None
    ensures RetryingStep(r, Rows(v)) == None ==> RetryClass(r, Rows(v)) == None
  {
    BrokenIsThere(v, k);
    hide Find, JobFailureClass, Basic, Unfinished, RetryingStep;
  }

  lemma PlaceTold(r: Record, v: Review, k: nat)
    requires |v.job.steps| == |v.runs| == R.STAGES && k <= R.STAGES && Reads(r, v)
    requires CurrentStep(r, Rows(v)) == if k < R.STAGES then Some(k) else None
    ensures r.failureOrdinal.None? && r.failureRole.None? ==>
      FailureStage(r, Rows(v)) == if k < R.STAGES then Some(FailedStage(k + 1, ROLES[k])) else None
    ensures r.failureOrdinal.Some? && r.failureRole.Some? ==>
      FailureStage(r, Rows(v)) ==
        if 1 <= r.failureOrdinal.value <= R.STAGES then Some(FailedStage(r.failureOrdinal.value, r.failureRole.value)) else None
  {
    RolesAreCodes();
    hide CurrentStep, Text.IsSlug;
    assert forall role :: role in ROLES ==> CodeOk(role);
  }

  lemma LaneTold(r: Record, v: Review)
    requires |v.job.steps| == |v.runs| == R.STAGES && Reads(r, v)
    ensures TellsLane(Project(r), r, v)
  {
    hide RetryingStep, CurrentStep, ByOrdinal, RetryClass, TerminalClass, FailureStage, CountDone, Current, ShownClass;
  }

  lemma ClassShown(r: Record, v: Review, k: nat)
    requires Basic(v) && r.state == v.job.state && k <= R.STAGES && ByOrdinal(r.steps) == Rows(v)
    requires RetryingStep(r, Rows(v)).Some? ==> RetryingStep(r, Rows(v)) == Some(k) && k < R.STAGES && v.runs[k].Some?
    requires RetryClass(r, Rows(v)) == if RetryingStep(r, Rows(v)).Some? && k < R.STAGES && v.runs[k].Some? then v.runs[k].value.failureClass else None
    requires TerminalClass(r, Rows(v)) == OrElse(BrokenClass(v, k), JobFailureClass(r.failureCode))
    requires v.job.state == R.Failed ==> RetryingStep(r, Rows(v)).None?
    ensures TellsClass(Project(r), r, v, k)
  {
    hide RetryingStep, CurrentStep, ByOrdinal, RetryClass, TerminalClass, FailureStage, CountDone, Current, JobFailureClass, Basic;
  }

  lemma PlaceShown(r: Record, v: Review, k: nat)
    requires |v.job.steps| == |v.runs| == R.STAGES && k <= R.STAGES && Reads(r, v) && ByOrdinal(r.steps) == Rows(v)
    requires CurrentStep(r, Rows(v)) == if k < R.STAGES then Some(k) else None
    ensures TellsPlace(Project(r), r, k)
  {
    PlaceTold(r, v, k);
    hide RetryingStep, CurrentStep, ByOrdinal, RetryClass, TerminalClass, FailureStage, CountDone, Current, ShownClass, Reads;
  }

  lemma NoRetryOfFailed(r: Record, v: Review)
    requires |v.job.steps| == |v.runs| == R.STAGES && Reads(r, v)
    ensures r.state == v.job.state && (v.job.state == R.Failed ==> RetryingStep(r, Rows(v)).None?)
  {
  }

  lemma RetryHasRun(v: Review)
    requires Basic(v) && Waits(v) && v.job.retryNotBefore.Some?
    ensures var k := R.FirstUnfinished(v.job.steps, 0); k < R.STAGES && v.job.steps[k].attempts > 0 && v.runs[k].Some?
  {
    assert RunAgrees(v.job.steps[R.FirstUnfinished(v.job.steps, 0)], v.runs[R.FirstUnfinished(v.job.steps, 0)]);
  }

  lemma WhyTold(r: Record, v: Review)
    requires Basic(v) && Reads(r, v) && Waits(v) && RP.Inv(v.job)
    ensures TellsWhy(Project(r), r, v, R.FirstUnfinished(v.job.steps, 0))
  {
    var k := R.FirstUnfinished(v.job.steps, 0);
    assert |v.job.steps| == |v.runs| == R.STAGES;
    hide RP.Inv, Waits, Reads, Basic, RetryingStep, CurrentStep, ByOrdinal, RetryClass, TerminalClass, Unfinished, TellsLane, TellsClass,
         TellsPlace, Project, BrokenClass, JobFailureClass, OrElse;
    SplitSteps(v.job);
    InOrder(r, v);
    RetryIsThere(r, v, k);
    CurrentIsThere(r, v, k);
    if v.job.retryNotBefore.Some? {
      RetryHasRun(v);
    }
    ClassesTold(r, v, k);
    NoRetryOfFailed(r, v);
    LaneTold(r, v);
    ClassShown(r, v, k);
    PlaceShown(r, v, k);
  }

  /** In every granted run the page says why a review failed or waits, and where. */
  lemma FailureIsTold(actions: seq<Action>, r: Record)
    requires CanRun(NewReview(), actions) && GrantedRun(NewReview(), actions)
    requires var v := After(NewReview(), actions); |v.job.steps| == |v.runs| == R.STAGES && Reads(r, v)
    ensures var v := After(NewReview(), actions); TellsWhy(Project(r), r, v, R.FirstUnfinished(v.job.steps, 0))
  {
    StartsWell();
    ReachedWell(NewReview(), actions);
    hide *;
    WhyTold(r, After(NewReview(), actions));
  }

  // ----- acceptance in every run -----

  lemma {:induction false} ReachedBounded(v: Review, actions: seq<Action>)
    requires RP.Bounded(v.job) && CanRun(v, actions)
    ensures RP.Bounded(After(v, actions).job)
    decreases |actions|
  {
    hide RP.Bounded, R.Apply, R.Enabled, RunsAfter;
    if actions != [] {
      RP.ActionBounded(v.job, actions[0].step);
      ReachedBounded(Apply(v, actions[0]), actions[1..]);
    }
  }

  /** What is said of a run is said of the run of the step it names. */
  predicate TellsOf(v: Review, ordinal: nat, attempt: nat)
    requires |v.job.steps| == R.STAGES
  {
    1 <= ordinal <= R.STAGES && attempt == v.job.steps[ordinal - 1].attempts && attempt > 0
  }

  predicate TellsTrue(s: Snapshot, v: Review)
    requires |v.job.steps| == R.STAGES
  {
    && (s.current.Some? && s.current.value.attempt.Some? ==> TellsOf(v, s.current.value.ordinal, s.current.value.attempt.value))
    && (s.retry.Some? ==> TellsOf(v, s.retry.value.ordinal, s.retry.value.attempt))
  }

  lemma RowTells(v: Review, k: nat)
    requires Basic(v) && k < R.STAGES && Rows(v)[k].runs != []
    ensures TellsOf(v, Rows(v)[k].ordinal, Rows(v)[k].runs[0].attempt)
  {
    assert RunAgrees(v.job.steps[k], v.runs[k]);
  }

  lemma CurrentTells(r: Record, v: Review)
    requires Basic(v) && ByOrdinal(r.steps) == Rows(v)
    ensures var c := Project(r).current;
      c.Some? && c.value.attempt.Some? ==> TellsOf(v, c.value.ordinal, c.value.attempt.value)
  {
    ProjectsCurrent(r);
    var k := CurrentStep(r, Rows(v));
    hide Basic, Project, CurrentStep, RetryingStep, ByOrdinal, TellsOf;
    if k.Some? && Rows(v)[k.value].runs != [] {
      RowTells(v, k.value);
    }
  }

  lemma RetryTells(r: Record, v: Review)
    requires Basic(v) && ByOrdinal(r.steps) == Rows(v)
    ensures var retry := Project(r).retry; retry.Some? ==> TellsOf(v, retry.value.ordinal, retry.value.attempt)
  {
    var k := RetryingStep(r, Rows(v));
    hide Basic, RetryingStep, ByOrdinal, TellsOf, Current, FailureStage, TerminalClass, CountDone;
    if k.Some? && Rows(v)[k.value].runs != [] {
      RowTells(v, k.value);
    }
  }

  predicate AttemptsFit(s: Snapshot) {
    && (s.current.Some? && s.current.value.attempt.Some? ==> s.current.value.attempt.value <= ATTEMPT_LIMIT)
    && (s.retry.Some? ==> s.retry.value.attempt <= ATTEMPT_LIMIT)
  }

  lemma AcceptedPage(r: Record, v: Review)
    requires Basic(v) && Reads(r, v)
    ensures TellsTrue(Project(r), v) && (MeetsRules(Project(r)) <==> AttemptsFit(Project(r)))
  {
    RulesHold(r, v);
    RangesHold(r, v);
    InOrder(r, v);
    CurrentTells(r, v);
    RetryTells(r, v);
    hide Basic, Reads, Project, Refined, InRange, ByOrdinal;
  }

  lemma AcceptedState(r: Record, v: Review)
    requires Basic(v) && Reads(r, v) && Waits(v) && RP.Inv(v.job)
    ensures var k := R.FirstUnfinished(v.job.steps, 0);
      MeetsRules(Project(r)) <==> !(k < R.STAGES && AttemptShown(v, k) && v.job.steps[k].attempts > ATTEMPT_LIMIT)
  {
    PageSpeaks(r, v);
    AcceptedPage(r, v);
    if v.job.retryNotBefore.Some? {
      RetryHasRun(v);
    }
    hide RP.Inv, Project, Waits, Reads, MeetsRules, Basic, TellsTrue;
  }

  lemma StartsBasic()
    ensures Basic(NewReview()) && RP.Bounded(NewReview().job)
  {
    RT.NewJobOk();
    hide RP.Bounded;
  }

  /** In every run, the snapshot of a review is accepted exactly when the attempts it
      tells of, for the current stage and for the retry, are at most 100; each is the
      number of runs of the stage it names. */
  lemma {:induction false} AcceptedExact(actions: seq<Action>, r: Record)
    requires CanRun(NewReview(), actions)
    requires var v := After(NewReview(), actions); |v.job.steps| == |v.runs| == R.STAGES && Reads(r, v)
    ensures TellsTrue(Project(r), After(NewReview(), actions))
    ensures MeetsRules(Project(r)) <==> AttemptsFit(Project(r))
  {
    StartsBasic();
    BasicRun(NewReview(), actions);
    AcceptedPage(r, After(NewReview(), actions));
  }

  /** In every run, it is accepted while no stage has more than 100 runs. */
  lemma {:induction false} AcceptedWhileRunsFit(actions: seq<Action>, r: Record)
    requires CanRun(NewReview(), actions)
    requires var v := After(NewReview(), actions); |v.job.steps| == |v.runs| == R.STAGES && Reads(r, v)
    requires forall i :: 0 <= i < R.STAGES ==> After(NewReview(), actions).job.steps[i].attempts <= ATTEMPT_LIMIT
    ensures MeetsRules(Project(r))
  {
    AcceptedExact(actions, r);
    hide Project, MeetsRules, Reads, CanRun, After;
  }

  /** In every run, it is accepted while lost leases and manual retries are at most 96 together. */
  lemma {:induction false} AcceptedForLong(actions: seq<Action>, r: Record)
    requires CanRun(NewReview(), actions)
    requires var v := After(NewReview(), actions); |v.job.steps| == |v.runs| == R.STAGES && Reads(r, v)
    requires After(NewReview(), actions).job.lost + After(NewReview(), actions).job.retried <= 96
    ensures MeetsRules(Project(r))
  {
    StartsBasic();
    ReachedBounded(NewReview(), actions);
    RT.BudgetOf(After(NewReview(), actions).job);
    hide RP.Bounded, Project, MeetsRules, Reads, CanRun, After, Basic;
    AcceptedWhileRunsFit(actions, r);
  }

  /** In a granted run, exactly when the attempt of the first unfinished step, if it has
      to be shown, is at most 100. */
  lemma {:induction false} AcceptedInOrderExact(actions: seq<Action>, r: Record)
    requires CanRun(NewReview(), actions) && GrantedRun(NewReview(), actions)
    requires var v := After(NewReview(), actions); |v.job.steps| == |v.runs| == R.STAGES && Reads(r, v)
    ensures var v := After(NewReview(), actions); var k := R.FirstUnfinished(v.job.steps, 0);
      MeetsRules(Project(r)) <==> !(k < R.STAGES && AttemptShown(v, k) && v.job.steps[k].attempts > ATTEMPT_LIMIT)
  {
    StartsWell();
    ReachedWell(NewReview(), actions);
    AcceptedState(r, After(NewReview(), actions));
  }

  // ----- a page that cannot be shown -----

  /** The first stage is running, for the n-th time. */
  predicate FirstStageRuns(v: Review, n: nat) {
    && |v.job.steps| == |v.runs| == R.STAGES && v.job.state == R.Running && v.job.pc == R.InStage(0) && v.job.claimToken.Some?
    && v.job.steps[0].state == R.Executing && v.job.steps[0].attempts == n && v.job.lost + 1 == n && v.job.retried == 0
  }

  lemma TwoActions(v: Review, a: Action, b: Action)
    requires Enabled(v, a) && RP.Granted(v.job, a.step) && Enabled(Apply(v, a), b) && RP.Granted(Apply(v, a).job, b.step)
    ensures CanRun(v, [a, b]) && GrantedRun(v, [a, b]) && After(v, [a, b]) == Apply(Apply(v, a), b)
  {
    hide Apply, Enabled, RP.Granted;
    assert [a, b][1..] == [b] && [b][1..] == [];
    assert CanRun(Apply(v, a), [b]) && GrantedRun(Apply(v, a), [b]) && After(Apply(v, a), [b]) == Apply(Apply(v, a), b);
  }

  lemma FirstBegins() returns (actions: seq<Action>)
    ensures CanRun(NewReview(), actions) && GrantedRun(NewReview(), actions) && FirstStageRuns(After(NewReview(), actions), 1)
  {
    var claim := Action(R.ClaimJob(1, 0, 0), Application, false);
    var begin := Action(R.Work(R.BeginStage), Application, false);
    var v := NewReview();
    var v1 := Apply(v, claim);
    actions := [claim, begin];
    TwoActions(v, claim, begin);
  }

  lemma OnceMore(v: Review, n: nat) returns (actions: seq<Action>)
    requires FirstStageRuns(v, n)
    ensures CanRun(v, actions) && GrantedRun(v, actions) && FirstStageRuns(After(v, actions), n + 1)
  {
    var claim := Action(R.ClaimJob(1, 0, 0), Application, false);
    var begin := Action(R.Work(R.BeginStage), Application, false);
    var v1 := Apply(v, claim);
    assert v1.job.steps[0].state == R.Ready;
    actions := [claim, begin];
    TwoActions(v, claim, begin);
  }

  lemma {:induction false} Joined(v: Review, first: seq<Action>, then_: seq<Action>)
    requires CanRun(v, first) && GrantedRun(v, first) && CanRun(After(v, first), then_) && GrantedRun(After(v, first), then_)
    ensures CanRun(v, first + then_) && GrantedRun(v, first + then_) && After(v, first + then_) == After(After(v, first), then_)
    decreases |first|
  {
    hide Apply, Enabled, RP.Granted;
    if first == [] {
      assert first + then_ == then_;
    } else {
      Joined(Apply(v, first[0]), first[1..], then_);
      assert (first + then_)[1..] == first[1..] + then_;
    }
  }

  lemma {:induction false} RunsManyTimes(n: nat) returns (actions: seq<Action>)
    requires n > 0
    ensures CanRun(NewReview(), actions) && GrantedRun(NewReview(), actions) && FirstStageRuns(After(NewReview(), actions), n)
  {
    if n == 1 {
      actions := FirstBegins();
    } else {
      var before := RunsManyTimes(n - 1);
      var more := OnceMore(After(NewReview(), before), n - 1);
      Joined(NewReview(), before, more);
      actions := before + more;
    }
  }

  /** A hundred lost leases in one stage leave a review whose page cannot be shown at all. */
  lemma HundredLossesHideThePage() returns (actions: seq<Action>)
    ensures CanRun(NewReview(), actions) && GrantedRun(NewReview(), actions)
    ensures var v := After(NewReview(), actions);
      && |v.job.steps| == |v.runs| == R.STAGES && v.job.lost == 100 && v.job.retried == 0
      && forall r :: Reads(r, v) ==> !MeetsRules(Project(r))
  {
    actions := RunsManyTimes(101);
    var v := After(NewReview(), actions);
    hide CanRun, After, GrantedRun, MeetsRules, Project, Reads;
    forall r | Reads(r, v)
      ensures !MeetsRules(Project(r))
    {
      AcceptedInOrderExact(actions, r);
    }
  }
}
