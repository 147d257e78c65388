/** Bounds and shapes over whole runs of one review job, and the exact limits of
    what the code promises. */
module ReviewChainTheorems {
  import opened Common
  import opened ReviewChain
  import opened ReviewChainProofs

  lemma NewJobOk()
    ensures Inv(NewJob())
  {
    var job := NewJob();
    assert Shape(job) && RowAgrees(job) && Loose(job) by {
      assert job.steps[0].state == Ready;
    }
    NewJobBudget(job);
    hide Shape, RowAgrees, RunBudget, RepairBudget, Loose;
  }

  lemma NewJobBudget(job: Job)
    requires job == NewJob()
    ensures RunBudget(job) && RepairBudget(job)
  {
    assert forall i :: 0 <= i < STAGES ==> job.steps[i].attempts == 0 && job.steps[i].reopened == 0 && job.steps[i].completed == 0;
  }

  // ----- termination -----

  predicate Reclaim(job: Job, a: Action) {
    a.ClaimJob? && job.state == Running && exists i :: 0 <= i < |job.steps| && job.steps[i].state == Executing
  }

  /** How many claims of the run interrupted a running stage. */
  function LostLeases(job: Job, actions: seq<Action>): nat
    requires CanRun(job, actions)
    decreases |actions|
  {
    if actions == [] then 0
    else (if Reclaim(job, actions[0]) then 1 else 0) + LostLeases(Apply(job, actions[0]), actions[1..])
  }

  function ManualRetries(actions: seq<Action>): nat {
    if actions == [] then 0 else (if actions[0] == RetryJob then 1 else 0) + ManualRetries(actions[1..])
  }

  lemma HistoryStep(job: Job, a: Action)
    requires Enabled(job, a)
    ensures Apply(job, a).lost == job.lost + if Reclaim(job, a) then 1 else 0
    ensures Apply(job, a).retried <= job.retried + if a == RetryJob then 1 else 0
  {
    match a
    case Work(w) => match w { case _ => }
    case _ =>
  }

  lemma {:induction false} HistoryCounts(job: Job, actions: seq<Action>)
    requires CanRun(job, actions)
    ensures Run(job, actions).lost == job.lost + LostLeases(job, actions)
    ensures Run(job, actions).retried <= job.retried + ManualRetries(actions)
    decreases |actions|
  {
    hide Apply, Reclaim, Enabled;
    if actions != [] {
      HistoryStep(job, actions[0]);
      HistoryCounts(Apply(job, actions[0]), actions[1..]);
    }
  }

  lemma FourSteps(steps: seq<Step>)
    requires |steps| == STAGES
    ensures TotalRuns(steps) == steps[0].attempts + steps[1].attempts + steps[2].attempts + steps[3].attempts
  {
    assert steps[1..][1..] == steps[2..] && steps[2..][1..] == steps[3..] && steps[3..][1..] == [];
    assert TotalRuns(steps[3..]) == steps[3].attempts;
    assert TotalRuns(steps[2..]) == steps[2].attempts + TotalRuns(steps[3..]);
    assert TotalRuns(steps[1..]) == steps[1].attempts + TotalRuns(steps[2..]);
  }

  lemma LengthOf(job: Job)
    requires Bounded(job)
    ensures |job.steps| == STAGES
  {
  }

  lemma BudgetOf(job: Job)
    requires Bounded(job)
    ensures TotalRuns(job.steps) <= 14 + job.lost + 2 * job.retried
    ensures forall i :: 0 <= i < STAGES ==>
      job.steps[i].attempts <= (if i < BUILDER then 3 else 4) + job.lost + job.retried
  {
    FourSteps(job.steps);
    assert StepBudget(job, 0) && StepBudget(job, 1) && StepBudget(job, 2) && StepBudget(job, 3);
  }

  /** A job creates at most 14 stage runs, plus one for each lease lost in the
      middle of a stage and two for each manual retry, in every run: lost replies and
      late processes cost nothing. */
  lemma {:induction false} StageRunsBounded(actions: seq<Action>)
    requires CanRun(NewJob(), actions)
    ensures var end := Run(NewJob(), actions).steps;
      && |end| == STAGES
      && TotalRuns(end) <= 14 + LostLeases(NewJob(), actions) + 2 * ManualRetries(actions)
      && forall i :: 0 <= i < STAGES ==>
           end[i].attempts <= (if i < BUILDER then 3 else 4) + LostLeases(NewJob(), actions) + ManualRetries(actions)
  {
    hide Bounded, TotalRuns;
    assert Bounded(NewJob()) by {
      NewJobOk();
    }
    RunBounded(NewJob(), actions);
    assert |Run(NewJob(), actions).steps| == STAGES by {
      LengthOf(Run(NewJob(), actions));
    }
    HistoryCounts(NewJob(), actions);
    BudgetOf(Run(NewJob(), actions));
  }

  /** Whatever happens, one repair at most is scheduled. */
  lemma {:induction false} AtMostOneRepair(actions: seq<Action>)
    requires CanRun(NewJob(), actions)
    ensures Run(NewJob(), actions).repairs <= 1
  {
    NewJobOk();
    RunBounded(NewJob(), actions);
  }

  /** The four steps always read SUCCEEDED*, at most one READY, RUNNING or FAILED,
      then PENDING*; after a cancellation SUCCEEDED*, then CANCELLED*. */
  lemma {:induction false} StepsKeepTheirShape(actions: seq<Action>)
    requires CanRun(NewJob(), actions) && GrantedRun(NewJob(), actions)
    ensures var end := Run(NewJob(), actions);
      && |end.steps| == STAGES
      && var p := FirstUnfinished(end.steps, 0);
      && (end.state == Cancelled ==> forall i :: p <= i < STAGES ==> end.steps[i].state == Dropped)
      && (end.state != Cancelled ==> forall i :: p < i < STAGES ==> end.steps[i].state == Pending)
      && (end.state != Cancelled && p < STAGES ==> end.steps[p].state != Dropped && end.steps[p].state != Done)
      && (end.state == Succeeded ==> p == STAGES)
  {
    hide Bounded;
    NewJobOk();
    RunKeeps(NewJob(), actions);
  }

  /** The steps that call recordFailure: the stage whose run it closes, whether it may
      be retried, and when it failed. */
  predicate RecordsFailure(job: Job, w: WorkerStep, k: nat, retryable: bool, at: int) {
    || (w == StageFails(retryable, at) && job.pc.InStage? && k == job.pc.stage)
    || (w.AfterRecordThrows? && w.retryable == retryable && w.at == at && k == Thrower(job))
  }

  /** In every run, a recorded failure is retried exactly when it may be and fewer than
      three runs were made; the retry then finds its delay, five seconds after the first
      run and thirty after the second. */
  lemma {:induction false} RetryDelayInRange(actions: seq<Action>, w: WorkerStep, k: nat, retryable: bool, at: int)
    requires CanRun(NewJob(), actions)
    requires var job := Run(NewJob(), actions); StepEnabled(job, w) && RecordsFailure(job, w, k, retryable, at)
    ensures var job := Run(NewJob(), actions); var after := Advance(job, w);
      && k < STAGES && job.steps[k].attempts > 0
      && (after.state == Queued <==> retryable && job.steps[k].attempts < MAX_ATTEMPTS)
      && (after.state != Queued ==> after.state == Failed && after.retryNotBefore.None?)
      && (after.state == Queued ==>
            after.retryNotBefore == Some(at + if job.steps[k].attempts == 1 then 5_000 else 30_000))
  {
    var job := Run(NewJob(), actions);
    assert Bounded(job) by {
      NewJobOk();
      RunBounded(NewJob(), actions);
    }
    FailureDelay(job, w, k, retryable, at);
    hide Bounded, Advance, StepEnabled;
  }

  lemma FailureDelay(job: Job, w: WorkerStep, k: nat, retryable: bool, at: int)
    requires Bounded(job) && StepEnabled(job, w) && RecordsFailure(job, w, k, retryable, at)
    ensures var after := Advance(job, w);
      && k < STAGES && job.steps[k].attempts > 0
      && (after.state == Queued <==> retryable && job.steps[k].attempts < MAX_ATTEMPTS)
      && (after.state != Queued ==> after.state == Failed && after.retryNotBefore.None?)
      && (after.state == Queued ==>
            after.retryNotBefore == Some(at + if job.steps[k].attempts == 1 then 5_000 else 30_000))
  {
    assert StepBudget(job, k);
  }

  // ----- exact limits -----

  /** A review that fails at its total deadline can be retried exactly when its
      first unfinished step is not PENDING: a crash between recordSuccess and
      readyDependents leaves nothing to resume. */
  lemma DeadlineRetryExact(job: Job)
    requires Inv(job) && StepEnabled(job, DeadlinePassed)
    ensures var after := Advance(job, DeadlinePassed); var k := FirstUnfinished(job.steps, 0);
      && after.state == Failed
      && (ManualRetry(after) != after <==> (k == STAGES || job.steps[k].state != Pending))
  {
    var k := FirstUnfinished(job.steps, 0);
    var after := Advance(job, DeadlinePassed);
    var failed := if k == STAGES then AUDIT else k;
    if k == STAGES || job.steps[k].state != Pending {
      assert after.steps[failed].state == Broken;
      assert ManualRetry(after).state == Queued;
    } else {
      assert after.steps == job.steps;
    }
  }

  /** When the end of recordSuccess, readyDependents or scheduleCandidateRepair throws,
      the steps keep their shape exactly when the statement has changed no step and no
      late process has made the next stage READY, whether or not the failure is retried. */
  lemma RecordThrowExact(job: Job, written: bool, retryable: bool, at: int)
    requires Inv(job) && StepEnabled(job, AfterRecordThrows(written, retryable, at))
    ensures Shape(Advance(job, AfterRecordThrows(written, retryable, at))) <==>
            Granted(job, Work(AfterRecordThrows(written, retryable, at)))
  {
    if Granted(job, Work(AfterRecordThrows(written, retryable, at))) {
      WorkKeeps(job, AfterRecordThrows(written, retryable, at));
    } else if job.pc.Recorded? {
      PromotedThrow(job, written, retryable, at);
    } else {
      RepairedThrow(job, retryable, at);
    }
  }

  lemma PromotedThrow(job: Job, written: bool, retryable: bool, at: int)
    requires Inv(job) && StepEnabled(job, AfterRecordThrows(written, retryable, at)) && job.pc.Recorded?
    requires !Granted(job, Work(AfterRecordThrows(written, retryable, at)))
    ensures !Shape(Advance(job, AfterRecordThrows(written, retryable, at)))
  {
    var k := job.pc.stage;
    var after := Advance(job, AfterRecordThrows(written, retryable, at));
    if job.pc.read.Some? {
      ReadIsNext(job);
    }
    hide Bounded;
    assert after.steps[k].state == Ready || after.steps[k].state == Broken;
    assert after.steps[k + 1].state == Ready;
  }

  lemma ReadIsNext(job: Job)
    requires Bounded(job) && job.pc.Recorded? && job.pc.read.Some?
    ensures job.pc.read.value == job.pc.stage + 1 || job.pc.read.value == STAGES
  {
  }

  /** A late process that goes on keeps the order of the steps exactly when the step it
      has read as next does not wait any more, or its predecessor is still done. */
  lemma LateWriteExact(job: Job, process: nat)
    requires Inv(job) && process < |job.late|
    ensures Shape(Wake(job, process)) <==> !Stale(job, process)
  {
    if Stale(job, process) {
      var k := job.late[process].value;
      hide Bounded;
      assert Wake(job, process).steps[k].state == Ready && Wake(job, process).steps[k - 1].state == job.steps[k - 1].state;
    } else {
      WakeShape(job, process);
      hide Bounded;
    }
  }

  /** Only the repair's steps differ. */
  lemma RepairedThrow(job: Job, retryable: bool, at: int)
    requires Inv(job) && job.pc == NeedsRepair && Wrote(job, true)
    ensures StepEnabled(job, AfterRecordThrows(true, retryable, at))
    ensures !Shape(Advance(job, AfterRecordThrows(true, retryable, at)))
  {
    var after := Advance(job, AfterRecordThrows(true, retryable, at));
    hide Bounded;
    assert job.steps[AUDIT].completed <= MAX_REPAIRS;
    assert after.steps[BUILDER].state == Ready;
    assert after.steps[AUDIT].state == Ready || after.steps[AUDIT].state == Broken;
  }

  // ----- concrete runs -----

  predicate Reaches(actions: seq<Action>, job: Job, retries: nat) {
    && CanRun(NewJob(), actions) && GrantedRun(NewJob(), actions)
    && Run(NewJob(), actions) == job && ManualRetries(actions) == retries && LostLeases(NewJob(), actions) == 0
  }

  lemma {:induction false} RunThen(job: Job, actions: seq<Action>, a: Action)
    requires CanRun(job, actions) && GrantedRun(job, actions)
    requires Enabled(Run(job, actions), a) && Granted(Run(job, actions), a)
    requires !Reclaim(Run(job, actions), a)
    ensures CanRun(job, actions + [a]) && GrantedRun(job, actions + [a])
    ensures Run(job, actions + [a]) == Apply(Run(job, actions), a)
    ensures ManualRetries(actions + [a]) == ManualRetries(actions) + if a == RetryJob then 1 else 0
    ensures LostLeases(job, actions + [a]) == LostLeases(job, actions)
    decreases |actions|
  {
    hide Apply, Enabled, Granted, Reclaim;
    if actions == [] {
      assert [] + [a] == [a];
    } else {
      RunThen(Apply(job, actions[0]), actions[1..], a);
      assert (actions + [a])[1..] == actions[1..] + [a];
    }
  }

  lemma Then(actions: seq<Action>, job: Job, r: nat, a: Action) returns (actions': seq<Action>, job': Job)
    requires Reaches(actions, job, r) && Enabled(job, a) && Granted(job, a) && !Reclaim(job, a)
    ensures job' == Apply(job, a) && Reaches(actions', job', if a == RetryJob then r + 1 else r)
  {
    hide Apply, Enabled, Granted, Reclaim;
    RunThen(NewJob(), actions, a);
    actions', job' := actions + [a], Apply(job, a);
  }

  /** READY at `k`, everything before it finished, everything after it waiting. */
  predicate Facing(job: Job, k: nat) {
    && |job.steps| == STAGES && k <= STAGES
    && (forall i :: 0 <= i < k ==> job.steps[i].state == Done)
    && (k < STAGES ==> job.steps[k].state == Ready)
    && (forall i :: k < i < STAGES ==> job.steps[i].state == Pending)
  }

  predicate Held(job: Job) {
    job.state == Running && job.claimToken.Some? && job.pc == Top
  }

  /** `after` is `job` with the stage finished by `runs` more runs, and the loop gone on. */
  predicate StageDone(job: Job, k: nat, revise: bool, runs: nat, after: Job)
    requires |job.steps| == STAGES && k < STAGES
  {
    && after.state == Running && after.claimToken.Some? && after.pc == (if revise then NeedsRepair else Top)
    && after.late == job.late
    && Facing(after, k + 1)
    && forall i :: 0 <= i < STAGES ==>
         && after.steps[i].attempts == job.steps[i].attempts + (if i == k then runs else 0)
         && after.steps[i].completed == job.steps[i].completed + (if i == k then 1 else 0)
  }

  lemma Begun(job: Job, k: nat)
    requires Held(job) && k < STAGES && Facing(job, k)
    ensures StepEnabled(job, BeginStage)
    ensures Advance(job, BeginStage) ==
      job.(steps := job.steps[k := job.steps[k].(state := Executing, attempts := job.steps[k].attempts + 1)], pc := InStage(k))
  {
    assert FirstIn(job.steps, Ready, 0) == k;
  }

  /** The stage is started, succeeds, and its dependents become READY. */
  lemma SucceedsOnce(actions: seq<Action>, job: Job, r: nat, k: nat, revise: bool) returns (actions': seq<Action>, job': Job)
    requires Reaches(actions, job, r) && k < STAGES && Held(job) && Facing(job, k) && (revise ==> k == AUDIT)
    ensures Reaches(actions', job', r) && StageDone(job, k, revise, 1, job')
  {
    hide Reaches;
    Begun(job, k);
    var a, j := Then(actions, job, r, Work(BeginStage));
    a, j := Then(a, j, r, Work(StageSucceeds(revise)));
    assert j.steps == job.steps[k := job.steps[k].(
      state := Done, attempts := job.steps[k].attempts + 1, completed := job.steps[k].completed + 1)];
    a, j := Then(a, j, r, Work(ReadDependents));
    assert j.pc.read == Some(k + 1) by {
      assert k + 1 < STAGES ==> j.steps[k + 1].state == Pending && Supported(j.steps, k + 1);
    }
    actions', job' := Then(a, j, r, Work(PromoteDependents));
  }

  /** The stage is started, fails in a way that is retried, and is claimed again. */
  lemma FailsOnce(actions: seq<Action>, job: Job, r: nat, k: nat) returns (actions': seq<Action>, job': Job)
    requires Reaches(actions, job, r) && k < STAGES && Held(job) && Facing(job, k) && job.steps[k].attempts + 1 < MAX_ATTEMPTS
    ensures Reaches(actions', job', r) && Held(job') && Facing(job', k) && job'.late == job.late
    ensures job'.steps == job.steps[k := job.steps[k].(attempts := job.steps[k].attempts + 1)]
  {
    hide Reaches;
    Begun(job, k);
    var a, j := Then(actions, job, r, Work(BeginStage));
    a, j := Then(a, j, r, Work(StageFails(true, 0)));
    assert j.steps == job.steps[k := job.steps[k].(attempts := job.steps[k].attempts + 1)];
    actions', job' := Then(a, j, r, ClaimJob(0, 0, 1));
  }

  /** Two failures that are retried, then success: three runs. */
  lemma ThreeRuns(actions: seq<Action>, job: Job, r: nat, k: nat, revise: bool) returns (actions': seq<Action>, job': Job)
    requires Reaches(actions, job, r) && k < STAGES && Held(job) && Facing(job, k) && (revise ==> k == AUDIT)
    requires job.steps[k].attempts == 0
    ensures Reaches(actions', job', r) && StageDone(job, k, revise, 3, job')
  {
    hide Reaches;
    var a, j := FailsOnce(actions, job, r, k);
    a, j := FailsOnce(a, j, r, k);
    actions', job' := SucceedsOnce(a, j, r, k, revise);
  }

  lemma RepairBegins(actions: seq<Action>, job: Job) returns (actions': seq<Action>, job': Job)
    requires Reaches(actions, job, 0) && job.state == Running && job.claimToken.Some? && job.pc == NeedsRepair
    requires Facing(job, STAGES) && job.steps[AUDIT].completed == 1
    ensures Reaches(actions', job', 0) && Held(job') && Facing(job', BUILDER)
    ensures forall i :: 0 <= i < STAGES ==> job'.steps[i].attempts == job.steps[i].attempts
  {
    hide Reaches;
    actions', job' := Then(actions, job, 0, Work(RepairOrFail));
  }

  /** The bound of 14 is reached without a manual retry and without a lost lease. */
  lemma FourteenRunsHappen() returns (actions: seq<Action>)
    ensures CanRun(NewJob(), actions) && GrantedRun(NewJob(), actions)
    ensures ManualRetries(actions) == 0 && LostLeases(NewJob(), actions) == 0
    ensures Run(NewJob(), actions).state == Succeeded && TotalRuns(Run(NewJob(), actions).steps) == 14
  {
    NothingYet();
    hide Reaches;
    var job;
    actions, job := Then([], NewJob(), 0, ClaimJob(0, 0, 1));
    actions, job := ThreeRuns(actions, job, 0, 0, false);
    actions, job := ThreeRuns(actions, job, 0, 1, false);
    actions, job := ThreeRuns(actions, job, 0, BUILDER, false);
    actions, job := ThreeRuns(actions, job, 0, AUDIT, true);
    actions, job := RepairBegins(actions, job);
    actions, job := SucceedsOnce(actions, job, 0, BUILDER, false);
    actions, job := SucceedsOnce(actions, job, 0, AUDIT, false);
    actions, job := Then(actions, job, 0, Work(MaterializeSucceeds));
    FourSteps(job.steps);
    Reached(actions, job, 0);
  }

  lemma Reached(actions: seq<Action>, job: Job, r: nat)
    requires Reaches(actions, job, r)
    ensures CanRun(NewJob(), actions) && GrantedRun(NewJob(), actions) && Run(NewJob(), actions) == job
    ensures ManualRetries(actions) == r && LostLeases(NewJob(), actions) == 0
  {
  }

  lemma NothingYet()
    ensures Reaches([], NewJob(), 0)
  {
  }

  lemma AuditFacing() returns (actions: seq<Action>, job: Job)
    ensures Reaches(actions, job, 0) && Held(job) && Facing(job, AUDIT) && job.late == [] && job.steps[AUDIT].completed == 0
  {
    NothingYet();
    hide Reaches;
    actions, job := Then([], NewJob(), 0, ClaimJob(0, 0, 1));
    actions, job := SucceedsOnce(actions, job, 0, 0, false);
    actions, job := SucceedsOnce(actions, job, 0, 1, false);
    actions, job := SucceedsOnce(actions, job, 0, BUILDER, false);
  }

  lemma AuditRecordedLate(actions: seq<Action>, job: Job) returns (actions': seq<Action>, job': Job)
    requires Reaches(actions, job, 0) && Held(job) && Facing(job, AUDIT) && job.late == []
    ensures Reaches(actions', job', 0) && |job'.steps| == STAGES && job'.state == Failed && job'.pc == Gone && job'.late == [None]
    ensures job'.steps[0].state == Done && job'.steps[1].state == Done
    ensures job'.steps[BUILDER].state == Broken && job'.steps[AUDIT].state == Pending
  {
    hide Reaches;
    Begun(job, AUDIT);
    var a, j := Then(actions, job, 0, Work(BeginStage));
    a, j := Then(a, j, 0, Work(StageSucceeds(true)));
    a, j := Then(a, j, 0, ClaimJob(1, 1, 1));
    actions', job' := Then(a, j, 0, Work(MaterializeFails));
  }

  /** A process that recorded an audit and lost its claim wakes up after a manual
      retry, between the builder's recordSuccess and a readyDependents that throws:
      the audit reads READY behind a FAILED builder. */
  lemma LateDependentsBreakShape() returns (actions: seq<Action>)
    ensures CanRun(NewJob(), actions) && GrantedRun(NewJob(), actions)
    ensures var job := Run(NewJob(), actions);
      var throws := AfterRecordThrows(false, false, 0);
      StepEnabled(job, throws) && !Shape(Advance(job, throws))
  {
    hide Reaches;
    var job;
    actions, job := AuditFacing();
    actions, job := AuditRecordedLate(actions, job);
    actions, job := BuilderRunsAgain(actions, job);
    actions, job := ReadLate(actions, job);
    actions, job := Then(actions, job, 1, LateDependents(0));
    Reached(actions, job, 1);
    assert job.steps[AUDIT].state == Ready;
    OutOfOrder(job);
  }

  /** The process that recorded the audit reads that the audit may start again. */
  lemma ReadLate(actions: seq<Action>, job: Job) returns (actions': seq<Action>, job': Job)
    requires Reaches(actions, job, 1) && |job.steps| == STAGES && job.late == [None]
    requires job.steps[0].state == Done && job.steps[1].state == Done
    requires job.steps[BUILDER].state == Done && job.steps[AUDIT].state == Pending
    ensures Reaches(actions', job', 1) && job' == job.(late := [Some(AUDIT)])
  {
    hide Reaches;
    assert NextWaiting(job.steps, 0) == AUDIT;
    actions', job' := Then(actions, job, 1, LateDependents(0));
  }

  /** A late process that reads while the builder is done and the audit waits, and
      writes only when a failed materialisation has taken the builder back: the audit
      reads READY behind a FAILED builder, and nothing has thrown. */
  lemma StaleReadBreaksShape() returns (actions: seq<Action>)
    ensures CanRun(NewJob(), actions) && GrantedRun(NewJob(), actions)
    ensures var job := Run(NewJob(), actions);
      && Enabled(job, LateDependents(0))
      && var after := Apply(job, LateDependents(0));
         && |after.steps| == STAGES && after.state == Failed && !Shape(after)
         && after.steps[0].state == Done && after.steps[1].state == Done
         && after.steps[BUILDER].state == Broken && after.steps[AUDIT].state == Ready
  {
    hide Reaches;
    var job;
    actions, job := AuditFacing();
    actions, job := AuditRecordedLate(actions, job);
    actions, job := BuilderRunsAgain(actions, job);
    actions, job := ReadLate(actions, job);
    actions, job := AuditTakenBack(actions, job);
    Reached(actions, job, 1);
    WrittenLate(job);
  }

  lemma AuditTakenBack(actions: seq<Action>, job: Job) returns (actions': seq<Action>, job': Job)
    requires Reaches(actions, job, 1) && |job.steps| == STAGES && job.late == [Some(AUDIT)]
    requires job.state == Running && job.claimToken.Some? && job.pc == Recorded(BUILDER, false, None)
    requires job.steps[0].state == Done && job.steps[1].state == Done
    requires job.steps[BUILDER].state == Done && job.steps[AUDIT].state == Pending
    ensures Reaches(actions', job', 1) && TakenBack(job')
  {
    hide Reaches;
    assert NextWaiting(job.steps, 0) == AUDIT;
    var a, j := Then(actions, job, 1, Work(ReadDependents));
    a, j := Then(a, j, 1, Work(PromoteDependents));
    a, j := SucceedsOnce(a, j, 1, AUDIT, false);
    actions', job' := Then(a, j, 1, Work(MaterializeFails));
  }

  predicate TakenBack(job: Job) {
    && |job.steps| == STAGES && job.state == Failed && job.late == [Some(AUDIT)]
    && job.steps[0].state == Done && job.steps[1].state == Done
    && job.steps[BUILDER].state == Broken && job.steps[AUDIT].state == Pending
  }

  lemma WrittenLate(job: Job)
    requires TakenBack(job)
    ensures Enabled(job, LateDependents(0))
    ensures var after := Apply(job, LateDependents(0));
      && |after.steps| == STAGES && after.state == Failed && !Shape(after)
      && after.steps[0].state == Done && after.steps[1].state == Done
      && after.steps[BUILDER].state == Broken && after.steps[AUDIT].state == Ready
  {
    var after := Apply(job, LateDependents(0));
    assert after.steps[BUILDER].state == Broken && after.steps[AUDIT].state == Ready;
  }

  lemma OutOfOrder(job: Job)
    requires |job.steps| == STAGES && job.state == Running && job.claimToken.Some?
    requires job.pc == Recorded(BUILDER, false, None) && job.steps[AUDIT].state == Ready
    ensures var throws := AfterRecordThrows(false, false, 0); StepEnabled(job, throws) && !Shape(Advance(job, throws))
  {
    var after := Advance(job, AfterRecordThrows(false, false, 0));
    assert after.steps[BUILDER].state == Broken && after.steps[AUDIT].state == Ready;
  }

  lemma BuilderRunsAgain(actions: seq<Action>, job: Job) returns (actions': seq<Action>, job': Job)
    requires Reaches(actions, job, 0) && |job.steps| == STAGES && job.state == Failed && job.pc == Gone
    requires job.steps[0].state == Done && job.steps[1].state == Done
    requires job.steps[BUILDER].state == Broken && job.steps[AUDIT].state == Pending
    ensures Reaches(actions', job', 1) && |job'.steps| == STAGES && job'.late == job.late
    ensures job'.state == Running && job'.claimToken.Some? && job'.pc == Recorded(BUILDER, false, None)
    ensures job'.steps[0].state == Done && job'.steps[1].state == Done
    ensures job'.steps[BUILDER].state == Done && job'.steps[AUDIT].state == Pending
  {
    hide Reaches;
    assert FirstIn(job.steps, Broken, 0) == BUILDER;
    var a, j := Then(actions, job, 0, RetryJob);
    assert Facing(j, BUILDER) && j.state == Queued;
    a, j := Then(a, j, 1, ClaimJob(2, 2, 1));
    Begun(j, BUILDER);
    a, j := Then(a, j, 1, Work(BeginStage));
    actions', job' := Then(a, j, 1, Work(StageSucceeds(false)));
  }

  /** No late process is needed: the COMMIT of scheduleCandidateRepair takes effect, its
      reply is lost, and recordFailure leaves the builder READY in front of a FAILED audit. */
  lemma LostReplyBreaksShape() returns (actions: seq<Action>)
    ensures CanRun(NewJob(), actions) && GrantedRun(NewJob(), actions) && Run(NewJob(), actions).late == []
    ensures var job := Run(NewJob(), actions); var throws := AfterRecordThrows(true, false, 0);
      && StepEnabled(job, throws)
      && var after := Advance(job, throws);
         && |after.steps| == STAGES && after.state == Failed && !Shape(after)
         && after.steps[0].state == Done && after.steps[1].state == Done
         && after.steps[BUILDER].state == Ready && after.steps[AUDIT].state == Broken
  {
    hide Reaches;
    var job;
    actions, job := AuditFacing();
    actions, job := SucceedsOnce(actions, job, 0, AUDIT, true);
    Reached(actions, job, 0);
    RepairWritten(job);
  }

  lemma RepairWritten(job: Job)
    requires |job.steps| == STAGES && job.state == Running && job.claimToken.Some? && job.pc == NeedsRepair
    requires Facing(job, STAGES) && job.steps[AUDIT].completed <= MAX_REPAIRS
    ensures var throws := AfterRecordThrows(true, false, 0);
      && StepEnabled(job, throws)
      && var after := Advance(job, throws);
         && |after.steps| == STAGES && after.state == Failed && !Shape(after)
         && after.steps[0].state == Done && after.steps[1].state == Done
         && after.steps[BUILDER].state == Ready && after.steps[AUDIT].state == Broken
  {
    var after := Advance(job, AfterRecordThrows(true, false, 0));
    assert after.steps[BUILDER].state == Ready && after.steps[AUDIT].state == Broken;
  }
}
