/** What every run of one review job keeps: the shape of its four steps, the
    budget of stage runs, and the single repair. */
module ReviewChainProofs {
  import opened Common
  import opened ReviewChain

  // ----- the invariant -----

  /** SUCCEEDED*, then at most one READY, RUNNING or FAILED step, then PENDING*. */
  predicate OpenShape(steps: seq<Step>) {
    && (forall i :: 0 <= i < |steps| ==> steps[i].state != Dropped)
    && (forall i, j :: 0 <= i < j < |steps| && steps[i].state != Done ==> steps[j].state == Pending)
  }

  /** After a cancellation: SUCCEEDED*, then CANCELLED*. */
  predicate DroppedShape(steps: seq<Step>) {
    && (forall i :: 0 <= i < |steps| ==> steps[i].state == Done || steps[i].state == Dropped)
    && (forall i, j :: 0 <= i < j < |steps| && steps[i].state != Done ==> steps[j].state != Done)
  }

  predicate Shape(job: Job) {
    |job.steps| == STAGES && if job.state == Cancelled then DroppedShape(job.steps) else OpenShape(job.steps)
  }

  /** The job row and the process that holds it agree with the steps. */
  predicate RowAgrees(job: Job)
    requires |job.steps| == STAGES
  {
    && (forall i :: 0 <= i < STAGES && job.steps[i].state == Executing ==> job.state == Running)
    && (forall i :: 0 <= i < STAGES && job.steps[i].state == Broken ==> job.state == Failed)
    && (job.state == Queued ==> exists i :: 0 <= i < STAGES && job.steps[i].state == Ready)
    && (job.state == Succeeded ==> AllDone(job.steps))
    && (job.pc != Gone ==> job.state == Running && job.claimToken.Some?)
    && match job.pc
       case Gone => true
       case Top => forall i :: 0 <= i < STAGES ==> job.steps[i].state != Executing
       case InStage(k) => k < STAGES && job.steps[k].state == Executing
       case Recorded(k, revise, read) =>
         k < STAGES && job.steps[k].state == Done && (revise ==> k == AUDIT)
         && (forall i :: 0 <= i < STAGES ==> job.steps[i].state != Executing)
         && (forall i :: k + 1 < i < STAGES ==> job.steps[i].state == Pending)
         && (k + 1 < STAGES ==> job.steps[k + 1].state == Pending || job.steps[k + 1].state == Ready)
       case NeedsRepair => AllDone(job.steps)
  }

  /** A step never has more than three runs, and one more for each time it was
      opened again; a step that may still start has one left.  Only the audit waits
      again after it has run. */
  predicate StepBudget(job: Job, i: nat)
    requires |job.steps| == STAGES && i < STAGES
  {
    var s := job.steps[i];
    && s.attempts <= MAX_ATTEMPTS + s.reopened
    && (s.state == Ready || s.state == Pending ==>
          s.attempts < MAX_ATTEMPTS + s.reopened || (i == AUDIT && job.steps[BUILDER].state == Broken))
    && (s.state == Pending && i <= BUILDER ==> s.attempts == 0)
    && (s.state == Executing || s.state == Done ==> s.attempts > 0)
  }

  /** The first two stages are never taken back once a later stage has run. */
  predicate EarlyStagesStay(job: Job)
    requires |job.steps| == STAGES
  {
    && (job.state != Cancelled ==>
          forall i, j :: 0 <= j < i < STAGES && j < BUILDER && job.steps[i].attempts > 0 ==> job.steps[j].state == Done)
    && (job.pc.Recorded? && job.pc.stage < BUILDER ==>
          forall i :: job.pc.stage < i < STAGES ==> job.steps[i].attempts == 0)
  }

  /** Whoever has read that a step may start has seen a run of the stage before it. */
  predicate ReadsSound(job: Job)
    requires |job.steps| == STAGES
  {
    forall i :: 0 <= i < |job.late| && job.late[i].Some? && 0 < job.late[i].value < STAGES ==>
      job.steps[job.late[i].value - 1].attempts > 0
  }

  predicate RunBudget(job: Job)
    requires |job.steps| == STAGES
  {
    && (forall i :: 0 <= i < STAGES ==> StepBudget(job, i))
    && ReadsSound(job)
    && EarlyStagesStay(job)
    && job.steps[0].reopened + job.steps[1].reopened + job.steps[BUILDER].reopened + job.steps[AUDIT].reopened
       <= job.lost + 2 * job.retried + 2 * job.repairs
    && (forall i :: 0 <= i < STAGES ==>
          job.steps[i].reopened <= job.lost + job.retried + if i >= BUILDER then job.repairs else 0)
  }

  /** Repairs are counted by the completed audits. */
  predicate RepairBudget(job: Job)
    requires |job.steps| == STAGES
  {
    && job.repairs <= MAX_REPAIRS
    && job.repairs <= job.steps[AUDIT].completed
    && (job.pc == NeedsRepair || (job.pc.Recorded? && job.pc.revise) ==> job.repairs < job.steps[AUDIT].completed)
  }

  // ----- what every run keeps, lost replies and late processes included -----

  /** Finished steps come first and waiting ones last, nothing is dropped before a
      cancellation, and one step at most is running. */
  predicate Ordered(job: Job) {
    && |job.steps| == STAGES
    && (job.state != Cancelled ==>
          && (forall i :: 0 <= i < STAGES ==> job.steps[i].state != Dropped)
          && (forall i, j :: 0 <= i < j < STAGES && job.steps[i].state == Pending ==> job.steps[j].state == Pending)
          && (forall i, j :: 0 <= i < j < STAGES && job.steps[j].state == Done ==> job.steps[i].state == Done))
    && (job.state == Cancelled ==> forall i :: 0 <= i < STAGES ==> job.steps[i].state == Done || job.steps[i].state == Dropped)
    && (forall i, j :: 0 <= i < STAGES && 0 <= j < STAGES && job.steps[i].state == Executing && job.steps[j].state == Executing ==> i == j)
  }

  predicate Idle(job: Job)
    requires |job.steps| == STAGES
  {
    forall i :: 0 <= i < STAGES ==> job.steps[i].state != Executing
  }

  /** The row and the process that holds the claim. */
  predicate Holds(job: Job)
    requires |job.steps| == STAGES
  {
    && (forall i :: 0 <= i < STAGES && job.steps[i].state == Executing ==> job.state == Running)
    && (forall i :: 0 <= i < STAGES && job.steps[i].state == Broken ==> job.state == Failed)
    && (job.pc != Gone ==> job.state == Running && job.claimToken.Some?)
    && match job.pc
       case Gone => true
       case Top => Idle(job)
       case InStage(k) =>
         k < STAGES && job.steps[k].state == Executing && forall i :: 0 <= i < k ==> job.steps[i].state == Done
       case Recorded(k, revise, read) =>
         && k < STAGES && job.steps[k].state == Done && (revise ==> k == AUDIT) && Idle(job)
         && (read.Some? ==> read.value == k + 1 || read.value == STAGES)
         && forall i :: k < i < STAGES ==> job.steps[i].state != Done
       case NeedsRepair => job.steps[AUDIT].state == Done && Idle(job)
  }

  predicate Loose(job: Job) {
    Ordered(job) && Holds(job)
  }

  /** Bounds on runs and repairs. */
  predicate Bounded(job: Job) {
    Loose(job) && RunBudget(job) && RepairBudget(job)
  }

  /** The order of the steps besides. */
  predicate Inv(job: Job) {
    Bounded(job) && Shape(job) && RowAgrees(job)
  }

  // ----- what the environment must grant for the order of the steps -----

  /** The statement that threw has changed a step. */
  predicate Wrote(job: Job, written: bool)
    requires |job.steps| == STAGES
  {
    Written(job, written).steps != job.steps
  }

  /** What a late process is about to write READY has its predecessor undone again. */
  predicate Stale(job: Job, process: nat)
    requires process < |job.late|
  {
    && job.late[process].Some? && job.late[process].value < |job.steps|
    && job.steps[job.late[process].value].state == Pending && !Supported(job.steps, job.late[process].value)
  }

  /** No reply is lost of a write after recordSuccess, no late readyDependents comes
      before a throw there, and none writes what it has read before its predecessor
      was taken back. */
  predicate Granted(job: Job, a: Action)
    requires Enabled(job, a)
  {
    && (a.Work? && a.step.AfterRecordThrows? ==>
          && !Wrote(job, a.step.written)
          && (job.pc.Recorded? && job.pc.stage + 1 < STAGES ==> job.steps[job.pc.stage + 1].state != Ready))
    && (a.LateDependents? ==> !Stale(job, a.process))
  }

  predicate GrantedRun(job: Job, actions: seq<Action>)
    requires CanRun(job, actions)
    decreases |actions|
  {
    actions == [] || (Granted(job, actions[0]) && GrantedRun(Apply(job, actions[0]), actions[1..]))
  }

  // ----- every action keeps the bounds -----

  lemma ReadsKept(job: Job, after: Job)
    requires Bounded(job) && |after.steps| == STAGES && (after.late == job.late || after.late == LateAfter(job))
    requires forall i :: 0 <= i < STAGES ==> job.steps[i].attempts <= after.steps[i].attempts
    ensures ReadsSound(after)
  {
    assert job.pc.Recorded? ==> StepBudget(job, job.pc.stage);
  }

  lemma ClaimLoose(job: Job, token: nat, now: int, leaseMs: int)
    requires Loose(job) && Enabled(job, ClaimJob(token, now, leaseMs))
    ensures Loose(Claim(job, token, now, leaseMs))
  {
  }

  lemma ClaimBudget(job: Job, token: nat, now: int, leaseMs: int)
    requires Bounded(job) && Enabled(job, ClaimJob(token, now, leaseMs))
    ensures RunBudget(Claim(job, token, now, leaseMs)) && RepairBudget(Claim(job, token, now, leaseMs))
  {
    ReadsKept(job, Claim(job, token, now, leaseMs));
    hide ReadsSound;
    forall i | 0 <= i < STAGES
      ensures StepBudget(Claim(job, token, now, leaseMs), i)
    {
      assert StepBudget(job, i);
    }
  }

  lemma ClaimBounded(job: Job, token: nat, now: int, leaseMs: int)
    requires Bounded(job) && Enabled(job, ClaimJob(token, now, leaseMs))
    ensures Bounded(Claim(job, token, now, leaseMs))
  {
    ClaimLoose(job, token, now, leaseMs);
    ClaimBudget(job, token, now, leaseMs);
    hide Loose, RunBudget, RepairBudget;
  }

  /** A step that one has read as next. */
  predicate MayPromote(job: Job, k: nat)
    requires |job.steps| == STAGES
  {
    0 < k < STAGES ==> job.steps[k - 1].attempts > 0
  }

  lemma PromotionLoose(job: Job, k: nat)
    requires Bounded(job) && MayPromote(job, k)
    ensures Loose(job.(steps := Promote(job.steps, k)))
  {
    assert 0 < k < STAGES ==> StepBudget(job, k - 1);
  }

  lemma PromotionBudget(job: Job, k: nat)
    requires Bounded(job)
    ensures var after := job.(steps := Promote(job.steps, k)); RunBudget(after) && RepairBudget(after)
  {
    var after := job.(steps := Promote(job.steps, k));
    forall i | 0 <= i < STAGES
      ensures StepBudget(after, i)
    {
      assert StepBudget(job, i);
    }
  }

  lemma PromotionBounded(job: Job, k: nat)
    requires Bounded(job) && MayPromote(job, k)
    ensures Bounded(job.(steps := Promote(job.steps, k)))
  {
    PromotionLoose(job, k);
    PromotionBudget(job, k);
    hide Loose, RunBudget, RepairBudget, Promote;
  }

  /** What is read as next has its predecessor done, so that one has run. */
  lemma NextMayBePromoted(job: Job)
    requires Bounded(job)
    ensures MayPromote(job, NextWaiting(job.steps, 0))
  {
    var k := NextWaiting(job.steps, 0);
    assert 0 < k < STAGES ==> StepBudget(job, k - 1);
  }

  lemma RecordedMayPromote(job: Job)
    requires Bounded(job) && job.pc.Recorded? && job.pc.read.Some?
    ensures MayPromote(job, job.pc.read.value)
  {
    assert StepBudget(job, job.pc.stage);
  }

  /** Where the loop goes on after readyDependents. */
  predicate GoesOn(job: Job, pc: Pc) {
    job.pc.Recorded? && pc == if job.pc.revise then NeedsRepair else Top
  }

  /** The budgets do not ask how far readyDependents is. */
  lemma PcBudget(job: Job, pc: Pc)
    requires Bounded(job) && (GoesOn(job, pc) || (job.pc.Recorded? && pc.Recorded? && pc == job.pc.(read := pc.read)))
    ensures RunBudget(job.(pc := pc)) && RepairBudget(job.(pc := pc))
  {
    var after := job.(pc := pc);
    ReadsKept(job, after);
    hide ReadsSound;
    forall i | 0 <= i < STAGES
      ensures StepBudget(after, i)
    {
      assert StepBudget(job, i);
    }
  }

  lemma ReadBounded(job: Job)
    requires Bounded(job) && StepEnabled(job, ReadDependents)
    ensures Bounded(Advance(job, ReadDependents))
  {
    ReadLoose(job);
    PcBudget(job, Advance(job, ReadDependents).pc);
    hide Loose, RunBudget, RepairBudget;
  }

  lemma ReadLoose(job: Job)
    requires Loose(job) && StepEnabled(job, ReadDependents)
    ensures Loose(Advance(job, ReadDependents))
  {
  }

  lemma WakeBounded(job: Job, process: nat)
    requires Bounded(job) && process < |job.late|
    ensures Bounded(Wake(job, process))
  {
    if job.late[process].None? {
      NextMayBePromoted(job);
      ColumnBounded(job, Wake(job, process));
    } else {
      var k := job.late[process].value;
      PromotionBounded(job, k);
      ColumnBounded(job.(steps := Promote(job.steps, k)), Wake(job, process));
    }
  }

  lemma BeginLoose(job: Job)
    requires Loose(job) && StepEnabled(job, BeginStage)
    ensures Loose(Advance(job, BeginStage))
  {
  }

  lemma BeginBudget(job: Job)
    requires Bounded(job) && StepEnabled(job, BeginStage)
    ensures RunBudget(Advance(job, BeginStage)) && RepairBudget(Advance(job, BeginStage))
  {
    ReadsKept(job, Advance(job, BeginStage));
    hide ReadsSound;
    var k := FirstIn(job.steps, Ready, 0);
    assert forall j :: 0 <= j < k ==> job.steps[j].state == Done;
    forall i | 0 <= i < STAGES
      ensures StepBudget(Advance(job, BeginStage), i)
    {
      assert StepBudget(job, i);
    }
  }

  lemma BeginBounded(job: Job)
    requires Bounded(job) && StepEnabled(job, BeginStage)
    ensures Bounded(Advance(job, BeginStage))
  {
    BeginLoose(job);
    BeginBudget(job);
    hide Loose, RunBudget, RepairBudget, Advance;
  }

  lemma SuccessLoose(job: Job, revise: bool)
    requires Loose(job) && StepEnabled(job, StageSucceeds(revise))
    ensures Loose(Advance(job, StageSucceeds(revise)))
  {
  }

  lemma SuccessBudget(job: Job, revise: bool)
    requires Bounded(job) && StepEnabled(job, StageSucceeds(revise))
    ensures RunBudget(Advance(job, StageSucceeds(revise))) && RepairBudget(Advance(job, StageSucceeds(revise)))
  {
    forall i | 0 <= i < STAGES
      ensures StepBudget(Advance(job, StageSucceeds(revise)), i)
    {
      assert StepBudget(job, i);
    }
  }

  lemma SuccessBounded(job: Job, revise: bool)
    requires Bounded(job) && StepEnabled(job, StageSucceeds(revise))
    ensures Bounded(Advance(job, StageSucceeds(revise)))
  {
    SuccessLoose(job, revise);
    SuccessBudget(job, revise);
    hide Loose, RunBudget, RepairBudget, Advance;
  }

  /** The stage whose run is closed, and nothing after it has run if it is an early one. */
  predicate MayFail(job: Job, k: nat)
    requires |job.steps| == STAGES
  {
    && job.state == Running && k < STAGES && job.steps[k].attempts > 0
    && (forall i :: 0 <= i < STAGES && i != k ==> job.steps[i].state != Executing)
    && job.steps[k].state != Pending && (forall i :: k < i < STAGES ==> job.steps[i].state != Done)
    && (k < BUILDER ==> forall i :: k < i < STAGES ==> job.steps[i].attempts == 0)
  }

  lemma FailureLoose(job: Job, k: nat, retryable: bool, now: int)
    requires Ordered(job) && MayFail(job, k)
    requires forall i :: 0 <= i < STAGES ==> job.steps[i].state != Broken
    ensures Loose(RecordFailure(job, k, retryable, now))
  {
    assert RecordFailure(job, k, retryable, now).steps[k].state == if job.steps[k].attempts < MAX_ATTEMPTS && retryable then Ready else Broken;
  }

  lemma FailureBudget(job: Job, k: nat, retryable: bool, now: int)
    requires Ordered(job) && RunBudget(job) && RepairBudget(job) && MayFail(job, k)
    requires k == BUILDER ==> StepBudget(job.(steps := job.steps[k := job.steps[k].(state := Done)]), AUDIT)
    ensures RunBudget(RecordFailure(job, k, retryable, now)) && RepairBudget(RecordFailure(job, k, retryable, now))
  {
    var after := RecordFailure(job, k, retryable, now);
    assert after.steps[k].state == if job.steps[k].attempts < MAX_ATTEMPTS && retryable then Ready else Broken;
    assert ReadsSound(after);
    hide ReadsSound;
    forall i | 0 <= i < STAGES
      ensures StepBudget(after, i)
    {
      assert StepBudget(job, i);
    }
  }

  /** recordFailure of a stage that runs or has just been recorded. */
  lemma FailureBounded(job: Job, k: nat, retryable: bool, now: int)
    requires Bounded(job) && job.state == Running && k < STAGES && (job.pc == InStage(k) || ((job.pc.Recorded? || job.pc == NeedsRepair) && k == Thrower(job)))
    ensures Bounded(RecordFailure(job, k, retryable, now))
  {
    assert StepBudget(job, k);
    assert MayFail(job, k);
    assert k == BUILDER ==> StepBudget(job, AUDIT);
    FailureLoose(job, k, retryable, now);
    FailureBudget(job, k, retryable, now);
    hide Loose, RunBudget, RepairBudget, RecordFailure;
  }

  /** The same after the statement that threw has written. */
  lemma WrittenFailureBounded(job: Job, written: bool, retryable: bool, at: int)
    requires Bounded(job) && StepEnabled(job, AfterRecordThrows(written, retryable, at))
    ensures Bounded(RecordFailure(Written(job, written), Thrower(job), retryable, at))
  {
    if !written || (job.pc.Recorded? && job.pc.read.None?) || (job.pc == NeedsRepair && job.steps[AUDIT].completed > MAX_REPAIRS) {
      FailureBounded(job, Thrower(job), retryable, at);
    } else if job.pc.Recorded? {
      RecordedMayPromote(job);
      PromotionBounded(job, job.pc.read.value);
      FailureBounded(Written(job, true), Thrower(job), retryable, at);
    } else {
      RepairedFailure(job, retryable, at);
    }
  }

  lemma RepairedFailure(job: Job, retryable: bool, at: int)
    requires Bounded(job) && job.state == Running && job.pc == NeedsRepair && job.steps[AUDIT].completed <= MAX_REPAIRS
    ensures Bounded(RecordFailure(ScheduleRepair(job), AUDIT, retryable, at))
  {
    assert StepBudget(job, AUDIT);
    RepairBounded(job);
    var mid := ScheduleRepair(job);
    hide ScheduleRepair;
    RepairedLoose(mid, retryable, at);
    RepairedBudget(mid, retryable, at);
    hide Loose, RunBudget, RepairBudget;
  }

  /** The steps as a repair leaves them. */
  predicate Repaired(mid: Job) {
    && Bounded(mid) && mid.state == Running && mid.pc == Top && mid.steps[AUDIT].attempts > 0
    && mid.steps[BUILDER].state == Ready && mid.steps[AUDIT].state == Pending
  }

  lemma RepairedLoose(mid: Job, retryable: bool, at: int)
    requires Repaired(mid)
    ensures Loose(RecordFailure(mid, AUDIT, retryable, at))
  {
    assert RecordFailure(mid, AUDIT, retryable, at).steps[AUDIT].state == if mid.steps[AUDIT].attempts < MAX_ATTEMPTS && retryable then Ready else Broken;
  }

  lemma RepairedBudget(mid: Job, retryable: bool, at: int)
    requires Repaired(mid)
    ensures RunBudget(RecordFailure(mid, AUDIT, retryable, at)) && RepairBudget(RecordFailure(mid, AUDIT, retryable, at))
  {
    var after := RecordFailure(mid, AUDIT, retryable, at);
    ReadsKept(mid, after);
    hide ReadsSound;
    forall i | 0 <= i < STAGES
      ensures StepBudget(after, i)
    {
      assert StepBudget(mid, i);
    }
  }

  predicate Unfinished(job: Job, k: nat, materializing: bool)
    requires |job.steps| == STAGES
  {
    && k < STAGES
    && if materializing then AllDone(job.steps) && k == BUILDER else k == AUDIT || job.steps[k].state != Done
  }

  lemma ApplicationLoose(job: Job, k: nat, materializing: bool)
    requires Loose(job) && job.state == Running && job.pc != Gone && !job.pc.InStage? && Unfinished(job, k, materializing)
    ensures Loose(RecordApplicationFailure(job, k, materializing))
  {
  }

  lemma ApplicationSteps(job: Job, k: nat, materializing: bool, i: nat)
    requires Bounded(job) && job.state == Running && job.pc != Gone && !job.pc.InStage? && Unfinished(job, k, materializing) && i < STAGES
    ensures StepBudget(RecordApplicationFailure(job, k, materializing), i)
  {
    assert StepBudget(job, i);
  }

  lemma ApplicationBudget(job: Job, k: nat, materializing: bool)
    requires Bounded(job) && job.state == Running && job.pc != Gone && !job.pc.InStage? && Unfinished(job, k, materializing)
    ensures RunBudget(RecordApplicationFailure(job, k, materializing)) && RepairBudget(RecordApplicationFailure(job, k, materializing))
  {
    ReadsKept(job, RecordApplicationFailure(job, k, materializing));
    forall i | 0 <= i < STAGES
      ensures StepBudget(RecordApplicationFailure(job, k, materializing), i)
    {
      ApplicationSteps(job, k, materializing, i);
    }
    hide ReadsSound, StepBudget;
  }

  lemma ApplicationBounded(job: Job, k: nat, materializing: bool)
    requires Bounded(job) && job.state == Running && job.pc != Gone && !job.pc.InStage? && Unfinished(job, k, materializing)
    ensures Bounded(RecordApplicationFailure(job, k, materializing))
  {
    ApplicationLoose(job, k, materializing);
    ApplicationBudget(job, k, materializing);
    hide Loose, RunBudget, RepairBudget, RecordApplicationFailure;
  }

  lemma RepairBounded(job: Job)
    requires Bounded(job) && job.state == Running && job.pc == NeedsRepair
    ensures Bounded(ScheduleRepair(job))
  {
    if job.steps[AUDIT].completed > MAX_REPAIRS {
      ApplicationBounded(job, AUDIT, false);
    } else {
      assert StepBudget(job, BUILDER) && StepBudget(job, AUDIT);
      forall i | 0 <= i < STAGES
        ensures StepBudget(ScheduleRepair(job), i)
      {
        assert StepBudget(job, i);
      }
    }
  }

  lemma ContinueBounded(job: Job)
    requires Bounded(job) && StepEnabled(job, PromoteDependents)
    ensures Bounded(Continue(job))
  {
    var promoted := job.(steps := Promote(job.steps, job.pc.read.value));
    RecordedMayPromote(job);
    PromotionBounded(job, job.pc.read.value);
    ContinueLoose(promoted, Continue(job).pc);
    PcBudget(promoted, Continue(job).pc);
    hide Loose, RunBudget, RepairBudget, Promote;
  }

  lemma ContinueLoose(job: Job, pc: Pc)
    requires Loose(job) && GoesOn(job, pc)
    ensures Loose(job.(pc := pc))
  {
  }

  lemma CancelBounded(job: Job)
    requires Bounded(job) && Enabled(job, CancelJob)
    ensures Bounded(Cancel(job))
  {
    ReadsKept(job, Cancel(job));
    hide ReadsSound;
    forall i | 0 <= i < STAGES
      ensures StepBudget(Cancel(job), i)
    {
      assert StepBudget(job, i);
    }
  }

  lemma RetryLoose(job: Job)
    requires Loose(job) && Enabled(job, RetryJob)
    ensures Loose(ManualRetry(job))
  {
    var k := FirstIn(job.steps, Broken, 0);
    assert k < STAGES ==> ManualRetry(job).steps[k].state == Ready;
  }

  lemma RetrySteps(job: Job, i: nat)
    requires Bounded(job) && Enabled(job, RetryJob) && i < STAGES
    ensures StepBudget(ManualRetry(job), i)
  {
    assert StepBudget(job, i);
  }

  lemma RetryBudget(job: Job)
    requires Bounded(job) && Enabled(job, RetryJob)
    ensures RunBudget(ManualRetry(job)) && RepairBudget(ManualRetry(job))
  {
    ReadsKept(job, ManualRetry(job));
    forall i | 0 <= i < STAGES
      ensures StepBudget(ManualRetry(job), i)
    {
      RetrySteps(job, i);
    }
    hide ReadsSound, StepBudget;
  }

  lemma RetryBounded(job: Job)
    requires Bounded(job) && Enabled(job, RetryJob)
    ensures Bounded(ManualRetry(job))
  {
    RetryLoose(job);
    RetryBudget(job);
    hide Loose, RunBudget, RepairBudget, ManualRetry;
  }

  lemma QuietBounded(job: Job, w: WorkerStep)
    requires Bounded(job) && StepEnabled(job, w)
    requires w.MaterializeSucceeds? || w.NothingToDo? || w.Crash? || w.Renew?
    ensures Bounded(Advance(job, w))
  {
    forall i | 0 <= i < STAGES
      ensures StepBudget(Advance(job, w), i)
    {
      assert StepBudget(job, i);
    }
  }

  lemma WorkBounded(job: Job, w: WorkerStep)
    requires Bounded(job) && StepEnabled(job, w)
    ensures Bounded(Advance(job, w))
  {
    match w
    case DeadlinePassed =>
      var k := FirstUnfinished(job.steps, 0);
      ApplicationBounded(job, if k == STAGES then AUDIT else k, false);
    case EvidenceFails => ApplicationBounded(job, FirstIn(job.steps, Ready, 0), false);
    case BeginStage => BeginBounded(job);
    case StageSucceeds(revise) => SuccessBounded(job, revise);
    case StageFails(retryable, at) => FailureBounded(job, job.pc.stage, retryable, at);
    case ReadDependents => ReadBounded(job);
    case PromoteDependents => ContinueBounded(job);
    case AfterRecordThrows(written, retryable, at) => WrittenFailureBounded(job, written, retryable, at);
    case RepairOrFail => RepairBounded(job);
    case MaterializeFails => ApplicationBounded(job, BUILDER, true);
    case _ => QuietBounded(job, w);
  }

  lemma ColumnBounded(job: Job, after: Job)
    requires Bounded(job) && after == job.(laneOwner := after.laneOwner, late := after.late) && ReadsSound(after)
    ensures Bounded(after)
  {
    forall i | 0 <= i < STAGES
      ensures StepBudget(after, i)
    {
      assert StepBudget(job, i);
    }
  }

  /** Nothing at all is asked of the environment here. */
  lemma ActionBounded(job: Job, a: Action)
    requires Bounded(job) && Enabled(job, a)
    ensures Bounded(Apply(job, a))
  {
    match a
    case ClaimJob(t, now, leaseMs) => ClaimBounded(job, t, now, leaseMs);
    case Work(w) => WorkBounded(job, w);
    case LateDependents(process) => WakeBounded(job, process);
    case CancelJob => CancelBounded(job);
    case RetryJob => RetryBounded(job);
    case DropLane => ColumnBounded(job, Apply(job, a));
    case TakeLane => ColumnBounded(job, Apply(job, a));
  }

  lemma {:induction false} RunBounded(job: Job, actions: seq<Action>)
    requires Bounded(job) && CanRun(job, actions)
    ensures Bounded(Run(job, actions))
    decreases |actions|
  {
    hide Bounded;
    if actions != [] {
      ActionBounded(job, actions[0]);
      RunBounded(Apply(job, actions[0]), actions[1..]);
    }
  }

  // ----- every granted action keeps the order of the steps -----

  predicate InOrder(job: Job) {
    Shape(job) && RowAgrees(job)
  }

  lemma ClaimShape(job: Job, token: nat, now: int, leaseMs: int)
    requires InOrder(job) && Enabled(job, ClaimJob(token, now, leaseMs))
    ensures InOrder(Claim(job, token, now, leaseMs))
  {
  }

  /** Only the first unfinished step can wait and have its predecessor done. */
  lemma PromotionShape(job: Job, k: nat)
    requires InOrder(job) && (k < STAGES && job.steps[k].state == Pending ==> Supported(job.steps, k))
    ensures InOrder(job.(steps := Promote(job.steps, k)))
  {
    if k < STAGES && job.steps[k].state == Pending {
      forall i | 0 <= i < k
        ensures job.steps[i].state == Done
      {
        assert job.steps[k - 1].state == Done;
      }
    }
  }

  lemma WakeShape(job: Job, process: nat)
    requires InOrder(job) && process < |job.late| && !Stale(job, process)
    ensures InOrder(Wake(job, process))
  {
    if job.late[process].Some? {
      PromotionShape(job, job.late[process].value);
      hide Promote;
    }
  }

  lemma BeginShape(job: Job)
    requires InOrder(job) && StepEnabled(job, BeginStage)
    ensures InOrder(Advance(job, BeginStage))
  {
  }

  lemma SuccessShape(job: Job, revise: bool)
    requires InOrder(job) && StepEnabled(job, StageSucceeds(revise))
    ensures InOrder(Advance(job, StageSucceeds(revise)))
  {
  }

  lemma FailureShape(job: Job, k: nat, retryable: bool, now: int)
    requires InOrder(job) && job.state == Running && k < STAGES
    requires job.steps[k].state == Executing || job.steps[k].state == Done
    requires forall i :: k < i < STAGES ==> job.steps[i].state == Pending
    requires job.pc == InStage(k) || ((job.pc.Recorded? || job.pc == NeedsRepair) && k == Thrower(job))
    ensures InOrder(RecordFailure(job, k, retryable, now))
  {
    assert RecordFailure(job, k, retryable, now).steps[k].state == if job.steps[k].attempts < MAX_ATTEMPTS && retryable then Ready else Broken;
  }

  /** A throw that has written nothing leaves the row as recordFailure makes it. */
  lemma ThrowShape(job: Job, written: bool, retryable: bool, at: int)
    requires InOrder(job) && StepEnabled(job, AfterRecordThrows(written, retryable, at))
    requires Granted(job, Work(AfterRecordThrows(written, retryable, at)))
    ensures InOrder(Advance(job, AfterRecordThrows(written, retryable, at)))
  {
    UnwrittenJob(job, written);
    hide RecordFailure, Written, Wrote, Shape;
    LaterWait(job);
    FailureShape(job, Thrower(job), retryable, at);
  }

  lemma LaterWait(job: Job)
    requires InOrder(job) && (job.pc.Recorded? || job.pc == NeedsRepair)
    requires job.pc.Recorded? && job.pc.stage + 1 < STAGES ==> job.steps[job.pc.stage + 1].state != Ready
    ensures Thrower(job) < STAGES && job.steps[Thrower(job)].state == Done
    ensures forall i :: Thrower(job) < i < STAGES ==> job.steps[i].state == Pending
  {
  }

  lemma UnwrittenJob(job: Job, written: bool)
    requires |job.steps| == STAGES && (job.pc.Recorded? || job.pc == NeedsRepair) && !Wrote(job, written)
    ensures Written(job, written) == job
  {
    assert job.steps[BUILDER].reopened != job.steps[BUILDER].reopened + 1;
  }

  lemma ApplicationShape(job: Job, k: nat, materializing: bool)
    requires InOrder(job) && job.state == Running && Unfinished(job, k, materializing)
    requires forall i :: 0 <= i < k ==> job.steps[i].state == Done
    ensures InOrder(RecordApplicationFailure(job, k, materializing))
  {
  }

  lemma RepairShape(job: Job)
    requires InOrder(job) && StepEnabled(job, RepairOrFail)
    ensures InOrder(ScheduleRepair(job))
  {
    if job.steps[AUDIT].completed > MAX_REPAIRS {
      ApplicationShape(job, AUDIT, false);
    }
  }

  lemma ContinueShape(job: Job)
    requires InOrder(job) && StepEnabled(job, PromoteDependents)
    requires job.pc.read.value == job.pc.stage + 1 || job.pc.read.value == STAGES
    ensures InOrder(Continue(job))
  {
    PromotionShape(job, job.pc.read.value);
  }

  lemma CancelShape(job: Job)
    requires InOrder(job) && Enabled(job, CancelJob)
    ensures InOrder(Cancel(job))
  {
  }

  lemma RetryShape(job: Job)
    requires InOrder(job) && Enabled(job, RetryJob)
    ensures InOrder(ManualRetry(job))
  {
    var k := FirstIn(job.steps, Broken, 0);
    assert k < STAGES ==> ManualRetry(job).steps[k].state == Ready;
  }

  lemma WorkShape(job: Job, w: WorkerStep)
    requires Loose(job) && InOrder(job) && StepEnabled(job, w) && Granted(job, Work(w))
    ensures InOrder(Advance(job, w))
  {
    match w
    case DeadlinePassed =>
      var k := FirstUnfinished(job.steps, 0);
      ApplicationShape(job, if k == STAGES then AUDIT else k, false);
    case EvidenceFails => ApplicationShape(job, FirstIn(job.steps, Ready, 0), false);
    case BeginStage => BeginShape(job);
    case StageSucceeds(revise) => SuccessShape(job, revise);
    case StageFails(retryable, at) => FailureShape(job, job.pc.stage, retryable, at);
    case PromoteDependents => ContinueShape(job);
    case AfterRecordThrows(written, retryable, at) => ThrowShape(job, written, retryable, at);
    case RepairOrFail => RepairShape(job);
    case MaterializeFails => ApplicationShape(job, BUILDER, true);
    case _ => QuietShape(job, w);
  }

  lemma QuietShape(job: Job, w: WorkerStep)
    requires InOrder(job) && StepEnabled(job, w)
    requires w.ReadDependents? || w.MaterializeSucceeds? || w.NothingToDo? || w.Crash? || w.Renew?
    ensures InOrder(Advance(job, w))
  {
  }

  lemma WorkKeeps(job: Job, w: WorkerStep)
    requires Inv(job) && StepEnabled(job, w) && Granted(job, Work(w))
    ensures Inv(Advance(job, w))
  {
    WorkBounded(job, w);
    WorkShape(job, w);
    hide Bounded, Shape, RowAgrees, Advance;
  }

  lemma ActionShape(job: Job, a: Action)
    requires Loose(job) && InOrder(job) && Enabled(job, a) && Granted(job, a)
    ensures InOrder(Apply(job, a))
  {
    match a
    case ClaimJob(t, now, leaseMs) => ClaimShape(job, t, now, leaseMs);
    case Work(w) => WorkShape(job, w);
    case LateDependents(process) => WakeShape(job, process);
    case CancelJob => CancelShape(job);
    case RetryJob => RetryShape(job);
    case DropLane =>
    case TakeLane =>
  }

  lemma ActionKeeps(job: Job, a: Action)
    requires Inv(job) && Enabled(job, a) && Granted(job, a)
    ensures Inv(Apply(job, a))
  {
    ActionBounded(job, a);
    ActionShape(job, a);
    hide Bounded, Shape, RowAgrees, Apply;
  }

  lemma {:induction false} RunKeeps(job: Job, actions: seq<Action>)
    requires Inv(job) && CanRun(job, actions) && GrantedRun(job, actions)
    ensures Inv(Run(job, actions))
    decreases |actions|
  {
    hide Inv;
    if actions != [] {
      ActionKeeps(job, actions[0]);
      RunKeeps(Apply(job, actions[0]), actions[1..]);
    }
  }
}
