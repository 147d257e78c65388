/** One review job and its chain of four stages (apps/review-worker/src/review.ts):
    what the worker, a cancellation and a manual retry do to the job row, its
    steps and its stage runs.  Provider answers are arbitrary. */
module ReviewChain {
  import opened Common

  const STAGES: nat := 4
  const BUILDER: nat := 2
  const AUDIT: nat := 3
  const MAX_ATTEMPTS: nat := 3
  const MAX_REPAIRS: nat := 1
  const RETRY_DELAYS: seq<int> := [5_000, 30_000]

  datatype StepState = Pending | Ready | Executing | Done | Broken | Dropped

  /** A row of `review_steps`.  `attempts` is the number of its runs, numbered
      from 1; `completed` counts the runs that carry an output hash.  `reopened`
      is a history variable: how often the step was opened again other than by an
      automatic retry. */
  datatype Step = Step(state: StepState, attempts: nat, completed: nat, reopened: nat)

  datatype JobState = Queued | Running | Succeeded | Failed | Cancelled

  /** Where the process that holds the claim stands. */
  datatype Pc =
    | Gone                         // returned, crashed, or nobody has claimed yet
    | Top                          // head of the endless loop
    | InStage(stage: nat)
    | Recorded(stage: nat, revise: bool, read: Option<nat>)   // recordSuccess committed; what readyDependents has read, if anything
    | NeedsRepair

  datatype Job = Job(
    state: JobState, claimToken: Option<nat>, lease: Option<int>, retryNotBefore: Option<int>,
    laneOwner: bool, fence: nat, steps: seq<Step>, pc: Pc,
    lost: nat, retried: nat, repairs: nat,      // history variables
    late: seq<Option<nat>>)                     // what each process that lost its claim in readyDependents has read

  // ----- finding steps -----

  /** The first step in state `st` from `from` on, else the number of steps. */
  function FirstIn(steps: seq<Step>, st: StepState, from: nat): (k: nat)
    requires from <= |steps|
    ensures from <= k <= |steps|
    ensures k < |steps| ==> steps[k].state == st
    ensures forall i :: from <= i < k ==> steps[i].state != st
    decreases |steps| - from
  {
    if from == |steps| || steps[from].state == st then from else FirstIn(steps, st, from + 1)
  }

  function FirstUnfinished(steps: seq<Step>, from: nat): (k: nat)
    requires from <= |steps|
    ensures from <= k <= |steps|
    ensures k < |steps| ==> steps[k].state != Done
    ensures forall i :: from <= i < k ==> steps[i].state == Done
    decreases |steps| - from
  {
    if from == |steps| || steps[from].state != Done then from else FirstUnfinished(steps, from + 1)
  }

  predicate AllDone(steps: seq<Step>) {
    forall i :: 0 <= i < |steps| ==> steps[i].state == Done
  }

  // ----- the transactions -----

  /** `queueReview` creates the row; stage 1 is READY, the others wait. */
  function NewJob(): Job {
    Job(Queued, None, None, None, false, 0,
        [Step(Ready, 0, 0, 0), Step(Pending, 0, 0, 0), Step(Pending, 0, 0, 0), Step(Pending, 0, 0, 0)],
        Gone, 0, 0, 0, [])
  }

  /** A lapsed claim: the interrupted stage becomes READY again. */
  function Reopen(steps: seq<Step>): (r: seq<Step>)
    ensures |r| == |steps|
    ensures forall i :: 0 <= i < |r| ==>
      r[i] == if steps[i].state == Executing
              then steps[i].(state := Ready, reopened := steps[i].reopened + 1) else steps[i]
  {
    seq(|steps|, i requires 0 <= i < |steps| =>
      if steps[i].state == Executing then steps[i].(state := Ready, reopened := steps[i].reopened + 1) else steps[i])
  }

  /** A process that loses its claim after recordSuccess still finishes readyDependents. */
  function LateAfter(job: Job): seq<Option<nat>> {
    if job.pc.Recorded? then job.late + [job.pc.read] else job.late
  }

  function Claim(job: Job, token: nat, now: int, leaseMs: int): Job {
    var interrupted := job.state == Running;
    job.(state := Running, claimToken := Some(token), lease := Some(now + leaseMs), retryNotBefore := None,
         laneOwner := true, pc := Top, late := LateAfter(job),
         steps := if interrupted then Reopen(job.steps) else job.steps,
         lost := if interrupted && exists i :: 0 <= i < |job.steps| && job.steps[i].state == Executing
                 then job.lost + 1 else job.lost)
  }

  /** What the stage depends on, which is the stage before it, has succeeded. */
  predicate Supported(steps: seq<Step>, k: nat)
    requires k < |steps|
  {
    k == 0 || steps[k - 1].state == Done
  }

  /** The read of readyDependents: the waiting step that may start, else the number of
      steps.  Every dependency is the preceding stage, so there is one at most. */
  function NextWaiting(steps: seq<Step>, from: nat): (k: nat)
    requires from <= |steps|
    ensures from <= k <= |steps|
    ensures k < |steps| ==> steps[k].state == Pending && Supported(steps, k)
    ensures forall i :: from <= i < k ==> !(steps[i].state == Pending && Supported(steps, i))
    decreases |steps| - from
  {
    if from == |steps| || (steps[from].state == Pending && Supported(steps, from)) then from else NextWaiting(steps, from + 1)
  }

  /** Its update, which asks only that the step still waits. */
  function Promote(steps: seq<Step>, k: nat): (r: seq<Step>)
    ensures |r| == |steps|
  {
    if k < |steps| && steps[k].state == Pending then steps[k := steps[k].(state := Ready)] else steps
  }

  function SetStep(job: Job, k: nat, step: Step): Job
    requires k < |job.steps|
  {
    job.(steps := job.steps[k := step])
  }

  function StartStage(job: Job, k: nat): Job
    requires k < |job.steps|
  {
    SetStep(job, k, job.steps[k].(state := Executing, attempts := job.steps[k].attempts + 1)).(pc := InStage(k))
  }

  /** recordSuccess; `revise` is the verdict of the audit gate. */
  function RecordSuccess(job: Job, k: nat, revise: bool): Job
    requires k < |job.steps|
  {
    if job.steps[k].state != Executing then job.(pc := Recorded(k, k == AUDIT && revise, None))
    else SetStep(job, k, job.steps[k].(state := Done, completed := job.steps[k].completed + 1)).(
           pc := Recorded(k, k == AUDIT && revise, None))
  }

  /** The loop goes on after recordSuccess and readyDependents. */
  function Continue(job: Job): Job
    requires job.pc.Recorded? && job.pc.read.Some?
  {
    job.(steps := Promote(job.steps, job.pc.read.value), pc := if job.pc.revise then NeedsRepair else Top)
  }

  function Fail(job: Job): Job {
    job.(state := Failed, retryNotBefore := None, laneOwner := false, claimToken := None, lease := None, pc := Gone)
  }

  predicate RetriesAutomatically(attempt: nat, retryable: bool) {
    retryable && attempt < MAX_ATTEMPTS
  }

  /** retryDelayMs: an attempt number picks its delay, if there is one. */
  function RetryDelay(attempt: nat): Option<int> {
    if 1 <= attempt <= |RETRY_DELAYS| then Some(RETRY_DELAYS[attempt - 1]) else None
  }

  /** recordFailure. */
  function RecordFailure(job: Job, k: nat, retryable: bool, now: int): Job
    requires k < |job.steps|
  {
    var attempt := job.steps[k].attempts;
    if RetriesAutomatically(attempt, retryable) then
      var delay := RetryDelay(attempt);
      SetStep(job, k, job.steps[k].(state := Ready)).(
        state := Queued, claimToken := None, lease := None, pc := Gone,
        retryNotBefore := Some(now + if delay.Some? then delay.value else 0))
    else Fail(SetStep(job, k, job.steps[k].(state := Broken)))
  }

  /** recordApplicationFailure; `materializing` is the phase MATERIALIZE_PROPOSAL. */
  function RecordApplicationFailure(job: Job, k: nat, materializing: bool): (r: Job)
    requires k < |job.steps|
    ensures |r.steps| == |job.steps|
  {
    var steps := if materializing
      then seq(|job.steps|, i requires 0 <= i < |job.steps| =>
             if i > k && job.steps[i].state != Dropped then job.steps[i].(state := Pending) else job.steps[i])
      else job.steps;
    var st := steps[k].state;
    Fail(job.(steps := if st == Ready || st == Executing || st == Done
                       then steps[k := steps[k].(state := Broken)] else steps))
  }

  /** scheduleCandidateRepair, or the application failure when the bounded repair is used up. */
  function ScheduleRepair(job: Job): Job
    requires |job.steps| == STAGES
  {
    if job.steps[AUDIT].completed > MAX_REPAIRS then RecordApplicationFailure(job, AUDIT, false)
    else
      var builder := job.steps[BUILDER];
      var audit := job.steps[AUDIT];
      job.(steps := job.steps[BUILDER := builder.(state := Ready, reopened := builder.reopened + 1)]
                             [AUDIT := audit.(state := Pending, reopened := audit.reopened + 1)],
           repairs := job.repairs + 1, pc := Top)
  }

  /** The last statement of materializeProposal. */
  function Complete(job: Job): Job {
    job.(state := Succeeded, laneOwner := false, retryNotBefore := None, claimToken := None, lease := None, pc := Gone)
  }

  /** cancelReview, and forceCheckInSituation for each review of the checkout. */
  function Cancel(job: Job): (r: Job)
    ensures |r.steps| == |job.steps|
  {
    job.(state := Cancelled, fence := job.fence + 1, laneOwner := false, claimToken := None, lease := None,
         retryNotBefore := None, pc := Gone, late := LateAfter(job),
         steps := seq(|job.steps|, i requires 0 <= i < |job.steps| =>
                    if job.steps[i].state == Done then job.steps[i] else job.steps[i].(state := Dropped)))
  }

  /** retryReview.  The failed step is opened again; a builder retry also opens an
      audit that has already run. */
  function ManualRetry(job: Job): (r: Job)
    ensures |r.steps| == |job.steps|
  {
    var k := FirstIn(job.steps, Broken, 0);
    if job.state != Failed || k == |job.steps| then job
    else
      job.(state := Queued, claimToken := None, lease := None, retryNotBefore := None, laneOwner := true,
           retried := job.retried + 1,
           steps := seq(|job.steps|, i requires 0 <= i < |job.steps| =>
                      if i == k then job.steps[i].(state := Ready, reopened := job.steps[i].reopened + 1)
                      else if i > k && job.steps[i].state != Done
                      then job.steps[i].(state := Pending,
                                         reopened := if job.steps[i].attempts > 0 then job.steps[i].reopened + 1
                                                     else job.steps[i].reopened)
                      else job.steps[i]))
  }

  /** A late process reads the steps, and later writes what it has read; a reading of no
      step at all is a process that has finished. */
  function Wake(job: Job, process: nat): Job
    requires process < |job.late|
  {
    match job.late[process]
    case None => job.(late := job.late[process := Some(NextWaiting(job.steps, 0))])
    case Some(k) => job.(steps := Promote(job.steps, k), late := job.late[process := Some(|job.steps|)])
  }

  // ----- the steps of the process that holds the claim -----

  /** AfterRecordThrows: the end of recordSuccess, readyDependents or
      scheduleCandidateRepair throws.  `written` says whether the write it was at had
      happened all the same, as when only the reply of its COMMIT is lost; `retryable`
      whether the stage timer had run out by then. */
  datatype WorkerStep =
    | DeadlinePassed
    | EvidenceFails
    | BeginStage
    | StageSucceeds(revise: bool)
    | StageFails(retryable: bool, failedAt: int)
    | ReadDependents
    | PromoteDependents
    | AfterRecordThrows(written: bool, retryable: bool, at: int)
    | RepairOrFail
    | MaterializeFails
    | MaterializeSucceeds
    | NothingToDo
    | Crash
    | Renew(lease: int)

  /** The stage whose run recordFailure closes. */
  function Thrower(job: Job): nat {
    if job.pc.Recorded? then job.pc.stage else AUDIT
  }

  /** What the statement that threw has left. */
  function Written(job: Job, written: bool): (r: Job)
    requires |job.steps| == STAGES
    ensures |r.steps| == STAGES
  {
    if !written then job
    else if job.pc.Recorded? then if job.pc.read.None? then job else job.(steps := Promote(job.steps, job.pc.read.value))
    else if job.steps[AUDIT].completed > MAX_REPAIRS then job
    else ScheduleRepair(job)
  }

  predicate StepEnabled(job: Job, w: WorkerStep)
  {
    && |job.steps| == STAGES && job.state == Running && job.claimToken.Some?
    && match w
       case DeadlinePassed => job.pc == Top
       case EvidenceFails => job.pc == Top && FirstIn(job.steps, Ready, 0) < STAGES
       case BeginStage => job.pc == Top && FirstIn(job.steps, Ready, 0) < STAGES
       case StageSucceeds(_) => job.pc.InStage? && job.pc.stage < STAGES
       case StageFails(_, _) => job.pc.InStage? && job.pc.stage < STAGES
       case ReadDependents => job.pc.Recorded? && job.pc.read.None?
       case PromoteDependents => job.pc.Recorded? && job.pc.read.Some?
       case AfterRecordThrows(_, _, _) => (job.pc.Recorded? && job.pc.stage < STAGES) || job.pc == NeedsRepair
       case RepairOrFail => job.pc == NeedsRepair
       case MaterializeFails => job.pc == Top && AllDone(job.steps)
       case MaterializeSucceeds => job.pc == Top && AllDone(job.steps)
       case NothingToDo => job.pc == Top && FirstIn(job.steps, Ready, 0) == STAGES && !AllDone(job.steps)
       case Crash => job.pc != Gone
       case Renew(_) => job.pc != Gone
  }

  function Advance(job: Job, w: WorkerStep): Job
    requires StepEnabled(job, w)
  {
    match w
    case DeadlinePassed =>
      var k := FirstUnfinished(job.steps, 0);
      RecordApplicationFailure(job, if k == STAGES then STAGES - 1 else k, false)
    case EvidenceFails => RecordApplicationFailure(job, FirstIn(job.steps, Ready, 0), false)
    case BeginStage => StartStage(job, FirstIn(job.steps, Ready, 0))
    case StageSucceeds(revise) => RecordSuccess(job, job.pc.stage, revise)
    case StageFails(retryable, at) => RecordFailure(job, job.pc.stage, retryable, at)
    case ReadDependents => job.(pc := job.pc.(read := Some(NextWaiting(job.steps, 0))))
    case PromoteDependents => Continue(job)
    case AfterRecordThrows(written, retryable, at) => RecordFailure(Written(job, written), Thrower(job), retryable, at)
    case RepairOrFail => ScheduleRepair(job)
    case MaterializeFails => RecordApplicationFailure(job, BUILDER, true)
    case MaterializeSucceeds => Complete(job)
    case NothingToDo => job.(pc := Gone)
    case Crash => job.(pc := Gone)
    case Renew(lease) => job.(lease := Some(lease))
  }

  // ----- everything that can happen to one job -----

  datatype Action =
    | ClaimJob(token: nat, now: int, leaseMs: int)
    | Work(step: WorkerStep)
    | LateDependents(process: nat) // a process that lost its claim goes on in readyDependents
    | CancelJob
    | RetryJob
    | DropLane                     // check-in
    | TakeLane                     // chosen by claimNextReview, though a retry time may still hold it back

  predicate Enabled(job: Job, a: Action) {
    match a
    case ClaimJob(_, _, leaseMs) => job.state == Queued || job.state == Running
    case Work(w) => StepEnabled(job, w)
    case LateDependents(process) => process < |job.late|
    case CancelJob => job.state == Queued || job.state == Running || job.state == Failed
    case RetryJob => job.state == Failed
    case DropLane => job.state != Queued && job.state != Running
    case TakeLane => job.state == Queued
  }

  function Apply(job: Job, a: Action): Job
    requires Enabled(job, a)
  {
    match a
    case ClaimJob(t, now, leaseMs) => Claim(job, t, now, leaseMs)
    case Work(w) => Advance(job, w)
    case LateDependents(process) => Wake(job, process)
    case CancelJob => Cancel(job)
    case RetryJob => ManualRetry(job)
    case DropLane => job.(laneOwner := false)
    case TakeLane => job.(laneOwner := true)
  }

  predicate CanRun(job: Job, actions: seq<Action>)
    decreases |actions|
  {
    actions == [] || (Enabled(job, actions[0]) && CanRun(Apply(job, actions[0]), actions[1..]))
  }

  function Run(job: Job, actions: seq<Action>): Job
    requires CanRun(job, actions)
    decreases |actions|
  {
    if actions == [] then job else Run(Apply(job, actions[0]), actions[1..])
  }

  /** All stage runs ever created for the job. */
  function TotalRuns(steps: seq<Step>): nat {
    if steps == [] then 0 else steps[0].attempts + TotalRuns(steps[1..])
  }
}
