/** The review status page over whole runs of a review: which snapshots are
    accepted, and what the current stage and the announced retry mean. */
module ReviewStatusProofs {
  import opened Common
  import opened ReviewStatus
  import Ordering
  import Text
  import R = ReviewChain
  import RP = ReviewChainProofs
  import RT = ReviewChainTheorems

  const ROLES: seq<string> := ["context-mapper", "critical-review", "candidate-builder", "candidate-audit"]

  /** A review and the latest run of each of its steps. */
  datatype Review = Review(job: R.Job, runs: seq<Option<Run>>)

  /** `failureClass` and `flag` are what a provider's failure says of itself. */
  datatype Action = Action(step: R.Action, failureClass: FailureClass, flag: bool)

  function Mark(run: Option<Run>, c: FailureClass, retryable: bool): Option<Run> {
    if run.None? then None else Some(run.value.(failureClass := Some(c), retryable := Some(retryable)))
  }

  function RunsAfter(v: Review, a: Action): seq<Option<Run>>
    requires R.Enabled(v.job, a.step) && |v.job.steps| == |v.runs| == R.STAGES
  {
    match a.step
    case Work(BeginStage) =>
      var k := R.FirstIn(v.job.steps, R.Ready, 0);
      v.runs[k := Some(Run(v.job.steps[k].attempts + 1, None, None))]
    case Work(StageFails(retryable, _)) =>
      var k := v.job.pc.stage;
      v.runs[k := Mark(v.runs[k], a.failureClass, retryable || a.flag)]
    case Work(AfterRecordThrows(_, retryable, _)) =>
      var k := R.Thrower(v.job);
      v.runs[k := Mark(v.runs[k], if retryable then ProviderTransient else a.failureClass, retryable)]
    case ClaimJob(_, _, _) =>
      seq(|v.runs|, i requires 0 <= i < |v.runs| =>
        if v.job.state == R.Running && v.job.steps[i].state == R.Executing then Mark(v.runs[i], Application, false) else v.runs[i])
    case _ => v.runs
  }

  predicate Enabled(v: Review, a: Action) {
    R.Enabled(v.job, a.step) && |v.job.steps| == |v.runs| == R.STAGES
  }

  function Apply(v: Review, a: Action): Review
    requires Enabled(v, a)
  {
    Review(R.Apply(v.job, a.step), RunsAfter(v, a))
  }

  predicate CanRun(v: Review, actions: seq<Action>)
    decreases |actions|
  {
    actions == [] || (Enabled(v, actions[0]) && CanRun(Apply(v, actions[0]), actions[1..]))
  }

  function After(v: Review, actions: seq<Action>): Review
    requires CanRun(v, actions)
    decreases |actions|
  {
    if actions == [] then v else After(Apply(v, actions[0]), actions[1..])
  }

  predicate GrantedRun(v: Review, actions: seq<Action>)
    requires CanRun(v, actions)
    decreases |actions|
  {
    actions == [] || (RP.Granted(v.job, actions[0].step) && GrantedRun(Apply(v, actions[0]), actions[1..]))
  }

  function NewReview(): Review {
    Review(R.NewJob(), [None, None, None, None])
  }

  // ----- what every run keeps -----

  predicate RunAgrees(step: R.Step, run: Option<Run>) {
    if step.attempts == 0 then run.None? else run.Some? && run.value.attempt == step.attempts
  }

  predicate RowOk(job: R.Job) {
    && (job.laneOwner ==> job.state == R.Queued || job.state == R.Running)
    && (job.retryNotBefore.Some? ==> job.state == R.Queued)
  }

  predicate Basic(v: Review) {
    && |v.job.steps| == |v.runs| == R.STAGES && RowOk(v.job)
    && forall i :: 0 <= i < R.STAGES ==> RunAgrees(v.job.steps[i], v.runs[i])
  }

  predicate SameAttempts(job: R.Job, job': R.Job) {
    |job.steps| == |job'.steps| == R.STAGES
    && forall i :: 0 <= i < R.STAGES ==> job'.steps[i].attempts == job.steps[i].attempts
  }

  /** A row that still counts its own runs. */
  predicate RowKept(job: R.Job, job': R.Job) {
    SameAttempts(job, job') && RowOk(job')
  }

  lemma FailureKept(job: R.Job, k: nat, materializing: bool)
    requires |job.steps| == R.STAGES && k < R.STAGES
    ensures RowKept(job, R.RecordApplicationFailure(job, k, materializing))
  {
  }

  lemma StageFailureKept(job: R.Job, k: nat, retryable: bool, now: int)
    requires |job.steps| == R.STAGES && k < R.STAGES && RowOk(job) && job.state == R.Running
    ensures RowKept(job, R.RecordFailure(job, k, retryable, now))
  {
  }

  lemma WrittenKept(job: R.Job, written: bool)
    requires |job.steps| == R.STAGES && RowOk(job) && job.state == R.Running
    ensures RowKept(job, R.Written(job, written)) && R.Written(job, written).state == R.Running
  {
    hide R.RecordApplicationFailure;
  }

  lemma WorkKept(job: R.Job, w: R.WorkerStep)
    requires R.StepEnabled(job, w) && RowOk(job)
    ensures w.BeginStage? || RowKept(job, R.Advance(job, w))
  {
    match w
    case DeadlinePassed =>
      var k := R.FirstUnfinished(job.steps, 0);
      FailureKept(job, if k == R.STAGES then R.STAGES - 1 else k, false);
      hide *;
    case EvidenceFails =>
      FailureKept(job, R.FirstIn(job.steps, R.Ready, 0), false);
      hide R.RecordApplicationFailure, R.RecordFailure;
    case MaterializeFails =>
      FailureKept(job, R.BUILDER, true);
      hide R.RecordApplicationFailure, R.RecordFailure;
    case RepairOrFail =>
      FailureKept(job, R.AUDIT, false);
      hide R.RecordApplicationFailure, R.RecordFailure;
    case StageFails(retryable, at) =>
      StageFailureKept(job, job.pc.stage, retryable, at);
      hide R.RecordApplicationFailure, R.RecordFailure;
    case AfterRecordThrows(written, retryable, at) =>
      WrittenKept(job, written);
      StageFailureKept(R.Written(job, written), R.Thrower(job), retryable, at);
      hide R.RecordApplicationFailure, R.RecordFailure, R.Written;
    case _ =>
      hide R.RecordApplicationFailure, R.RecordFailure;
  }

  lemma OtherKept(job: R.Job, a: R.Action)
    requires R.Enabled(job, a) && |job.steps| == R.STAGES && RowOk(job) && !a.Work?
    ensures RowKept(job, R.Apply(job, a))
  {
  }

  lemma BeginKept(v: Review, a: Action)
    requires Basic(v) && Enabled(v, a) && a.step == R.Work(R.BeginStage)
    ensures Basic(Apply(v, a))
  {
  }

  /** No other step changes which runs there are. */
  lemma RunsMarked(v: Review, a: Action)
    requires Enabled(v, a) && a.step != R.Work(R.BeginStage)
    ensures |RunsAfter(v, a)| == R.STAGES
    ensures forall i :: 0 <= i < R.STAGES ==>
      && (RunsAfter(v, a)[i].None? <==> v.runs[i].None?)
      && (v.runs[i].Some? ==> RunsAfter(v, a)[i].value.attempt == v.runs[i].value.attempt)
  {
  }

  lemma RunsKept(v: Review, a: Action)
    requires Basic(v) && Enabled(v, a) && a.step != R.Work(R.BeginStage) && RowKept(v.job, R.Apply(v.job, a.step))
    ensures Basic(Apply(v, a))
  {
    RunsMarked(v, a);
    hide R.Apply, RowOk, R.Enabled, RunsAfter;
    var w := Apply(v, a);
    forall i | 0 <= i < R.STAGES
      ensures RunAgrees(w.job.steps[i], w.runs[i])
    {
      assert RunAgrees(v.job.steps[i], v.runs[i]);
    }
  }

  lemma BasicKept(v: Review, a: Action)
    requires Basic(v) && Enabled(v, a)
    ensures Basic(Apply(v, a))
  {
    hide Basic, R.Advance, R.StepEnabled, RowKept, RunsAfter;
    if a.step == R.Work(R.BeginStage) {
      BeginKept(v, a);
    } else {
      RowOf(v);
      if a.step.Work? {
        WorkKept(v.job, a.step.step);
      } else {
        OtherKept(v.job, a.step);
      }
      RunsKept(v, a);
    }
  }

  lemma RowOf(v: Review)
    requires Basic(v)
    ensures RowOk(v.job)
  {
  }

  lemma {:induction false} BasicRun(v: Review, actions: seq<Action>)
    requires Basic(v) && CanRun(v, actions)
    ensures Basic(After(v, actions))
    decreases |actions|
  {
    hide Basic, Apply, Enabled;
    if actions != [] {
      BasicKept(v, actions[0]);
      BasicRun(Apply(v, actions[0]), actions[1..]);
    }
  }

  // ----- a retry that is due -----

  /** A scheduled retry waits in the first unfinished step, whose latest run says so. */
  predicate Waits(v: Review)
    requires |v.job.steps| == |v.runs| == R.STAGES
  {
    v.job.retryNotBefore.Some? ==>
      var k := R.FirstUnfinished(v.job.steps, 0);
      && k < R.STAGES && v.job.steps[k].state == R.Ready
      && v.runs[k].Some? && v.runs[k].value.retryable == Some(true) && v.runs[k].value.failureClass.Some?
  }

  lemma FirstIsOpen(job: R.Job, k: nat)
    requires RP.Inv(job) && k < R.STAGES && (job.steps[k].state == R.Ready || job.steps[k].state == R.Executing || job.steps[k].state == R.Broken)
    ensures R.FirstUnfinished(job.steps, 0) == k
  {
    hide RP.Bounded, RP.RowAgrees;
    var j := R.FirstUnfinished(job.steps, 0);
    assert j <= k;
  }

  /** The stage whose run this step closes, and whether the failure may be retried. */
  predicate Closes(job: R.Job, a: R.Action, k: nat) {
    && |job.steps| == R.STAGES && k < R.STAGES && a.Work?
    && ((a.step.StageFails? && job.pc.InStage? && k == job.pc.stage && R.RetriesAutomatically(job.steps[k].attempts, a.step.retryable))
        || (a.step.AfterRecordThrows? && k == R.Thrower(job) && R.RetriesAutomatically(job.steps[k].attempts, a.step.retryable)))
  }

  /** Only a failing stage, or standing still, leaves a retry time. */
  lemma RetrySource(job: R.Job, a: R.Action) returns (k: nat)
    requires RP.Inv(job) && RowOk(job) && R.Enabled(job, a) && RP.Granted(job, a) && R.Apply(job, a).retryNotBefore.Some?
    ensures Closes(job, a, k) || (job.retryNotBefore.Some? && (a.TakeLane? || a.LateDependents?))
  {
    hide RP.Loose, RP.RowAgrees, RP.RunBudget, RP.RepairBudget, RP.OpenShape, RP.DroppedShape;
    k := if a.Work? && a.step.StageFails? then job.pc.stage else if job.pc.Recorded? then job.pc.stage else R.AUDIT;
    if a.Work? && a.step.AfterRecordThrows? {
      RP.UnwrittenJob(job, a.step.written);
      hide R.Written;
    }
  }

  lemma LateChangesNothing(job: R.Job, process: nat)
    requires RP.Inv(job) && job.state == R.Queued && process < |job.late| && !RP.Stale(job, process)
    requires R.FirstUnfinished(job.steps, 0) < R.STAGES && job.steps[R.FirstUnfinished(job.steps, 0)].state == R.Ready
    ensures R.Wake(job, process).steps == job.steps
  {
    hide RP.Bounded, RP.RowAgrees;
    var k := R.FirstUnfinished(job.steps, 0);
    assert job.steps[k].state != R.Done;
  }

  /** Such a failure leaves the stage READY. */
  lemma ClosedStage(job: R.Job, a: R.Action, k: nat)
    requires RP.Inv(job) && R.Enabled(job, a) && RP.Granted(job, a) && Closes(job, a, k)
    ensures |R.Apply(job, a).steps| == R.STAGES && R.Apply(job, a).steps[k].state == R.Ready && job.steps[k].attempts > 0
  {
    assert RP.StepBudget(job, k);
    if a.step.AfterRecordThrows? {
      RP.UnwrittenJob(job, a.step.written);
      hide R.Written;
    }
  }

  lemma RunSaysSo(v: Review, a: Action, k: nat)
    requires Basic(v) && Enabled(v, a) && Closes(v.job, a.step, k) && v.job.steps[k].attempts > 0
    ensures var run := RunsAfter(v, a)[k];
      run.Some? && run.value.retryable == Some(true) && run.value.failureClass.Some?
  {
    assert RunAgrees(v.job.steps[k], v.runs[k]);
  }

  lemma RetryWaits(v: Review, a: Action, k: nat)
    requires Basic(v) && RP.Inv(v.job) && Enabled(v, a) && RP.Granted(v.job, a.step) && Closes(v.job, a.step, k)
    requires RP.Inv(R.Apply(v.job, a.step))
    ensures |RunsAfter(v, a)| == R.STAGES && Waits(Apply(v, a))
  {
    RunsMarked(v, a);
    ClosedStage(v.job, a.step, k);
    RunSaysSo(v, a, k);
    hide R.Apply, RP.Inv, Basic, RunsAfter, Closes, R.Enabled;
    FirstIsOpen(Apply(v, a).job, k);
  }

  lemma WaitsKept(v: Review, a: Action)
    requires Basic(v) && Waits(v) && RP.Inv(v.job) && Enabled(v, a) && RP.Granted(v.job, a.step)
    ensures Basic(Apply(v, a)) && RP.Inv(Apply(v, a).job) && Waits(Apply(v, a))
  {
    BasicKept(v, a);
    RP.ActionKeeps(v.job, a.step);
    if R.Apply(v.job, a.step).retryNotBefore.Some? {
      var k := RetrySource(v.job, a.step);
      if a.step.Work? {
        RetryWaits(v, a, k);
      } else if a.step.LateDependents? {
        LateChangesNothing(v.job, a.step.process);
        hide RP.Inv;
      }
    }
    hide *;
  }

  // ----- the page -----

  function Rows(v: Review): (rows: seq<Row>)
    requires |v.job.steps| == |v.runs| == R.STAGES
    ensures |rows| == R.STAGES
    ensures forall i :: 0 <= i < R.STAGES ==>
      rows[i] == Row(i + 1, ROLES[i], v.job.steps[i].state, if v.runs[i].None? then [] else [v.runs[i].value])
  {
    seq(R.STAGES, i requires 0 <= i < R.STAGES =>
      Row(i + 1, ROLES[i], v.job.steps[i].state, if v.runs[i].None? then [] else [v.runs[i].value]))
  }

  /** The record read for a review: its steps in any order, with any failure columns. */
  predicate Reads(r: Record, v: Review)
    requires |v.job.steps| == |v.runs| == R.STAGES
  {
    && r.state == v.job.state && r.laneOwner == v.job.laneOwner && r.retryNotBefore == v.job.retryNotBefore
    && multiset(r.steps) == multiset(Rows(v))
    && (r.failureRole.Some? ==> r.failureRole.value in ROLES)
  }

  lemma InOrder(r: Record, v: Review)
    requires |v.job.steps| == |v.runs| == R.STAGES && Reads(r, v)
    ensures ByOrdinal(r.steps) == Rows(v)
  {
    var less := (a: Row, b: Row) => a.ordinal < b.ordinal;
    var rows := Rows(v);
    Ordering.SortKeeps(less, r.steps);
    Ordering.SortSorts(less, r.steps);
    Ordering.SortedIsUnique(less, rows, Ordering.Sort(less, r.steps));
  }

  lemma RolesAreCodes()
    ensures forall i :: 0 <= i < |ROLES| ==> CodeOk(ROLES[i])
  {
  }

  lemma FourOrdinals(stages: seq<StageView>)
    requires |stages| == 4 && forall i :: 0 <= i < 4 ==> stages[i].ordinal == i + 1
    ensures |set i | 0 <= i < |stages| :: stages[i].ordinal| == 4
  {
    var ordinals := set i | 0 <= i < |stages| :: stages[i].ordinal;
    assert stages[0].ordinal in ordinals && stages[1].ordinal in ordinals && stages[2].ordinal in ordinals && stages[3].ordinal in ordinals;
    assert ordinals == {1, 2, 3, 4};
  }

  lemma {:induction false} CountLimit(stages: seq<StageView>)
    ensures CountDone(stages) <= |stages|
  {
    if stages != [] {
      CountLimit(stages[..|stages| - 1]);
    }
  }

  lemma RulesHold(r: Record, v: Review)
    requires Basic(v) && Reads(r, v)
    ensures Refined(Project(r)) && Project(r).totalStages == 4
  {
    InOrder(r, v);
    FourOrdinals(ViewOf(Rows(v)));
  }

  lemma RangesHold(r: Record, v: Review)
    requires Basic(v) && Reads(r, v)
    ensures var s := Project(r);
      InRange(s) <==> && (s.current.Some? && s.current.value.attempt.Some? ==> AttemptOk(s.current.value.attempt.value))
                      && (s.retry.Some? ==> AttemptOk(s.retry.value.attempt))
  {
    InOrder(r, v);
    RolesAreCodes();
    CountLimit(ViewOf(Rows(v)));
    hide Basic, Text.IsSlug, CountDone;
  }
}
