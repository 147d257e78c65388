/** The review worker's transactions as they run on the rows of one job: the job
    row and its steps are updated in place, under the claim token.  Every method
    is tied to the function of ReviewChain that specifies it. */
module ReviewWorkerStore {
  import opened Common
  import C = ReviewChain
  import V = ReviewChainProofs

  /** reviewStages: the stages that must have succeeded before this one. */
  function Dependencies(stage: nat): seq<nat> {
    if stage == 0 then [] else [stage - 1]
  }

  lemma StageRuns(job: C.Job, k: nat)
    requires V.Bounded(job) && job.pc == C.InStage(k)
    ensures |job.steps| == C.STAGES && k < C.STAGES && job.steps[k].state == C.Executing
    ensures job.state == C.Running && job.claimToken.Some?
  {
  }

  /** The process is in the try block of stage `k`, or past its recordSuccess. */
  predicate InTry(job: C.Job, k: nat) {
    job.pc == C.InStage(k) || ((job.pc.Recorded? || job.pc == C.NeedsRepair) && k == C.Thrower(job))
  }

  lemma RunCounted(job: C.Job, k: nat)
    requires V.Bounded(job) && InTry(job, k)
    ensures |job.steps| == C.STAGES && k < |job.steps| && job.steps[k].attempts > 0 && job.state == C.Running
  {
    assert V.StepBudget(job, k);
  }

  lemma FirstRepair(job: C.Job)
    requires V.Bounded(job) && job.pc == C.NeedsRepair
    ensures |job.steps| == C.STAGES && (job.steps[C.AUDIT].completed <= C.MAX_REPAIRS ==> job.repairs == 0)
  {
  }

  lemma AtTop(job: C.Job)
    requires V.Bounded(job) && job.pc == C.Top
    ensures |job.steps| == C.STAGES && job.state == C.Running && job.claimToken.Some?
    ensures C.FirstIn(job.steps, C.Ready, 0) < C.STAGES ==> C.FirstIn(job.steps, C.Ready, 0) == C.FirstUnfinished(job.steps, 0)
  {
  }

  lemma OneWaits(job: C.Job)
    requires V.Bounded(job)
    ensures |job.steps| == C.STAGES
    ensures forall i :: 0 <= i < C.STAGES && job.steps[i].state == C.Pending && C.Supported(job.steps, i) ==> i == C.NextWaiting(job.steps, 0)
  {
    hide V.RunBudget, V.RepairBudget;
  }

  class ReviewJob {
    var state: C.JobState
    var claimToken: Option<nat>
    var lease: Option<int>
    var retryNotBefore: Option<int>
    var laneOwner: bool
    var fence: nat
    var steps: seq<C.Step>
    // the process that holds the claim, and the history of the job
    var pc: C.Pc
    ghost var lost: nat
    ghost var retried: nat
    ghost var repairs: nat
    ghost var late: seq<Option<nat>>

    ghost function View(): C.Job
      reads this
    {
      C.Job(state, claimToken, lease, retryNotBefore, laneOwner, fence, steps, pc, lost, retried, repairs, late)
    }

    ghost predicate Valid()
      reads this
    {
      V.Bounded(View())
    }

    /** readyDependents reads all steps once and picks those that may start: there is
        one at most. */
    method ReadDependents() returns (waiting: seq<nat>)
      requires Valid() && C.StepEnabled(View(), C.ReadDependents)
      modifies this`pc
      ensures Valid() && View() == C.Advance(old(View()), C.ReadDependents)
      ensures waiting == if pc.read.value < |steps| then [pc.read.value] else []
    {
      hide V.Bounded;
      V.ReadBounded(View());
      OneWaits(View());
      ghost var next := C.NextWaiting(steps, 0);
      var succeeded: set<nat> := {};
      for i := 0 to |steps|
        invariant steps == old(steps) && pc == old(pc)
        invariant succeeded == set j: nat | j < i && steps[j].state == C.Done
      {
        if steps[i].state == C.Done {
          succeeded := succeeded + {i};
        }
      }
      waiting := [];
      for i := 0 to |steps|
        invariant steps == old(steps) && pc == old(pc)
        invariant waiting == if next < i then [next] else []
      {
        var waitsFor := Dependencies(i);
        assert i > 0 ==> waitsFor == [i - 1] && i - 1 in waitsFor;
        if steps[i].state == C.Pending && forall d :: d in waitsFor ==> d in succeeded {
          assert C.Supported(steps, i);
          waiting := waiting + [i];
        }
      }
      pc := pc.(read := Some(if waiting == [] then |steps| else waiting[0]));
    }

    /** Its update, a statement of its own, asks only that the step still waits. */
    method PromoteDependents()
      requires Valid() && C.StepEnabled(View(), C.PromoteDependents)
      modifies this
      ensures Valid() && View() == C.Advance(old(View()), C.PromoteDependents)
    {
      hide V.Bounded;
      V.ContinueBounded(View());
      var k := pc.read.value;
      if k < |steps| && steps[k].state == C.Pending {
        steps := steps[k := steps[k].(state := C.Ready)];
      }
      pc := if pc.revise then C.NeedsRepair else C.Top;
    }

    /** recordSuccess: nothing happens unless the claim is still held and the step runs. */
    method RecordSuccess(k: nat, token: nat, held: nat, revise: bool) returns (committed: bool)
      requires Valid() && pc == C.InStage(k) && claimToken == Some(held)
      modifies this
      ensures token == held ==> committed && Valid() && View() == C.RecordSuccess(old(View()), k, revise)
      ensures token != held ==> !committed && View() == old(View())
    {
      if claimToken != Some(token) {
        return false;
      }
      hide V.Bounded;
      StageRuns(View(), k);
      V.SuccessBounded(View(), revise);
      steps := steps[k := steps[k].(state := C.Done, completed := steps[k].completed + 1)];
      pc := C.Recorded(k, k == C.AUDIT && revise, None);
      return true;
    }

    /** recordFailure, from the catch block of the stage. */
    method RecordFailure(k: nat, retryable: bool, now: int)
      requires Valid() && InTry(View(), k)
      modifies this
      ensures Valid() && View() == C.RecordFailure(old(View()), k, retryable, now)
      ensures laneOwner <==> old(laneOwner) && retryable && old(steps)[k].attempts < C.MAX_ATTEMPTS
      ensures claimToken.None?
    {
      hide V.Bounded;
      RunCounted(View(), k);
      V.FailureBounded(View(), k, retryable, now);
      var attempt := steps[k].attempts;
      claimToken, lease, pc := None, None, C.Gone;
      if retryable && attempt < C.MAX_ATTEMPTS {
        steps := steps[k := steps[k].(state := C.Ready)];
        retryNotBefore := Some(now + C.RETRY_DELAYS[attempt - 1]);
        state := C.Queued;
        return;
      }
      steps := steps[k := steps[k].(state := C.Broken)];
      state, retryNotBefore, laneOwner := C.Failed, None, false;
    }

    /** The phase MATERIALIZE_PROPOSAL takes the later stages back. */
    method TakeBackAfter(k: nat)
      requires k < |steps|
      modifies this`steps
      ensures |steps| == |old(steps)|
      ensures forall j :: 0 <= j < |steps| ==>
        steps[j] == if j > k && old(steps)[j].state != C.Dropped then old(steps)[j].(state := C.Pending) else old(steps)[j]
    {
      for i := k + 1 to |steps|
        invariant |steps| == |old(steps)|
        invariant forall j :: 0 <= j < |steps| ==>
          steps[j] == if k < j < i && old(steps)[j].state != C.Dropped
                      then old(steps)[j].(state := C.Pending) else old(steps)[j]
      {
        if steps[i].state != C.Dropped {
          steps := steps[i := steps[i].(state := C.Pending)];
        }
      }
    }

    /** recordApplicationFailure. */
    method RecordApplicationFailure(k: nat, materializing: bool)
      requires k < |steps|
      modifies this
      ensures View() == C.RecordApplicationFailure(old(View()), k, materializing)
    {
      if materializing {
        TakeBackAfter(k);
      }
      if steps[k].state == C.Ready || steps[k].state == C.Executing || steps[k].state == C.Done {
        steps := steps[k := steps[k].(state := C.Broken)];
      }
      state, retryNotBefore, laneOwner, claimToken, lease, pc := C.Failed, None, false, None, None, C.Gone;
      ghost var specified := C.RecordApplicationFailure(old(View()), k, materializing);
      assert steps == specified.steps;
      assert View() == specified;
    }

    /** scheduleCandidateRepair. */
    method ScheduleCandidateRepair() returns (scheduled: bool)
      requires Valid() && C.StepEnabled(View(), C.RepairOrFail)
      modifies this
      ensures scheduled ==> Valid() && View() == C.ScheduleRepair(old(View())) && old(repairs) == 0
      ensures !scheduled ==> View() == old(View()) && steps[C.AUDIT].completed > C.MAX_REPAIRS
    {
      hide V.Bounded;
      V.RepairBounded(View());
      FirstRepair(View());
      if steps[C.AUDIT].completed > C.MAX_REPAIRS {
        return false;
      }
      steps := steps[C.BUILDER := steps[C.BUILDER].(state := C.Ready, reopened := steps[C.BUILDER].reopened + 1)];
      steps := steps[C.AUDIT := steps[C.AUDIT].(state := C.Pending, reopened := steps[C.AUDIT].reopened + 1)];
      pc := C.Top;
      repairs := repairs + 1;
      return true;
    }

    /** No step is READY: the proposal is materialised, or the process returns. */
    method NothingReady(materializes: bool)
      requires |steps| == C.STAGES
      modifies this
      ensures View() == var job := old(View());
        if !C.AllDone(job.steps) then job.(pc := C.Gone)
        else if materializes then C.Complete(job) else C.RecordApplicationFailure(job, C.BUILDER, true)
    {
      if C.FirstUnfinished(steps, 0) < |steps| {
        pc := C.Gone;
      } else if materializes {
        state, laneOwner, retryNotBefore, claimToken, lease, pc := C.Succeeded, false, None, None, None, C.Gone;
      } else {
        RecordApplicationFailure(C.BUILDER, true);
      }
    }

    /** One pass of the endless loop of processClaimedReview up to the next stage
        run: `timeLeft` is what remains of the total deadline, `evidence` says
        whether buildEvidence succeeds, `materializes` whether materializeProposal does. */
    method Pass(timeLeft: int, evidence: bool, materializes: bool) returns (stage: Option<nat>)
      requires Valid() && pc == C.Top
      modifies this
      ensures Valid()
      ensures View() == C.Advance(old(View()), PassStep(old(View()), timeLeft, evidence, materializes))
      ensures stage.Some? <==> pc.InStage?
      ensures stage.Some? ==> stage.value < |steps| && steps[stage.value].state == C.Executing
                              && forall i :: 0 <= i < stage.value ==> steps[i].state == C.Done
    {
      hide V.Bounded;
      AtTop(View());
      V.WorkBounded(View(), PassStep(View(), timeLeft, evidence, materializes));
      var k := C.FirstIn(steps, C.Ready, 0);
      if timeLeft <= 0 {
        var late := C.FirstUnfinished(steps, 0);
        RecordApplicationFailure(if late == |steps| then |steps| - 1 else late, false);
        return None;
      }
      if k == |steps| {
        NothingReady(materializes);
        return None;
      }
      if !evidence {
        RecordApplicationFailure(k, false);
        return None;
      }
      steps := steps[k := steps[k].(state := C.Executing, attempts := steps[k].attempts + 1)];
      pc := C.InStage(k);
      return Some(k);
    }
  }

  /** Which protocol step one pass of the loop takes. */
  function PassStep(job: C.Job, timeLeft: int, evidence: bool, materializes: bool): C.WorkerStep
    requires |job.steps| == C.STAGES
  {
    if timeLeft <= 0 then C.DeadlinePassed
    else if C.FirstIn(job.steps, C.Ready, 0) < C.STAGES then
      if evidence then C.BeginStage else C.EvidenceFails
    else if !C.AllDone(job.steps) then C.NothingToDo
    else if materializes then C.MaterializeSucceeds else C.MaterializeFails
  }
}
