/** How a review ends when nothing disturbs it, from every state a granted run can reach. */
module ReviewOutcomes {
  import opened Common
  import opened ReviewChain
  import opened ReviewChainProofs
  import T = ReviewChainTheorems

  // ----- the steps a process takes -----

  /** A stage is run, succeeds, and lets the next one start. */
  const ROUND: seq<Action> := [Work(BeginStage), Work(StageSucceeds(false)), Work(ReadDependents), Work(PromoteDependents)]

  /** The stages from `k` on, one run each, and the proposal. */
  function Rounds(k: nat): seq<Action>
    decreases STAGES - k
  {
    if k >= STAGES then [Work(MaterializeSucceeds)] else ROUND + Rounds(k + 1)
  }

  /** `job'` is `job` finished: the stages from `k` on have one run more. */
  predicate Finished(job: Job, k: nat, job': Job) {
    && |job.steps| == |job'.steps| == STAGES && AllDone(job'.steps)
    && job'.state == Succeeded && !job'.laneOwner && job'.claimToken.None? && job'.retryNotBefore.None?
    && job'.repairs == job.repairs && job'.retried == job.retried && job'.fence == job.fence
    && forall i :: 0 <= i < STAGES ==> job'.steps[i].attempts == job.steps[i].attempts + if i < k then 0 else 1
  }

  lemma {:induction false} Joined(job: Job, first: seq<Action>, more: seq<Action>)
    requires CanRun(job, first) && GrantedRun(job, first) && CanRun(Run(job, first), more) && GrantedRun(Run(job, first), more)
    ensures CanRun(job, first + more) && GrantedRun(job, first + more) && Run(job, first + more) == Run(Run(job, first), more)
    decreases |first|
  {
    hide Apply, Enabled, Granted;
    if first == [] {
      assert first + more == more;
    } else {
      Joined(Apply(job, first[0]), first[1..], more);
      assert (first + more)[1..] == first[1..] + more;
    }
  }

  lemma One(job: Job, a: Action)
    requires Enabled(job, a) && Granted(job, a)
    ensures CanRun(job, [a]) && GrantedRun(job, [a]) && Run(job, [a]) == Apply(job, a)
  {
    hide Apply, Enabled, Granted;
    assert [a][1..] == [];
    assert CanRun(Apply(job, a), []) && Run(Apply(job, a), []) == Apply(job, a);
  }

  lemma Then(job: Job, first: seq<Action>, mid: Job, a: Action) returns (more: seq<Action>, after: Job)
    requires CanRun(job, first) && GrantedRun(job, first) && Run(job, first) == mid && Enabled(mid, a) && Granted(mid, a)
    ensures more == first + [a] && after == Apply(mid, a)
    ensures CanRun(job, more) && GrantedRun(job, more) && Run(job, more) == after
  {
    hide Apply, Enabled, Granted;
    One(mid, a);
    Joined(job, first, [a]);
    more, after := first + [a], Apply(mid, a);
  }

  /** A stage that is started and succeeds, up to its dependents. */
  lemma StageEnds(job: Job, k: nat, revise: bool)
    requires T.Held(job) && k < STAGES && T.Facing(job, k) && (revise ==> k == AUDIT)
    ensures StepEnabled(job, BeginStage) && StepEnabled(Advance(job, BeginStage), StageSucceeds(revise))
    ensures var j := Advance(Advance(job, BeginStage), StageSucceeds(revise));
      && j == job.(pc := Recorded(k, revise, None), steps := job.steps[k := job.steps[k].(
           state := Done, attempts := job.steps[k].attempts + 1, completed := job.steps[k].completed + 1)])
      && StepEnabled(j, ReadDependents) && StepEnabled(Advance(j, ReadDependents), PromoteDependents)
  {
    T.Begun(job, k);
    hide FirstIn, NextWaiting;
  }

  lemma NextStarts(job: Job, j: Job, k: nat, revise: bool)
    requires T.Held(job) && k < STAGES && T.Facing(job, k) && (revise ==> k == AUDIT)
    requires j == job.(pc := Recorded(k, revise, None), steps := job.steps[k := job.steps[k].(
               state := Done, attempts := job.steps[k].attempts + 1, completed := job.steps[k].completed + 1)])
    requires StepEnabled(j, ReadDependents) && StepEnabled(Advance(j, ReadDependents), PromoteDependents)
    ensures var after := Advance(Advance(j, ReadDependents), PromoteDependents);
      && after.state == Running && after.claimToken.Some? && after.pc == (if revise then NeedsRepair else Top)
      && T.Facing(after, k + 1) && SameRow(job, after)
      && forall i :: 0 <= i < STAGES ==>
           && after.steps[i].attempts == job.steps[i].attempts + (if i == k then 1 else 0)
           && after.steps[i].completed == job.steps[i].completed + (if i == k then 1 else 0)
           && (i < k ==> after.steps[i] == job.steps[i])
  {
    assert NextWaiting(j.steps, 0) == k + 1 by {
      assert k + 1 < STAGES ==> j.steps[k + 1].state == Pending && Supported(j.steps, k + 1);
    }
    hide NextWaiting;
  }

  predicate SameRow(job: Job, after: Job) {
    && |after.steps| == |job.steps| == STAGES
    && after.repairs == job.repairs && after.retried == job.retried && after.fence == job.fence
  }

  /** The four steps of a round, with either verdict. */
  lemma FourActions(job: Job, k: nat, revise: bool) returns (after: Job)
    requires T.Held(job) && k < STAGES && T.Facing(job, k) && (revise ==> k == AUDIT)
    ensures var round := [Work(BeginStage), Work(StageSucceeds(revise)), Work(ReadDependents), Work(PromoteDependents)];
      CanRun(job, round) && GrantedRun(job, round) && Run(job, round) == after
    ensures after.state == Running && after.claimToken.Some? && after.pc == (if revise then NeedsRepair else Top)
    ensures T.Facing(after, k + 1) && SameRow(job, after)
    ensures forall i :: 0 <= i < STAGES ==>
      && after.steps[i].attempts == job.steps[i].attempts + (if i == k then 1 else 0)
      && after.steps[i].completed == job.steps[i].completed + (if i == k then 1 else 0)
      && (i < k ==> after.steps[i] == job.steps[i])
  {
    hide CanRun, GrantedRun, Run, Advance, StepEnabled, T.Held, T.Facing, SameRow;
    StageEnds(job, k, revise);
    RunNothing(job);
    var a, j := Then(job, [], job, Work(BeginStage));
    a, j := Then(job, a, j, Work(StageSucceeds(revise)));
    NextStarts(job, j, k, revise);
    a, j := Then(job, a, j, Work(ReadDependents));
    a, after := Then(job, a, j, Work(PromoteDependents));
    assert a == [Work(BeginStage), Work(StageSucceeds(revise)), Work(ReadDependents), Work(PromoteDependents)];
  }

  /** One round: the stage is done, and the loop faces the next. */
  lemma RoundRuns(job: Job, k: nat)
    requires T.Held(job) && k < STAGES && T.Facing(job, k)
    ensures CanRun(job, ROUND) && GrantedRun(job, ROUND)
    ensures T.Held(Run(job, ROUND)) && T.Facing(Run(job, ROUND), k + 1) && SameRow(job, Run(job, ROUND))
    ensures forall i :: 0 <= i < STAGES ==> Run(job, ROUND).steps[i].attempts == job.steps[i].attempts + if i == k then 1 else 0
  {
    hide CanRun, GrantedRun, Run, T.Facing;
    var after := FourActions(job, k, false);
  }

  lemma RunNothing(job: Job)
    ensures CanRun(job, []) && GrantedRun(job, []) && Run(job, []) == job
  {
  }

  lemma {:induction false} RoundsRun(job: Job, k: nat)
    requires T.Held(job) && k <= STAGES && T.Facing(job, k)
    ensures CanRun(job, Rounds(k)) && GrantedRun(job, Rounds(k)) && Finished(job, k, Run(job, Rounds(k)))
    decreases STAGES - k
  {
    if k == STAGES {
      One(job, Work(MaterializeSucceeds));
    } else {
      RoundRuns(job, k);
      hide CanRun, GrantedRun, Run, Granted;
      RoundsRun(Run(job, ROUND), k + 1);
      Joined(job, ROUND, Rounds(k + 1));
    }
  }

  // ----- a claim -----

  /** The claim leaves the loop in front of the first unfinished step. */
  lemma ClaimFaces(job: Job, token: nat, now: int, leaseMs: int)
    requires Inv(job) && (job.state == Queued || job.state == Running)
    ensures var k := FirstUnfinished(job.steps, 0); var claimed := Claim(job, token, now, leaseMs);
      && T.Held(claimed) && Granted(job, ClaimJob(token, now, leaseMs))
      && |claimed.steps| == |job.steps| == STAGES
      && (forall i :: 0 <= i < STAGES ==> claimed.steps[i].attempts == job.steps[i].attempts)
      && claimed.repairs == job.repairs && claimed.retried == job.retried && claimed.fence == job.fence
      && (k < STAGES && job.steps[k].state == Pending ==> NoneReady(claimed))
      && (k == STAGES || job.steps[k].state != Pending ==> T.Facing(claimed, k))
  {
    hide RunBudget, RepairBudget;
  }

  predicate NoneReady(job: Job) {
    |job.steps| == STAGES && !AllDone(job.steps) && forall i :: 0 <= i < STAGES ==> job.steps[i].state != Ready
  }

  /** Whatever has happened in a granted run: a waiting or abandoned review is claimed and,
      undisturbed, ends SUCCEEDED with one more run of every unfinished stage and none of
      the others, exactly when its first unfinished stage is not PENDING. */
  lemma ClaimedSucceeds(history: seq<Action>, token: nat, now: int, leaseMs: int) returns (more: seq<Action>)
    requires CanRun(NewJob(), history) && GrantedRun(NewJob(), history)
    requires Run(NewJob(), history).state == Queued || Run(NewJob(), history).state == Running
    ensures var job := Run(NewJob(), history); var k := FirstUnfinished(job.steps, 0);
      && more == [ClaimJob(token, now, leaseMs)] + Rounds(k)
      && |job.steps| == STAGES
      && (CanRun(job, more) <==> k == STAGES || job.steps[k].state != Pending)
      && (CanRun(job, more) ==> GrantedRun(job, more) && Finished(job, k, Run(job, more)))
  {
    var job := Run(NewJob(), history);
    assert Inv(job) by {
      T.NewJobOk();
      RunKeeps(NewJob(), history);
    }
    hide *;
    more := ClaimThenRounds(job, token, now, leaseMs);
    StepCount(job);
  }

  lemma StepCount(job: Job)
    requires Inv(job)
    ensures |job.steps| == STAGES && 0 <= FirstUnfinished(job.steps, 0) <= STAGES
  {
    hide RunBudget, RepairBudget;
  }

  lemma ClaimThenRounds(job: Job, token: nat, now: int, leaseMs: int) returns (more: seq<Action>)
    requires Inv(job) && (job.state == Queued || job.state == Running)
    ensures |job.steps| == STAGES
    ensures var k := FirstUnfinished(job.steps, 0);
      && more == [ClaimJob(token, now, leaseMs)] + Rounds(k)
      && (CanRun(job, more) <==> k == STAGES || job.steps[k].state != Pending)
      && (CanRun(job, more) ==> GrantedRun(job, more) && Finished(job, k, Run(job, more)))
  {
    StepCount(job);
    var k := FirstUnfinished(job.steps, 0);
    var claim := ClaimJob(token, now, leaseMs);
    more := [claim] + Rounds(k);
    var claimed := Claim(job, token, now, leaseMs);
    assert Enabled(job, claim) && Apply(job, claim) == claimed;
    hide *;
    ClaimFaces(job, token, now, leaseMs);
    if k == STAGES || job.steps[k].state != Pending {
      RoundsRun(claimed, k);
      FinishedToo(job, claimed, k, Run(claimed, Rounds(k)));
      One(job, claim);
      Joined(job, [claim], Rounds(k));
    } else {
      Stuck(job, claim, claimed, k);
    }
  }

  lemma Stuck(job: Job, claim: Action, claimed: Job, k: nat)
    requires Enabled(job, claim) && Apply(job, claim) == claimed && NoneReady(claimed) && k < STAGES
    ensures !CanRun(job, [claim] + Rounds(k))
  {
    var more := [claim] + Rounds(k);
    assert more[0] == claim && more[1..] == Rounds(k);
    assert Rounds(k)[0] == Work(BeginStage);
    assert !StepEnabled(claimed, BeginStage);
    hide Apply, NoneReady, Rounds;
  }

  /** A failed review whose failed stage is recorded is opened again by a retry, and
      then ends SUCCEEDED without a further run of what had succeeded before. */
  lemma RetriedSucceeds(history: seq<Action>, token: nat, now: int, leaseMs: int) returns (more: seq<Action>)
    requires CanRun(NewJob(), history) && GrantedRun(NewJob(), history) && Run(NewJob(), history).state == Failed
    requires var job := Run(NewJob(), history); FirstIn(job.steps, Broken, 0) < |job.steps|
    ensures var job := Run(NewJob(), history); var k := FirstUnfinished(job.steps, 0);
      && more == [RetryJob, ClaimJob(token, now, leaseMs)] + Rounds(k)
      && CanRun(job, more) && GrantedRun(job, more) && Finished(job.(retried := job.retried + 1), k, Run(job, more))
  {
    var job := Run(NewJob(), history);
    assert Inv(job) by {
      T.NewJobOk();
      RunKeeps(NewJob(), history);
    }
    hide *;
    more := RetryThenRounds(job, token, now, leaseMs);
  }

  lemma RetryIs(job: Job)
    requires job.state == Failed
    ensures Enabled(job, RetryJob) && Granted(job, RetryJob) && Apply(job, RetryJob) == ManualRetry(job)
  {
  }

  lemma RetryThenRounds(job: Job, token: nat, now: int, leaseMs: int) returns (more: seq<Action>)
    requires Inv(job) && job.state == Failed && FirstIn(job.steps, Broken, 0) < |job.steps|
    ensures var k := FirstUnfinished(job.steps, 0);
      && more == [RetryJob, ClaimJob(token, now, leaseMs)] + Rounds(k)
      && CanRun(job, more) && GrantedRun(job, more) && Finished(job.(retried := job.retried + 1), k, Run(job, more))
  {
    var retried := ManualRetry(job);
    hide *;
    RetryIs(job);
    RetryFaces(job);
    var k := FirstUnfinished(job.steps, 0);
    ActionKeeps(job, RetryJob);
    var later := ClaimThenRounds(retried, token, now, leaseMs);
    One(job, RetryJob);
    Joined(job, [RetryJob], later);
    more := [RetryJob] + later;
    assert more == [RetryJob, ClaimJob(token, now, leaseMs)] + Rounds(k);
    FinishedToo(job.(retried := job.retried + 1), retried, k, Run(job, more));
  }

  lemma RetryFaces(job: Job)
    requires Inv(job) && job.state == Failed && FirstIn(job.steps, Broken, 0) < |job.steps|
    ensures var retried := ManualRetry(job); var k := FirstUnfinished(job.steps, 0);
      && |retried.steps| == |job.steps| == STAGES && retried.state == Queued
      && FirstUnfinished(retried.steps, 0) == k && k < STAGES && retried.steps[k].state != Pending
      && retried.repairs == job.repairs && retried.retried == job.retried + 1 && retried.fence == job.fence
      && forall i :: 0 <= i < STAGES ==> retried.steps[i].attempts == job.steps[i].attempts
  {
    hide RunBudget, RepairBudget;
    var k := FirstUnfinished(job.steps, 0);
    assert FirstIn(job.steps, Broken, 0) == k;
    var retried := ManualRetry(job);
    assert retried.steps[k].state == Ready && forall i :: 0 <= i < k ==> retried.steps[i].state == Done;
    var r := FirstUnfinished(retried.steps, 0);
    assert !(r < k) && !(k < r);
  }

  // ----- an audit that asks for a revision -----

  /** The audit runs, asks for a revision, and the process does what that asks for. */
  const REVISION: seq<Action> :=
    [Work(BeginStage), Work(StageSucceeds(true)), Work(ReadDependents), Work(PromoteDependents), Work(RepairOrFail)]

  /** The first audit that asks for a revision sends the review back to the builder; a
      later one fails it, with the audit as the failed stage. */
  lemma RevisionExact(job: Job)
    requires T.Held(job) && T.Facing(job, AUDIT)
    ensures CanRun(job, REVISION) && GrantedRun(job, REVISION)
    ensures var after := Run(job, REVISION);
      if job.steps[AUDIT].completed == 0
      then T.Held(after) && T.Facing(after, BUILDER) && after.repairs == job.repairs + 1
           && forall i :: 0 <= i < STAGES ==> after.steps[i].attempts == job.steps[i].attempts + if i == AUDIT then 1 else 0
      else after.state == Failed && after.claimToken.None? && !after.laneOwner && |after.steps| == STAGES
           && after.steps[AUDIT].state == Broken && after.repairs == job.repairs
           && forall i :: 0 <= i < AUDIT ==> after.steps[i] == job.steps[i]
  {
    hide CanRun, GrantedRun, Run, T.Facing;
    var audited := FourActions(job, AUDIT, true);
    var round := [Work(BeginStage), Work(StageSucceeds(true)), Work(ReadDependents), Work(PromoteDependents)];
    AllFaced(audited);
    RepairEnds(job, audited);
    var a, j := Then(job, round, audited, Work(RepairOrFail));
    assert a == REVISION;
  }

  lemma AllFaced(job: Job)
    requires T.Facing(job, STAGES) && job.state == Running && job.claimToken.Some? && job.pc == NeedsRepair
    ensures |job.steps| == STAGES && StepEnabled(job, RepairOrFail) && Granted(job, Work(RepairOrFail))
  {
  }

  lemma RepairEnds(job: Job, audited: Job)
    requires SameRow(job, audited) && T.Facing(audited, STAGES) && audited.state == Running
    requires audited.claimToken.Some? && audited.pc == NeedsRepair
    requires forall i :: 0 <= i < AUDIT ==> audited.steps[i] == job.steps[i]
    requires audited.steps[AUDIT].attempts == job.steps[AUDIT].attempts + 1 && audited.steps[AUDIT].completed == job.steps[AUDIT].completed + 1
    ensures StepEnabled(audited, RepairOrFail)
    ensures var after := Advance(audited, RepairOrFail);
      if job.steps[AUDIT].completed == 0
      then T.Held(after) && T.Facing(after, BUILDER) && after.repairs == job.repairs + 1
           && forall i :: 0 <= i < STAGES ==> after.steps[i].attempts == job.steps[i].attempts + if i == AUDIT then 1 else 0
      else after.state == Failed && after.claimToken.None? && !after.laneOwner && |after.steps| == STAGES
           && after.steps[AUDIT].state == Broken && after.repairs == job.repairs
           && forall i :: 0 <= i < AUDIT ==> after.steps[i] == job.steps[i]
  {
  }

  lemma FinishedToo(job: Job, claimed: Job, k: nat, job': Job)
    requires |job.steps| == |claimed.steps| == STAGES && forall i :: 0 <= i < STAGES ==> claimed.steps[i].attempts == job.steps[i].attempts
    requires claimed.repairs == job.repairs && claimed.retried == job.retried && claimed.fence == job.fence
    requires Finished(claimed, k, job')
    ensures Finished(job, k, job')
  {
  }
}
