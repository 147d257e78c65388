/** Concrete runs showing that pointer safety needs each of its grants, and exclusion
    the one on the clocks. */
module PublicationCounterexamples {
  import opened Common
  import opened PublicationProtocol
  import opened PublicationRows
  import opened PublicationRuns
  import opened PublicationTheorems

  const START := State([], map[], map[], Leadership(Pointer(0, 0), {0}, None, {}), [], [], 0, 0, 0)

  /** A granted run, one action that the environment may not take, and a granted
      run after it end with nothing in flight and the wrong release official. */
  predicate BreaksPointer(before: seq<Action>, bad: Action, after: seq<Action>) {
    && CanRun(START, before) && GrantedRun(START, before)
    && var s := Run(START, before);
    && Enabled(s, bad) && !Granted(s, bad)
    && var s' := Apply(s, bad);
    && CanRun(s', after) && GrantedRun(s', after)
    && RecordsSuccesses(Run(s', after)) && !PointerSafe(Run(s', after))
  }

  function FirstJob(state: JobState, token: Option<Token>, lease: Option<int>): Job {
    Job(state, token, lease, 1, 0, 0)
  }

  /** The first worker has sent COMMIT for release 1 and knows nothing more. */
  const ON_THE_WIRE :=
    START.(jobs := [FirstJob(Promoting, Some(0), Some(LEASE_MS))],
           workers := map[0 := Worker(0, Awaiting, 0, Assembling, false, true, false, false, Pointer(0, 0), LEASE_MS, None, 0)],
           leadership := START.leadership.(tx := Some(PromotionTx(0, 0, Sent(LEASE_MS)))),
           nextToken := 1)

  lemma FirstClaimed() returns (actions: seq<Action>, s: State)
    ensures Leads(START, actions, s)
    ensures s == START.(jobs := [FirstJob(Assembling, Some(0), Some(LEASE_MS))], workers := map[0 := NewWorker(0, 0)], nextToken := 1)
  {
    hide Leads;
    s := START;
    actions := Nothing(START);
    actions := Then(START, actions, s, RequestJob(1, 0, 0));
    s := Apply(s, RequestJob(1, 0, 0));
    assert s.jobs == [FirstJob(Requested, None, None)];
    assert FirstEligible(s.jobs, s.now, 0) == Some(0);
    actions := Then(START, actions, s, ClaimJob(0));
    s := Apply(s, ClaimJob(0));
    assert s.jobs == [FirstJob(Assembling, Some(0), Some(LEASE_MS))];
  }

  lemma Marking() returns (actions: seq<Action>, s: State)
    ensures Leads(START, actions, s)
    ensures s == START.(
      jobs := [FirstJob(Promoting, Some(0), Some(LEASE_MS))],
      workers := map[0 := Worker(0, Marked, 0, Assembling, false, false, true, false, Pointer(0, 0), 0, None, 0)],
      nextToken := 1)
  {
    hide Leads;
    actions, s := FirstClaimed();
    actions, s := TakeStep(START, actions, s, 0, StartAttempt);
    assert s.workers == map[0 := NewWorker(0, 0).(pc := Loaded, loadedState := Assembling)];
    actions, s := TakeStep(START, actions, s, 0, LoadCandidate);
    assert s.workers == map[0 := NewWorker(0, 0).(pc := Ready, loadedState := Assembling)];
    actions, s := TakeStep(START, actions, s, 0, ObservePointer);
    actions, s := TakeStep(START, actions, s, 0, MarkPromoting);
    assert s.jobs == [FirstJob(Promoting, Some(0), Some(LEASE_MS))];
  }

  lemma Sending() returns (actions: seq<Action>)
    ensures Leads(START, actions, ON_THE_WIRE)
  {
    hide Leads;
    var s;
    actions, s := Marking();
    actions, s := TakeStep(START, actions, s, 0, ChooseBranch);
    actions, s := TakeStep(START, actions, s, 0, InsertAndPromote(true));
    actions, s := TakeStep(START, actions, s, 0, BeforeCommit(0));
    assert s.jobs == [FirstJob(Promoting, Some(0), Some(LEASE_MS))];
    actions, s := TakeStep(START, actions, s, 0, IssueCommit);
    assert s == ON_THE_WIRE;
  }

  // ----- COMMIT decided only after the reconciling read -----

  lemma EarlyReadBreaksPointer() returns (before: seq<Action>, bad: Action, after: seq<Action>)
    ensures bad == Work(0, ReconcileAmbiguous) && BreaksPointer(before, bad, after)
  {
    hide CanRun, GrantedRun, Run;
    before := Sending();
    before := Then(START, before, ON_THE_WIRE, Work(0, Fail));
    bad := Work(0, ReconcileAmbiguous);
    var s := Apply(Apply(ON_THE_WIRE, Work(0, Fail)), bad);
    var s0 := s;
    after := Nothing(s0);
    after := Then(s0, after, s, Work(0, CatchReconciliation(true)));
    s := Apply(s, Work(0, CatchReconciliation(true)));
    after := Then(s0, after, s, Work(0, CatchBranch));
    s := Apply(s, Work(0, CatchBranch));
    assert s.jobs == [FirstJob(Failed, None, None)];
    after := Then(s0, after, s, CommitDecision(true));
    s := Apply(s, CommitDecision(true));
    assert s.leadership.pointer == Pointer(1, 1);
  }

  // ----- the second worker -----

  function Reclaimed(s: State): State
    requires 0 in s.workers
  {
    s.(jobs := [FirstJob(Promoting, Some(1), Some(2 * LEASE_MS + 1))],
       workers := map[0 := s.workers[0].(pc := Exited), 1 := NewWorker(0, LEASE_MS + 1).(pc := Loaded, loadedState := Promoting)],
       now := LEASE_MS + 1, nextToken := 2)
  }

  /** The first worker dies, its lease runs out, and a second one reads the job. */
  lemma Reclaiming(actions: seq<Action>, s: State) returns (actions': seq<Action>)
    requires Leads(START, actions, s)
    requires s == ON_THE_WIRE || s == Apply(ON_THE_WIRE, CommitDecision(true))
    ensures Leads(START, actions', Reclaimed(s))
  {
    hide CanRun, GrantedRun, Run;
    actions' := Then(START, actions, s, Work(0, Die));
    var dead := Apply(s, Work(0, Die));
    actions' := Then(START, actions', dead, Tick(LEASE_MS + 1));
    actions' := Claiming(actions', Apply(dead, Tick(LEASE_MS + 1)));
  }

  lemma Claiming(actions: seq<Action>, s: State) returns (actions': seq<Action>)
    requires Leads(START, actions, s)
    requires s.jobs == ON_THE_WIRE.jobs && s.now == LEASE_MS + 1 && s.nextToken == 1
    requires s.workers.Keys == {0} && s.workers[0].pc == Exited
    ensures Leads(START, actions', Reclaimed(s))
  {
    hide CanRun, GrantedRun, Run;
    assert FirstEligible(s.jobs, s.now, 0) == Some(0);
    actions' := Then(START, actions, s, ClaimJob(LEASE_MS + 1));
    var e := Apply(s, ClaimJob(LEASE_MS + 1));
    assert e.jobs == [FirstJob(Promoting, Some(1), Some(2 * LEASE_MS + 1))];
    actions' := Then(START, actions', e, Work(1, StartAttempt));
    e := Apply(e, Work(1, StartAttempt));
    assert e == Reclaimed(s);
  }

  // ----- COMMIT taking effect after the lease of beforeCommit -----

  /** The second worker reads the parent, then fails the job; COMMIT is still undecided. */
  lemma SecondWorkerFails() returns (actions: seq<Action>, s: State)
    ensures Leads(START, actions, s)
    ensures s.jobs == [FirstJob(Failed, None, None)] && s.succeeded == [] && s.initial == 0
    ensures s.leadership == ON_THE_WIRE.leadership && s.now == LEASE_MS + 1
  {
    hide Leads;
    actions := Sending();
    actions := Reclaiming(actions, ON_THE_WIRE);
    s := Reclaimed(ON_THE_WIRE);
    actions, s := TakeStep(START, actions, s, 1, LoadCandidate);
    actions, s := TakeStep(START, actions, s, 1, ReconcileReclaimed);
    actions, s := TakeStep(START, actions, s, 1, Fail);
    actions, s := TakeStep(START, actions, s, 1, CatchReconciliation(false));
    actions, s := TakeStep(START, actions, s, 1, CatchBranch);
    assert s.jobs == [FirstJob(Failed, None, None)];
  }

  lemma LateCommitBreaksPointer() returns (before: seq<Action>, bad: Action, after: seq<Action>)
    ensures bad == CommitDecision(true) && BreaksPointer(before, bad, after)
  {
    hide CanRun, GrantedRun, Run;
    var s;
    before, s := SecondWorkerFails();
    bad := CommitDecision(true);
    after := Nothing(Apply(s, bad));
    assert Apply(s, bad).leadership.pointer == Pointer(1, 1);
  }

  // ----- an exception in the unguarded lines of a reclaimed job -----

  lemma ReclaimThrowBreaksPointer() returns (before: seq<Action>, bad: Action, after: seq<Action>)
    ensures bad == Work(1, Fail) && BreaksPointer(before, bad, after)
  {
    hide CanRun, GrantedRun, Run;
    before := Sending();
    before := Then(START, before, ON_THE_WIRE, CommitDecision(true));
    var s := Apply(ON_THE_WIRE, CommitDecision(true));
    before := Reclaiming(before, s);
    bad := Work(1, Fail);
    s := Apply(Reclaimed(s), bad);
    var s0 := s;
    after := Nothing(s0);
    after := Then(s0, after, s, Work(1, CatchReconciliation(true)));
    s := Apply(s, Work(1, CatchReconciliation(true)));
    after := Then(s0, after, s, Work(1, CatchBranch));
    s := Apply(s, Work(1, CatchBranch));
    assert s.jobs == [FirstJob(Failed, None, None)];
    assert s.leadership.pointer == Pointer(1, 1);
  }

  // ----- a lease between the two clocks of one claim -----

  lemma {:induction false} ClockedThen(s: State, actions: seq<Action>, a: Action)
    requires CanRun(s, actions) && CanRun(s, actions + [a]) && ClockRun(s, actions)
    requires Enabled(Run(s, actions), a) && (a.ClaimJob? ==> NoLeaseInGap(Run(s, actions), a.jsNow))
    ensures ClockRun(s, actions + [a])
    decreases |actions|
  {
    hide Apply, Enabled, NoLeaseInGap;
    if actions == [] {
      assert [] + [a] == [a] && [a][1..] == [];
    } else {
      assert (actions + [a])[0] == actions[0] && (actions + [a])[1..] == actions[1..] + [a];
      ClockedThen(Apply(s, actions[0]), actions[1..], a);
    }
  }

  lemma InTime(actions: seq<Action>, s: State, a: Action) returns (actions': seq<Action>)
    requires Leads(START, actions, s) && ClockRun(START, actions)
    requires Enabled(s, a) && Granted(s, a) && (a.ClaimJob? ==> NoLeaseInGap(s, a.jsNow))
    ensures Leads(START, actions', Apply(s, a)) && ClockRun(START, actions')
  {
    hide Apply, Enabled, Granted, NoLeaseInGap, ClockRun;
    actions' := Then(START, actions, s, a);
    ClockedThen(START, actions, a);
  }

  lemma NothingClocked()
    ensures ClockRun(START, [])
  {
  }

  const WAITING := Job(Requested, None, None, 2, 0, 0)

  /** One job is claimed, another one waits, and the lease is just over. */
  lemma LeaseRunsOut() returns (actions: seq<Action>, s: State)
    ensures Leads(START, actions, s) && ClockRun(START, actions)
    ensures s.jobs == [FirstJob(Assembling, Some(0), Some(LEASE_MS)), WAITING] && s.now == LEASE_MS
  {
    hide Leads, ClockRun;
    s := START;
    actions := Nothing(START);
    NothingClocked();
    actions := InTime(actions, s, RequestJob(1, 0, 0));
    s := Apply(s, RequestJob(1, 0, 0));
    actions := InTime(actions, s, RequestJob(2, 0, 0));
    s := Apply(s, RequestJob(2, 0, 0));
    assert s.jobs == [FirstJob(Requested, None, None), WAITING];
    assert FirstEligible(s.jobs, s.now, 0) == Some(0);
    actions := InTime(actions, s, ClaimJob(0));
    s := Apply(s, ClaimJob(0));
    assert s.jobs == [FirstJob(Assembling, Some(0), Some(LEASE_MS)), WAITING];
    actions := InTime(actions, s, Tick(LEASE_MS));
    s := Apply(s, Tick(LEASE_MS));
  }

  lemma LeaseInGapBreaksExclusion() returns (before: seq<Action>, bad: Action)
    ensures bad == ClaimJob(LEASE_MS) && CanRun(START, before) && GrantedRun(START, before) && ClockRun(START, before)
    ensures var s := Run(START, before); !NoLeaseInGap(s, LEASE_MS) && !AtMostOneInFlight(Apply(s, bad))
  {
    hide CanRun, GrantedRun, Run, ClockRun;
    var s;
    before, s := LeaseRunsOut();
    bad := ClaimJob(LEASE_MS);
    assert !Eligible(s.jobs[0], s.now) && Eligible(s.jobs[1], s.now);
    assert FirstEligible(s.jobs, s.now, 0) == Some(1);
    var e := Apply(s, bad);
    assert InFlight(e.jobs[0].state) && InFlight(e.jobs[1].state);
  }
}
