/** How a publication ends when nothing disturbs it, and after each kind of disturbance
    the publisher is built for: success, a changed base, a lost reply, a crash, a
    refused COMMIT, a failing probe, and recovery.  Every run here starts from any
    reachable state with nothing in flight. */
module PublicationOutcomes {
  import opened Common
  import opened PublicationProtocol
  import opened PublicationInvariant
  import opened PublicationSteps
  import opened PublicationRows
  import opened PublicationRuns
  import opened PublicationTheorems

  // ----- one attempt, seen apart from everything else -----

  /** The row, its worker, and what else an attempt changes. */
  datatype Stage = Stage(job: Job, w: Worker, l: Leadership, exposed: seq<nat>)

  function Put(base: State, t: Token, j: nat, x: Stage): State
    requires j < |base.jobs|
  {
    base.(jobs := base.jobs[j := x.job], workers := base.workers[t := x.w], leadership := x.l, exposed := x.exposed)
  }

  /** The worker holds the claim, and no other row is PROMOTING or VERIFYING. */
  predicate Owns(base: State, t: Token, j: nat, x: Stage) {
    && j < |base.jobs| && x.w.job == j && x.job.claimToken == Some(t) && SlotFree(base.jobs, j)
    && x.job.release != x.job.parent
  }

  lemma PutTwice(base: State, t: Token, j: nat, x: Stage, job: Job, w: Worker)
    requires j < |base.jobs|
    ensures SetWorker(Put(base, t, j, x), t, w) == Put(base, t, j, x.(w := w))
    ensures SetJob(Put(base, t, j, x), j, job) == Put(base, t, j, x.(job := job))
    ensures SetWorker(SetJob(Put(base, t, j, x), j, job), t, w) == Put(base, t, j, x.(job := job, w := w))
    ensures Put(base, t, j, x).jobs[j] == x.job && Put(base, t, j, x).workers[t] == x.w
  {
    assert base.jobs[j := x.job][j := job] == base.jobs[j := job];
    assert base.workers[t := x.w][t := w] == base.workers[t := w];
  }

  lemma PutSlot(base: State, t: Token, j: nat, x: Stage)
    requires j < |base.jobs| && SlotFree(base.jobs, j)
    ensures SlotFree(Put(base, t, j, x).jobs, j)
  {
  }

  /** One step of the worker leads from stage to stage. */
  predicate Goes(base: State, t: Token, j: nat, x: Stage, step: Step, x': Stage) {
    && j < |base.jobs| && StepEnabled(Put(base, t, j, x), t, step) && StepGranted(Put(base, t, j, x), t, step)
    && Advance(Put(base, t, j, x), t, step) == Put(base, t, j, x')
  }

  lemma Take(s0: State, actions: seq<Action>, base: State, t: Token, j: nat, x: Stage, step: Step, x': Stage)
    returns (actions': seq<Action>)
    requires j < |base.jobs| && Leads(s0, actions, Put(base, t, j, x)) && Goes(base, t, j, x, step, x')
    ensures actions' == actions + [Work(t, step)] && Leads(s0, actions', Put(base, t, j, x'))
  {
    hide Leads, StepEnabled, StepGranted, Advance, Put;
    var e;
    actions', e := TakeStep(s0, actions, Put(base, t, j, x), t, step);
  }

  // ----- the steps, one by one -----

  lemma Starts(base: State, t: Token, j: nat, x: Stage)
    requires Owns(base, t, j, x) && x.w.pc == Started
    ensures Goes(base, t, j, x, StartAttempt, x.(w := x.w.(pc := Loaded, loadedState := x.job.state)))
  {
    PutTwice(base, t, j, x, x.job, x.w.(pc := Loaded, loadedState := x.job.state));
  }

  lemma Loads(base: State, t: Token, j: nat, x: Stage)
    requires Owns(base, t, j, x) && x.w.pc == Loaded
    ensures Goes(base, t, j, x, LoadCandidate, x.(w :=
      if PointerPhase(x.w.loadedState) then x.w.(pc := Reconciling, promotionAttempted := true, promotionStateKnown := false)
      else x.w.(pc := Ready)))
  {
    PutTwice(base, t, j, x, x.job, x.w.(pc := Ready));
    PutTwice(base, t, j, x, x.job, x.w.(pc := Reconciling, promotionAttempted := true, promotionStateKnown := false));
  }

  lemma Reconciles(base: State, t: Token, j: nat, x: Stage)
    requires Owns(base, t, j, x) && x.w.pc == Reconciling && x.l.tx.None?
    ensures Goes(base, t, j, x, ReconcileReclaimed,
      x.(w := x.w.(pc := Ready, promotionStateKnown := true, promoted := x.l.pointer.release == x.job.release)))
  {
    PutTwice(base, t, j, x, x.job, x.w.(pc := Ready, promotionStateKnown := true, promoted := x.l.pointer.release == x.job.release));
  }

  lemma Observes(base: State, t: Token, j: nat, x: Stage)
    requires Owns(base, t, j, x) && x.w.pc == Ready
    ensures Goes(base, t, j, x, ObservePointer,
      x.(w := x.w.(pc := Observed, before := x.l.pointer, promoted := x.l.pointer.release == x.job.release)))
  {
    PutTwice(base, t, j, x, x.job, x.w.(pc := Observed, before := x.l.pointer, promoted := x.l.pointer.release == x.job.release));
  }

  /** A reclaimed VERIFYING job is not marked again. */
  lemma Passes(base: State, t: Token, j: nat, x: Stage)
    requires Owns(base, t, j, x) && x.w.pc == Observed && x.w.loadedState == Verifying && Owned(x.job.state)
    requires x.w.before.release == x.job.release
    ensures Goes(base, t, j, x, MarkPromoting, x.(w := x.w.(pc := Marked)))
  {
    PutTwice(base, t, j, x, x.job, x.w.(pc := Marked));
    hide SlotFree;
  }

  lemma Marks(base: State, t: Token, j: nat, x: Stage)
    requires Owns(base, t, j, x) && x.w.pc == Observed && x.w.loadedState != Verifying
    requires x.job.state == Assembling || x.job.state == Promoting
    requires x.w.before.release == x.job.release || x.w.before == Pointer(x.job.parent, x.job.expectedGeneration)
    ensures Goes(base, t, j, x, MarkPromoting, x.(job := x.job.(state := Promoting), w := x.w.(pc := Marked)))
  {
    PutTwice(base, t, j, x, x.job.(state := Promoting), x.w.(pc := Marked));
    PutSlot(base, t, j, x);
    hide SlotFree;
  }

  /** The base has changed. */
  lemma Refreshes(base: State, t: Token, j: nat, x: Stage)
    requires Owns(base, t, j, x) && x.w.pc == Observed && Owned(x.job.state)
    requires x.w.before.release != x.job.release && x.w.before != Pointer(x.job.parent, x.job.expectedGeneration)
    ensures Goes(base, t, j, x, MarkPromoting,
      x.(job := x.job.(state := NeedsRefresh, claimToken := None, lease := None), w := x.w.(pc := Exited)))
  {
    PutTwice(base, t, j, x, x.job.(state := NeedsRefresh, claimToken := None, lease := None), x.w.(pc := Exited));
    hide SlotFree;
  }

  lemma Chooses(base: State, t: Token, j: nat, x: Stage)
    requires Owns(base, t, j, x) && x.w.pc == Marked
    ensures Goes(base, t, j, x, ChooseBranch, x.(w :=
      if x.w.before.release != x.job.release then x.w.(pc := Inserting, promotionAttempted := true, promotionStateKnown := false)
      else x.w.(pc := Checking)))
  {
    PutTwice(base, t, j, x, x.job, x.w.(pc := Checking));
    PutTwice(base, t, j, x, x.job, x.w.(pc := Inserting, promotionAttempted := true, promotionStateKnown := false));
  }

  lemma Inserts(base: State, t: Token, j: nat, x: Stage, validated: bool)
    requires Owns(base, t, j, x) && x.w.pc == Inserting && Owned(x.job.state)
    requires x.l.tx.None? && x.job.release !in x.l.releases && x.l.pointer == Pointer(x.job.parent, x.job.expectedGeneration)
    ensures Goes(base, t, j, x, InsertAndPromote(validated),
      x.(w := x.w.(pc := PromotionOpen), l := x.l.(tx := Some(PromotionTx(t, j, Open)))))
  {
    PutTwice(base, t, j, x, x.job, x.w.(pc := PromotionOpen));
  }

  lemma Confirms(base: State, t: Token, j: nat, x: Stage, clock: int)
    requires Owns(base, t, j, x) && x.w.pc == PromotionOpen && Owned(x.job.state) && x.w.clock <= clock
    ensures Goes(base, t, j, x, BeforeCommit(clock),
      x.(job := x.job.(lease := Some(clock + LEASE_MS)), w := x.w.(pc := CommitReady, clock := clock, deadline := clock + LEASE_MS)))
  {
    PutTwice(base, t, j, x, x.job.(lease := Some(clock + LEASE_MS)), x.w.(pc := CommitReady, clock := clock, deadline := clock + LEASE_MS));
  }

  lemma Sends(base: State, t: Token, j: nat, x: Stage)
    requires Owns(base, t, j, x) && x.w.pc == CommitReady
    ensures Goes(base, t, j, x, IssueCommit,
      x.(w := x.w.(pc := Awaiting, reply := None), l := x.l.(tx := Some(PromotionTx(t, j, Sent(x.w.deadline))))))
  {
    PutTwice(base, t, j, x, x.job, x.w.(pc := Awaiting, reply := None));
  }

  /** COMMIT is decided within its lease. */
  lemma Commits(s0: State, actions: seq<Action>, base: State, t: Token, j: nat, x: Stage, ok: bool) returns (actions': seq<Action>)
    requires Owns(base, t, j, x) && Leads(s0, actions, Put(base, t, j, x)) && x.w.pc == Awaiting
    requires x.l.tx == Some(PromotionTx(t, j, Sent(x.w.deadline))) && base.now <= x.w.deadline
    ensures actions' == actions + [CommitDecision(ok)]
    ensures Leads(s0, actions', Put(base, t, j, Committed(x, j, ok)))
  {
    hide Leads;
    actions' := Then(s0, actions, Put(base, t, j, x), CommitDecision(ok));
    PutTwice(base, t, j, x, x.job, x.w.(reply := Some(ok)));
    assert Apply(Put(base, t, j, x), CommitDecision(ok)) == Put(base, t, j, Committed(x, j, ok));
  }

  function Committed(x: Stage, j: nat, ok: bool): Stage {
    if ok then
      x.(w := x.w.(reply := Some(true)), exposed := [j] + x.exposed,
         l := x.l.(tx := None, pointer := Pointer(x.job.release, x.l.pointer.generation + 1), releases := x.l.releases + {x.job.release}))
    else x.(w := x.w.(reply := Some(false)), l := x.l.(tx := None))
  }

  lemma Hears(base: State, t: Token, j: nat, x: Stage)
    requires Owns(base, t, j, x) && x.w.pc == Awaiting && x.w.reply.Some?
    ensures Goes(base, t, j, x, ReceiveReply, x.(w :=
      if x.w.reply.value then x.w.(pc := Checking, promotionStateKnown := true, promoted := true) else x.w.(pc := InnerCatch)))
  {
    PutTwice(base, t, j, x, x.job, x.w.(pc := InnerCatch));
    PutTwice(base, t, j, x, x.job, x.w.(pc := Checking, promotionStateKnown := true, promoted := true));
  }

  lemma Rereads(base: State, t: Token, j: nat, x: Stage)
    requires Owns(base, t, j, x) && x.w.pc == InnerCatch && x.l.tx.None?
    ensures Goes(base, t, j, x, ReconcileAmbiguous, x.(w :=
      if x.l.pointer.release == x.job.release then x.w.(pc := Checking, promotionStateKnown := true, promoted := true)
      else x.w.(pc := Catching, promotionStateKnown := true)))
  {
    PutTwice(base, t, j, x, x.job, x.w.(pc := Catching, promotionStateKnown := true));
    PutTwice(base, t, j, x, x.job, x.w.(pc := Checking, promotionStateKnown := true, promoted := true));
  }

  lemma Checks(base: State, t: Token, j: nat, x: Stage)
    requires Owns(base, t, j, x) && x.w.pc == Checking && x.l.pointer.release == x.job.release
    ensures Goes(base, t, j, x, CheckPromotion, x.(w := x.w.(pc := Activating, promoted := true)))
  {
    PutTwice(base, t, j, x, x.job, x.w.(pc := Activating, promoted := true));
  }

  lemma Activates(base: State, t: Token, j: nat, x: Stage)
    requires Owns(base, t, j, x) && x.w.pc == Activating && Owned(x.job.state)
    ensures Goes(base, t, j, x, RecordVerifying, x.(job := x.job.(state := Verifying), w := x.w.(pc := Probing)))
  {
    PutTwice(base, t, j, x, x.job.(state := Verifying), x.w.(pc := Probing));
    PutSlot(base, t, j, x);
    hide SlotFree;
  }

  lemma Probes(base: State, t: Token, j: nat, x: Stage)
    requires Owns(base, t, j, x) && x.w.pc == Probing
    ensures Goes(base, t, j, x, RuntimeVerified, x.(w := x.w.(pc := Finalizing, runtimeVerified := true)))
  {
    PutTwice(base, t, j, x, x.job, x.w.(pc := Finalizing, runtimeVerified := true));
  }

  /** The row of a job that nobody holds. */
  function Over(job: Job, state: JobState): Job {
    job.(state := state, claimToken := None, lease := None)
  }

  lemma Finalises(s0: State, actions: seq<Action>, base: State, t: Token, j: nat, x: Stage) returns (actions': seq<Action>)
    requires Owns(base, t, j, x) && Leads(s0, actions, Put(base, t, j, x)) && x.w.pc == Finalizing && x.job.state == Verifying
    ensures actions' == actions + [Work(t, FinalizeSuccess(false))]
    ensures Leads(s0, actions', Put(base, t, j, x.(job := Over(x.job, Succeeded), w := x.w.(pc := Exited))).(
                                  succeeded := base.succeeded + [j], exposed := []))
  {
    hide Leads;
    PutTwice(base, t, j, x, Over(x.job, Succeeded), x.w.(pc := Exited));
    var e;
    actions', e := TakeStep(s0, actions, Put(base, t, j, x), t, FinalizeSuccess(false));
  }

  // ----- the catch block -----

  lemma Throws(base: State, t: Token, j: nat, x: Stage)
    requires Owns(base, t, j, x) && x.l.tx.None?
    requires x.w.pc == Ready || x.w.pc == Awaiting || x.w.pc == InnerCatch || x.w.pc == Probing || x.w.pc == Finalizing
    ensures Goes(base, t, j, x, Fail, x.(w := x.w.(pc :=
      if x.w.pc == Awaiting then InnerCatch else if x.w.pc == Finalizing then CatchVerified else Catching)))
  {
    PutTwice(base, t, j, x, x.job, x.w.(pc := CatchVerified));
    PutTwice(base, t, j, x, x.job, x.w.(pc := InnerCatch));
    PutTwice(base, t, j, x, x.job, x.w.(pc := Catching));
  }

  lemma Catches(base: State, t: Token, j: nat, x: Stage, reachable: bool)
    requires Owns(base, t, j, x) && x.w.pc == Catching && !StateUnknown(x.w)
    ensures Goes(base, t, j, x, CatchReconciliation(reachable), x.(w := x.w.(pc := Deciding)))
  {
    PutTwice(base, t, j, x, x.job, x.w.(pc := Deciding));
  }

  lemma Ends(base: State, t: Token, j: nat, x: Stage)
    requires Owns(base, t, j, x) && x.w.pc == Deciding && !StateUnknown(x.w)
    requires if x.w.promoted then PointerPhase(x.job.state) else Owned(x.job.state)
    ensures Goes(base, t, j, x, CatchBranch,
      if x.w.promoted then x.(job := x.job.(state := RecoveryRequired), w := x.w.(pc := RestoreReading))
      else x.(job := Over(x.job, Failed), w := x.w.(pc := Exited)))
  {
    PutTwice(base, t, j, x, x.job.(state := RecoveryRequired), x.w.(pc := RestoreReading));
    PutTwice(base, t, j, x, Over(x.job, Failed), x.w.(pc := Exited));
  }

  /** Leadership cannot be read, so nobody knows whether the COMMIT took effect. */
  lemma StaysUnknown(base: State, t: Token, j: nat, x: Stage)
    requires Owns(base, t, j, x) && x.w.pc == Catching && StateUnknown(x.w)
    ensures Goes(base, t, j, x, CatchReconciliation(false), x.(w := x.w.(pc := Deciding)))
  {
    PutTwice(base, t, j, x, x.job, x.w.(pc := Deciding));
  }

  lemma EndsUnknown(base: State, t: Token, j: nat, x: Stage)
    requires Owns(base, t, j, x) && x.w.pc == Deciding && StateUnknown(x.w) && !x.w.promoted && Owned(x.job.state)
    ensures Goes(base, t, j, x, CatchBranch, x.(job := Over(x.job, RecoveryRequired), w := x.w.(pc := Exited)))
  {
    PutTwice(base, t, j, x, Over(x.job, RecoveryRequired), x.w.(pc := Exited));
  }

  /** A verified job is never restored: its claim is given back. */
  lemma GivesBack(base: State, t: Token, j: nat, x: Stage)
    requires Owns(base, t, j, x) && x.w.pc == CatchVerified && x.job.state == Verifying
    ensures Goes(base, t, j, x, SuppressRestoration, x.(job := Over(x.job, Verifying), w := x.w.(pc := Exited)))
  {
    PutTwice(base, t, j, x, Over(x.job, Verifying), x.w.(pc := Exited));
  }

  lemma ReadsBack(base: State, t: Token, j: nat, x: Stage)
    requires Owns(base, t, j, x) && x.w.pc == RestoreReading
    ensures Goes(base, t, j, x, ReadForRestore, x.(w := x.w.(pc := RestoreReady, restoreGeneration := x.l.pointer.generation)))
  {
    PutTwice(base, t, j, x, x.job, x.w.(pc := RestoreReady, restoreGeneration := x.l.pointer.generation));
  }

  lemma PutsBack(base: State, t: Token, j: nat, x: Stage)
    requires Owns(base, t, j, x) && x.w.pc == RestoreReady && x.l.tx.None? && x.exposed != []
    requires x.l.pointer == Pointer(x.job.release, x.w.restoreGeneration)
    ensures Goes(base, t, j, x, RestoreRelease,
      x.(w := x.w.(pc := RestoreIssued), exposed := x.exposed[1..],
         l := x.l.(pointer := Pointer(x.job.parent, x.l.pointer.generation + 1), restored := x.l.restored + {j})))
  {
    PutTwice(base, t, j, x, x.job, x.w.(pc := RestoreIssued));
  }

  lemma Confirmed(base: State, t: Token, j: nat, x: Stage, agrees: bool)
    requires Owns(base, t, j, x) && x.w.pc == RestoreIssued && x.l.pointer.release == x.job.parent
    ensures Goes(base, t, j, x, CheckRestoration(agrees), x.(w := x.w.(pc := if agrees then RestoreConfirmed else RestoreFailed)))
  {
    PutTwice(base, t, j, x, x.job, x.w.(pc := RestoreConfirmed));
    PutTwice(base, t, j, x, x.job, x.w.(pc := RestoreFailed));
  }

  lemma Concludes(base: State, t: Token, j: nat, x: Stage)
    requires Owns(base, t, j, x) && (x.w.pc == RestoreConfirmed || x.w.pc == RestoreFailed) && x.job.state == RecoveryRequired
    ensures Goes(base, t, j, x, ConcludeRestoration,
      x.(job := Over(x.job, if x.w.pc == RestoreConfirmed then Restored else RecoveryRequired), w := x.w.(pc := Exited)))
  {
    PutTwice(base, t, j, x, Over(x.job, Restored), x.w.(pc := Exited));
    PutTwice(base, t, j, x, Over(x.job, RecoveryRequired), x.w.(pc := Exited));
  }

  // ----- from the claim to a decided COMMIT -----

  predicate OldestRequest(s: State, j: nat) {
    && j < |s.jobs| && s.jobs[j].state == Requested
    && forall i :: 0 <= i < j ==> s.jobs[i].state != Requested
  }

  /** Leadership ends a transaction whose job is over. */
  function Clearing(s: State): seq<Action> {
    if s.leadership.tx.None? then []
    else if s.leadership.tx.value.phase.Open? then [Work(s.leadership.tx.value.owner, Die)]
    else [CommitDecision(false)]
  }

  /** The rows and the pointer are as they were, and nobody moves the pointer. */
  predicate Quiet(s: State, e: State) {
    && Inv(e) && e.leadership == s.leadership.(tx := None) && e.jobs == s.jobs && e.exposed == s.exposed == []
    && e.succeeded == s.succeeded && e.now == s.now && e.nextToken == s.nextToken && e.initial == s.initial
  }

  lemma Cleared(s: State) returns (e: State)
    requires Inv(s) && NothingInFlight(s)
    ensures Leads(s, Clearing(s), e) && Quiet(s, e)
  {
    NothingExposed(s);
    hide Inv, Leads, NothingInFlight;
    var actions := Nothing(s);
    if s.leadership.tx.None? {
      e := s;
    } else {
      var a := Clearing(s)[0];
      ClearsTx(s, a);
      assert [] + [a] == Clearing(s);
      hide Apply, Granted, Enabled;
      actions := Then(s, actions, s, a);
      ActionKeeps(s, a);
      e := Apply(s, a);
    }
  }

  lemma ClearsTx(s: State, a: Action)
    requires Inv(s) && s.leadership.tx.Some? && [a] == Clearing(s)
    ensures Enabled(s, a) && Granted(s, a)
    ensures var e := Apply(s, a);
      && e.leadership == s.leadership.(tx := None) && e.jobs == s.jobs && e.exposed == s.exposed
      && e.succeeded == s.succeeded && e.now == s.now && e.nextToken == s.nextToken && e.initial == s.initial
  {
    TxIsOk(s);
    OwnerJob(s);
    hide Inv, TxShape, Apply, Enabled, Granted;
    assert a == Clearing(s)[0];
    if s.leadership.tx.value.phase.Open? {
      DeathClears(s, s.leadership.tx.value.owner);
    } else {
      RefusalClears(s);
    }
  }

  /** Only the transaction and the workers are touched. */
  predicate TxGone(s: State, e: State) {
    && e.leadership == s.leadership.(tx := None) && e.jobs == s.jobs && e.exposed == s.exposed
    && e.succeeded == s.succeeded && e.now == s.now && e.nextToken == s.nextToken && e.initial == s.initial
  }

  lemma DeathClears(s: State, t: Token)
    requires Running(s, t) && s.leadership.tx.Some? && s.leadership.tx.value.owner == t && s.leadership.tx.value.phase.Open?
    ensures Enabled(s, Work(t, Die)) && Granted(s, Work(t, Die)) && TxGone(s, Apply(s, Work(t, Die)))
  {
  }

  lemma RefusalClears(s: State)
    requires s.leadership.tx.Some? && s.leadership.tx.value.phase.Sent? && s.leadership.tx.value.job < |s.jobs|
    ensures Enabled(s, CommitDecision(false)) && Granted(s, CommitDecision(false)) && TxGone(s, Apply(s, CommitDecision(false)))
  {
  }

  lemma NothingExposed(s: State)
    requires Inv(s) && NothingInFlight(s)
    ensures s.exposed == []
  {
    if s.exposed != [] {
      ExposedLink(s, 0);
    }
    hide Inv;
  }

  /** The first stage of an attempt that the claim starts. */
  function Fresh(s: State, j: nat, jsNow: int): Stage
    requires j < |s.jobs|
  {
    Stage(s.jobs[j].(state := Assembling, claimToken := Some(s.nextToken), lease := Some(s.now + LEASE_MS)),
          NewWorker(j, jsNow), s.leadership, s.exposed)
  }

  function Next(s: State): State {
    s.(nextToken := s.nextToken + 1)
  }

  lemma FindsOldest(s: State, j: nat, jsNow: int)
    requires NothingInFlight(s) && OldestRequest(s, j)
    ensures FirstEligible(s.jobs, s.now, 0) == Some(j) && !ClaimBlocked(s.jobs, jsNow)
  {
    var c := FirstEligible(s.jobs, s.now, 0);
    assert Eligible(s.jobs[j], s.now);
    assert c.Some? && c.value <= j;
    assert Eligible(s.jobs[c.value], s.now);
  }

  lemma ClaimsOldest(s0: State, actions: seq<Action>, s: State, j: nat, jsNow: int) returns (actions': seq<Action>)
    requires Leads(s0, actions, s) && Inv(s) && NothingInFlight(s) && OldestRequest(s, j)
    ensures actions' == actions + [ClaimJob(jsNow)]
    ensures Leads(s0, actions', Put(Next(s), s.nextToken, j, Fresh(s, j, jsNow)))
    ensures Owns(Next(s), s.nextToken, j, Fresh(s, j, jsNow))
  {
    JobIsOk(s, j);
    hide Inv, Leads, JobOk;
    FindsOldest(s, j, jsNow);
    actions' := Then(s0, actions, s, ClaimJob(jsNow));
    assert Apply(s, ClaimJob(jsNow)) == Put(Next(s), s.nextToken, j, Fresh(s, j, jsNow));
  }

  /** Claimed, started, rebuilt and observed. */
  function Begin(t: Token, jsNow: int): seq<Action> {
    [ClaimJob(jsNow), Work(t, StartAttempt), Work(t, LoadCandidate), Work(t, ObservePointer)]
  }

  function Seen(x: Stage): Stage {
    x.(w := x.w.(pc := Observed, loadedState := Assembling, before := x.l.pointer, promoted := x.l.pointer.release == x.job.release))
  }

  lemma Begins(s0: State, actions: seq<Action>, s: State, j: nat, jsNow: int) returns (actions': seq<Action>)
    requires Leads(s0, actions, s) && Inv(s) && NothingInFlight(s) && OldestRequest(s, j)
    ensures actions' == actions + Begin(s.nextToken, jsNow)
    ensures Leads(s0, actions', Put(Next(s), s.nextToken, j, Seen(Fresh(s, j, jsNow))))
    ensures Owns(Next(s), s.nextToken, j, Seen(Fresh(s, j, jsNow)))
  {
    hide Leads, Goes, Inv, SlotFree, NothingInFlight;
    actions' := ClaimsOldest(s0, actions, s, j, jsNow);
    actions' := Looks(s0, actions', Next(s), s.nextToken, j, Fresh(s, j, jsNow));
  }

  lemma Looks(s0: State, actions: seq<Action>, base: State, t: Token, j: nat, x: Stage) returns (actions': seq<Action>)
    requires Owns(base, t, j, x) && Leads(s0, actions, Put(base, t, j, x)) && x.w.pc == Started && x.job.state == Assembling
    ensures actions' == actions + [Work(t, StartAttempt), Work(t, LoadCandidate), Work(t, ObservePointer)]
    ensures Leads(s0, actions', Put(base, t, j, Seen(x))) && Owns(base, t, j, Seen(x))
  {
    hide Leads, Goes, SlotFree;
    Starts(base, t, j, x);
    var x1 := x.(w := x.w.(pc := Loaded, loadedState := Assembling));
    actions' := Take(s0, actions, base, t, j, x, StartAttempt, x1);
    Loads(base, t, j, x1);
    var x2 := x1.(w := x1.w.(pc := Ready));
    actions' := Take(s0, actions', base, t, j, x1, LoadCandidate, x2);
    Observes(base, t, j, x2);
    actions' := Take(s0, actions', base, t, j, x2, ObservePointer, Seen(x));
  }

  /** Marked, inserted, confirmed and sent. */
  function Promote(t: Token, clock: int, validated: bool): seq<Action> {
    [Work(t, MarkPromoting), Work(t, ChooseBranch), Work(t, InsertAndPromote(validated)), Work(t, BeforeCommit(clock)), Work(t, IssueCommit)]
  }

  function OnTheWay(x: Stage, t: Token, clock: int): Stage {
    x.(job := x.job.(state := Promoting, lease := Some(clock + LEASE_MS)),
       w := x.w.(pc := Awaiting, promotionAttempted := true, promotionStateKnown := false, reply := None,
                 clock := clock, deadline := clock + LEASE_MS),
       l := x.l.(tx := Some(PromotionTx(t, x.w.job, Sent(clock + LEASE_MS)))))
  }

  lemma Promotes(s0: State, actions: seq<Action>, base: State, t: Token, j: nat, x: Stage, clock: int, validated: bool)
    returns (actions': seq<Action>)
    requires Owns(base, t, j, x) && Leads(s0, actions, Put(base, t, j, x)) && x.w.pc == Observed && x.w.loadedState == Assembling
    requires x.job.state == Assembling && x.l.tx.None? && x.job.release !in x.l.releases && x.w.clock <= clock
    requires x.l.pointer == Pointer(x.job.parent, x.job.expectedGeneration) == x.w.before
    ensures actions' == actions + Promote(t, clock, validated)
    ensures Leads(s0, actions', Put(base, t, j, OnTheWay(x, t, clock))) && Owns(base, t, j, OnTheWay(x, t, clock))
  {
    hide Leads, Goes, SlotFree;
    Marks(base, t, j, x);
    var x1 := x.(job := x.job.(state := Promoting), w := x.w.(pc := Marked));
    actions' := Take(s0, actions, base, t, j, x, MarkPromoting, x1);
    Chooses(base, t, j, x1);
    var x2 := x1.(w := x1.w.(pc := Inserting, promotionAttempted := true, promotionStateKnown := false));
    actions' := Take(s0, actions', base, t, j, x1, ChooseBranch, x2);
    Inserts(base, t, j, x2, validated);
    var x3 := x2.(w := x2.w.(pc := PromotionOpen), l := x2.l.(tx := Some(PromotionTx(t, j, Open))));
    actions' := Take(s0, actions', base, t, j, x2, InsertAndPromote(validated), x3);
    Confirms(base, t, j, x3, clock);
    var x4 := x3.(job := x3.job.(lease := Some(clock + LEASE_MS)), w := x3.w.(pc := CommitReady, clock := clock, deadline := clock + LEASE_MS));
    actions' := Take(s0, actions', base, t, j, x3, BeforeCommit(clock), x4);
    Sends(base, t, j, x4);
    actions' := Take(s0, actions', base, t, j, x4, IssueCommit, OnTheWay(x, t, clock));
  }

  /** Checked, VERIFYING, verified and finalised. */
  function Finish(t: Token): seq<Action> {
    [Work(t, CheckPromotion), Work(t, RecordVerifying), Work(t, RuntimeVerified), Work(t, FinalizeSuccess(false))]
  }

  lemma Verifies(s0: State, actions: seq<Action>, base: State, t: Token, j: nat, x: Stage) returns (actions': seq<Action>, x': Stage)
    requires Owns(base, t, j, x) && Leads(s0, actions, Put(base, t, j, x)) && x.w.pc == Checking
    requires Owned(x.job.state) && x.l.pointer.release == x.job.release
    ensures actions' == actions + [Work(t, CheckPromotion), Work(t, RecordVerifying)]
    ensures x' == x.(job := x.job.(state := Verifying), w := x.w.(pc := Probing, promoted := true))
    ensures Leads(s0, actions', Put(base, t, j, x')) && Owns(base, t, j, x')
  {
    hide Leads, Goes, SlotFree;
    Checks(base, t, j, x);
    var x1 := x.(w := x.w.(pc := Activating, promoted := true));
    actions' := Take(s0, actions, base, t, j, x, CheckPromotion, x1);
    Activates(base, t, j, x1);
    x' := x1.(job := x1.job.(state := Verifying), w := x1.w.(pc := Probing));
    actions' := Take(s0, actions', base, t, j, x1, RecordVerifying, x');
  }

  /** The job is over, its release official, and it is the last success. */
  predicate Published(s: State, j: nat, e: State) {
    && j < |s.jobs| && e.jobs == s.jobs[j := Over(s.jobs[j], Succeeded)]
    && e.leadership.pointer == Pointer(s.jobs[j].release, s.jobs[j].expectedGeneration + 1) && e.leadership.tx.None?
    && e.succeeded == s.succeeded + [j] && e.exposed == []
    && e.leadership.releases == s.leadership.releases + {s.jobs[j].release} && e.leadership.restored == s.leadership.restored
  }

  lemma Finishes(s0: State, actions: seq<Action>, base: State, t: Token, j: nat, x: Stage) returns (actions': seq<Action>, e: State)
    requires Owns(base, t, j, x) && Leads(s0, actions, Put(base, t, j, x)) && x.w.pc == Checking
    requires Owned(x.job.state) && x.l.pointer.release == x.job.release
    ensures actions' == actions + Finish(t) && Leads(s0, actions', e)
    ensures e.jobs == base.jobs[j := Over(x.job, Succeeded)] && e.leadership == x.l && e.exposed == []
    ensures e.succeeded == base.succeeded + [j]
  {
    hide Leads, Goes, SlotFree;
    var x1;
    actions', x1 := Verifies(s0, actions, base, t, j, x);
    Probes(base, t, j, x1);
    var x2 := x1.(w := x1.w.(pc := Finalizing, runtimeVerified := true));
    actions' := Take(s0, actions', base, t, j, x1, RuntimeVerified, x2);
    actions' := Finalises(s0, actions', base, t, j, x2);
    e := Put(base, t, j, x2.(job := Over(x2.job, Succeeded), w := x2.w.(pc := Exited))).(succeeded := base.succeeded + [j], exposed := []);
  }

  // ----- main results -----

  /** Any state that a granted run reaches, with nothing in flight and `j` the oldest request. */
  predicate Waiting(start: State, before: seq<Action>, j: nat) {
    && Init(start) && CanRun(start, before) && GrantedRun(start, before)
    && NothingInFlight(Run(start, before)) && OldestRequest(Run(start, before), j)
  }

  /** The request names the official release and its generation. */
  predicate OnBase(s: State, j: nat) {
    j < |s.jobs| && s.leadership.pointer == Pointer(s.jobs[j].parent, s.jobs[j].expectedGeneration)
  }

  /** `clock` is what the publisher's own clock reads when it renews before COMMIT. */
  predicate InTime(s: State, jsNow: int, clock: int) {
    jsNow <= clock && s.now <= clock + LEASE_MS
  }

  lemma Waits(start: State, before: seq<Action>, j: nat)
    requires Waiting(start, before, j)
    ensures Inv(Run(start, before)) && NothingInFlight(Run(start, before)) && OldestRequest(Run(start, before), j)
  {
    InitKeeps(start);
    RunKeeps(start, before);
  }

  /** What a request carries. */
  lemma Unpromoted(s: State, j: nat)
    requires Inv(s) && OldestRequest(s, j) && OnBase(s, j)
    ensures s.jobs[j].claimToken.None? && s.jobs[j].lease.None?
    ensures s.jobs[j].release !in s.leadership.releases && s.jobs[j].release != s.jobs[j].parent
  {
    JobIsOk(s, j);
    hide Inv, InDoubt;
  }

  function ToCommit(s: State, jsNow: int, clock: int, validated: bool): seq<Action> {
    Clearing(s) + Begin(s.nextToken, jsNow) + Promote(s.nextToken, clock, validated)
  }

  lemma CommitIssued(s: State, j: nat, jsNow: int, clock: int, validated: bool) returns (q: State, x: Stage)
    requires Inv(s) && NothingInFlight(s) && OldestRequest(s, j) && OnBase(s, j) && InTime(s, jsNow, clock)
    ensures Quiet(s, q) && x == OnTheWay(Seen(Fresh(q, j, jsNow)), s.nextToken, clock)
    ensures Owns(Next(q), s.nextToken, j, x)
    ensures Leads(s, ToCommit(s, jsNow, clock, validated), Put(Next(q), s.nextToken, j, x))
  {
    Unpromoted(s, j);
    hide Inv, Leads, Owns;
    q := Cleared(s);
    var actions := Begins(s, Clearing(s), q, j, jsNow);
    actions := Promotes(s, actions, Next(q), s.nextToken, j, Seen(Fresh(q, j, jsNow)), clock, validated);
    x := OnTheWay(Seen(Fresh(q, j, jsNow)), s.nextToken, clock);
  }

  /** Once COMMIT has taken effect in time. */
  lemma CommitTaken(s: State, j: nat, jsNow: int, clock: int, validated: bool) returns (q: State, x: Stage)
    requires Inv(s) && NothingInFlight(s) && OldestRequest(s, j) && OnBase(s, j) && InTime(s, jsNow, clock)
    ensures Quiet(s, q) && x == Committed(OnTheWay(Seen(Fresh(q, j, jsNow)), s.nextToken, clock), j, true)
    ensures Owns(Next(q), s.nextToken, j, x)
    ensures Leads(s, ToCommit(s, jsNow, clock, validated) + [CommitDecision(true)], Put(Next(q), s.nextToken, j, x))
  {
    hide Inv, Leads;
    var sent;
    q, sent := CommitIssued(s, j, jsNow, clock, validated);
    var actions := Commits(s, ToCommit(s, jsNow, clock, validated), Next(q), s.nextToken, j, sent, true);
    x := Committed(sent, j, true);
  }

  // Tails, from a decided COMMIT on.

  lemma HearsAndFinishes(s0: State, actions: seq<Action>, base: State, t: Token, j: nat, x: Stage) returns (actions': seq<Action>, e: State)
    requires Owns(base, t, j, x) && Leads(s0, actions, Put(base, t, j, x)) && x.w.pc == Awaiting && x.w.reply == Some(true)
    requires Owned(x.job.state) && x.l.pointer.release == x.job.release
    ensures actions' == actions + [Work(t, ReceiveReply)] + Finish(t) && Leads(s0, actions', e)
    ensures e.jobs == base.jobs[j := Over(x.job, Succeeded)] && e.leadership == x.l && e.exposed == []
    ensures e.succeeded == base.succeeded + [j]
  {
    hide Leads, Goes, SlotFree;
    Hears(base, t, j, x);
    var x1 := x.(w := x.w.(pc := Checking, promotionStateKnown := true, promoted := true));
    actions' := Take(s0, actions, base, t, j, x, ReceiveReply, x1);
    actions', e := Finishes(s0, actions', base, t, j, x1);
  }

  lemma RereadsAndFinishes(s0: State, actions: seq<Action>, base: State, t: Token, j: nat, x: Stage) returns (actions': seq<Action>, e: State)
    requires Owns(base, t, j, x) && Leads(s0, actions, Put(base, t, j, x)) && x.w.pc == Awaiting && x.l.tx.None?
    requires Owned(x.job.state) && x.l.pointer.release == x.job.release
    ensures actions' == actions + [Work(t, Fail), Work(t, ReconcileAmbiguous)] + Finish(t) && Leads(s0, actions', e)
    ensures e.jobs == base.jobs[j := Over(x.job, Succeeded)] && e.leadership == x.l && e.exposed == []
    ensures e.succeeded == base.succeeded + [j]
  {
    hide Leads, Goes, SlotFree;
    Throws(base, t, j, x);
    var x1 := x.(w := x.w.(pc := InnerCatch));
    actions' := Take(s0, actions, base, t, j, x, Fail, x1);
    Rereads(base, t, j, x1);
    var x2 := x1.(w := x1.w.(pc := Checking, promotionStateKnown := true, promoted := true));
    actions' := Take(s0, actions', base, t, j, x1, ReconcileAmbiguous, x2);
    actions', e := Finishes(s0, actions', base, t, j, x2);
  }

  function Refused(t: Token, reachable: bool): seq<Action> {
    [Work(t, ReceiveReply), Work(t, ReconcileAmbiguous), Work(t, CatchReconciliation(reachable)), Work(t, CatchBranch)]
  }

  lemma RefusedAndFails(s0: State, actions: seq<Action>, base: State, t: Token, j: nat, x: Stage, reachable: bool)
    returns (actions': seq<Action>, e: State)
    requires Owns(base, t, j, x) && Leads(s0, actions, Put(base, t, j, x)) && x.w.pc == Awaiting && x.w.reply == Some(false)
    requires x.l.tx.None? && Owned(x.job.state) && x.l.pointer.release != x.job.release && !x.w.promoted
    ensures actions' == actions + Refused(t, reachable) && Leads(s0, actions', e)
    ensures e.jobs == base.jobs[j := Over(x.job, Failed)] && e.leadership == x.l && e.exposed == x.exposed
    ensures e.succeeded == base.succeeded
  {
    hide Leads, Goes, SlotFree;
    Hears(base, t, j, x);
    var x1 := x.(w := x.w.(pc := InnerCatch));
    actions' := Take(s0, actions, base, t, j, x, ReceiveReply, x1);
    Rereads(base, t, j, x1);
    var x2 := x1.(w := x1.w.(pc := Catching, promotionStateKnown := true));
    actions' := Take(s0, actions', base, t, j, x1, ReconcileAmbiguous, x2);
    actions', x2 := FailsThere(s0, actions', base, t, j, x2, reachable);
    e := Put(base, t, j, x2);
  }

  lemma UnverifiedRestores(s0: State, actions: seq<Action>, base: State, t: Token, j: nat, x: Stage, reachable: bool, agrees: bool)
    returns (actions': seq<Action>, e: State)
    requires Owns(base, t, j, x) && Leads(s0, actions, Put(base, t, j, x)) && x.w.pc == Awaiting && x.w.reply == Some(true)
    requires x.l.tx.None? && Owned(x.job.state) && x.l.pointer.release == x.job.release && x.exposed == [j]
    ensures actions' == actions + Unverified(t, reachable) + Restore(t, agrees) && Leads(s0, actions', e)
    ensures e.jobs == base.jobs[j := Over(x.job, AfterRestore(agrees))] && e.succeeded == base.succeeded && e.exposed == []
    ensures e.leadership == x.l.(pointer := Pointer(x.job.parent, x.l.pointer.generation + 1), restored := x.l.restored + {j})
  {
    hide Leads, Goes, SlotFree;
    var x1;
    actions', x1 := HearsAndVerifies(s0, actions, base, t, j, x);
    Throws(base, t, j, x1);
    var x2 := x1.(w := x1.w.(pc := Catching));
    actions' := Take(s0, actions', base, t, j, x1, Fail, x2);
    actions', x2 := FailsThere(s0, actions', base, t, j, x2, reachable);
    actions', e := RestoresFrom(s0, actions', base, t, j, x2, agrees);
  }

  lemma HearsAndVerifies(s0: State, actions: seq<Action>, base: State, t: Token, j: nat, x: Stage)
    returns (actions': seq<Action>, x': Stage)
    requires Owns(base, t, j, x) && Leads(s0, actions, Put(base, t, j, x)) && x.w.pc == Awaiting && x.w.reply == Some(true)
    requires Owned(x.job.state) && x.l.pointer.release == x.job.release
    ensures actions' == actions + [Work(t, ReceiveReply), Work(t, CheckPromotion), Work(t, RecordVerifying)]
    ensures x' == x.(job := x.job.(state := Verifying), w := x.w.(pc := Probing, promotionStateKnown := true, promoted := true))
    ensures Leads(s0, actions', Put(base, t, j, x')) && Owns(base, t, j, x')
  {
    hide Leads, Goes, SlotFree;
    Hears(base, t, j, x);
    var x1 := x.(w := x.w.(pc := Checking, promotionStateKnown := true, promoted := true));
    actions' := Take(s0, actions, base, t, j, x, ReceiveReply, x1);
    actions', x' := Verifies(s0, actions', base, t, j, x1);
  }

  /** Undisturbed: the oldest request, made over the official release, is published. */
  lemma PublicationSucceeds(start: State, before: seq<Action>, j: nat, jsNow: int, clock: int, validated: bool) returns (e: State)
    requires Waiting(start, before, j) && OnBase(Run(start, before), j) && InTime(Run(start, before), jsNow, clock)
    ensures var s := Run(start, before); var t := s.nextToken;
      && Leads(s, ToCommit(s, jsNow, clock, validated) + [CommitDecision(true)] + [Work(t, ReceiveReply)] + Finish(t), e)
      && Published(s, j, e)
  {
    Waits(start, before, j);
    var s := Run(start, before);
    Unpromoted(s, j);
    hide Inv, Leads, Waiting, Goes, SlotFree;
    var q, x := CommitTaken(s, j, jsNow, clock, validated);
    var actions;
    actions, e := HearsAndFinishes(s, ToCommit(s, jsNow, clock, validated) + [CommitDecision(true)], Next(q), s.nextToken, j, x);
  }

  /** The reply of a COMMIT that took effect is lost: the pointer is read, and the job is published. */
  lemma LostReplySucceeds(start: State, before: seq<Action>, j: nat, jsNow: int, clock: int, validated: bool) returns (e: State)
    requires Waiting(start, before, j) && OnBase(Run(start, before), j) && InTime(Run(start, before), jsNow, clock)
    ensures var s := Run(start, before); var t := s.nextToken;
      && Leads(s, ToCommit(s, jsNow, clock, validated) + [CommitDecision(true)]
                    + [Work(t, Fail), Work(t, ReconcileAmbiguous)] + Finish(t), e)
      && Published(s, j, e)
  {
    Waits(start, before, j);
    var s := Run(start, before);
    Unpromoted(s, j);
    hide Inv, Leads, Waiting, Goes, SlotFree;
    var q, x := CommitTaken(s, j, jsNow, clock, validated);
    var actions;
    actions, e := RereadsAndFinishes(s, ToCommit(s, jsNow, clock, validated) + [CommitDecision(true)], Next(q), s.nextToken, j, x);
  }

  /** The job is over without success, and Leadership is as it was. */
  predicate EndsAs(s: State, j: nat, state: JobState, e: State) {
    && j < |s.jobs| && e.jobs == s.jobs[j := Over(s.jobs[j], state)]
    && e.leadership == s.leadership.(tx := None) && e.succeeded == s.succeeded && e.exposed == []
  }

  /** COMMIT has no effect: the pointer is read, and the job is FAILED. */
  lemma RefusedCommitFails(start: State, before: seq<Action>, j: nat, jsNow: int, clock: int, validated: bool, reachable: bool)
    returns (e: State)
    requires Waiting(start, before, j) && OnBase(Run(start, before), j) && InTime(Run(start, before), jsNow, clock)
    ensures var s := Run(start, before); var t := s.nextToken;
      && Leads(s, ToCommit(s, jsNow, clock, validated) + [CommitDecision(false)] + Refused(t, reachable), e)
      && EndsAs(s, j, Failed, e)
  {
    Waits(start, before, j);
    var s := Run(start, before);
    Unpromoted(s, j);
    NotOnPointer(s, j);
    hide Inv, Leads, Waiting, Goes, SlotFree;
    var q, sent := CommitIssued(s, j, jsNow, clock, validated);
    var actions := Commits(s, ToCommit(s, jsNow, clock, validated), Next(q), s.nextToken, j, sent, false);
    actions, e := RefusedAndFails(s, actions, Next(q), s.nextToken, j, Committed(sent, j, false), reachable);
  }

  lemma FailsThere(s0: State, actions: seq<Action>, base: State, t: Token, j: nat, x: Stage, reachable: bool)
    returns (actions': seq<Action>, x': Stage)
    requires Owns(base, t, j, x) && Leads(s0, actions, Put(base, t, j, x)) && x.w.pc == Catching && !StateUnknown(x.w)
    requires if x.w.promoted then PointerPhase(x.job.state) else Owned(x.job.state)
    ensures actions' == actions + [Work(t, CatchReconciliation(reachable)), Work(t, CatchBranch)]
    ensures x' == if x.w.promoted then x.(job := x.job.(state := RecoveryRequired), w := x.w.(pc := RestoreReading))
                  else x.(job := Over(x.job, Failed), w := x.w.(pc := Exited))
    ensures Leads(s0, actions', Put(base, t, j, x'))
  {
    hide Leads, Goes, SlotFree;
    Catches(base, t, j, x, reachable);
    var x1 := x.(w := x.w.(pc := Deciding));
    actions' := Take(s0, actions, base, t, j, x, CatchReconciliation(reachable), x1);
    Ends(base, t, j, x1);
    x' := if x.w.promoted then x.(job := x.job.(state := RecoveryRequired), w := x.w.(pc := RestoreReading))
          else x.(job := Over(x.job, Failed), w := x.w.(pc := Exited));
    actions' := Take(s0, actions', base, t, j, x1, CatchBranch, x');
  }

  /** A request over another base: NEEDS_REFRESH, whatever the base is. */
  lemma ChangedBaseNeedsRefresh(start: State, before: seq<Action>, j: nat, jsNow: int) returns (e: State)
    requires Waiting(start, before, j) && !OnBase(Run(start, before), j)
    ensures var s := Run(start, before); var t := s.nextToken;
      && Leads(s, Clearing(s) + Begin(t, jsNow) + [Work(t, MarkPromoting)], e) && EndsAs(s, j, NeedsRefresh, e)
  {
    Waits(start, before, j);
    var s := Run(start, before);
    NotOnPointer(s, j);
    hide Inv, Leads, Waiting, Goes;
    var q := Cleared(s);
    var actions := Begins(s, Clearing(s), q, j, jsNow);
    var base, t, x := Next(q), s.nextToken, Seen(Fresh(q, j, jsNow));
    Refreshes(base, t, j, x);
    var x1 := x.(job := x.job.(state := NeedsRefresh, claimToken := None, lease := None), w := x.w.(pc := Exited));
    actions := Take(s, actions, base, t, j, x, MarkPromoting, x1);
    e := Put(base, t, j, x1);
  }

  lemma NotOnPointer(s: State, j: nat)
    requires Inv(s) && OldestRequest(s, j)
    ensures s.leadership.pointer.release != s.jobs[j].release && s.jobs[j].claimToken.None? && s.jobs[j].lease.None?
  {
    JobIsOk(s, j);
    hide Inv, InDoubt;
  }

  /** A restoration ends the job when the application agrees with it, else recovery is asked for. */
  function AfterRestore(agrees: bool): JobState {
    if agrees then Restored else RecoveryRequired
  }

  /** What a restoration leaves: the parent official again, two generations on. */
  predicate PutBack(s: State, j: nat, state: JobState, e: State) {
    && j < |s.jobs| && e.jobs == s.jobs[j := Over(s.jobs[j], state)]
    && e.leadership.pointer == Pointer(s.jobs[j].parent, s.jobs[j].expectedGeneration + 2) && e.leadership.tx.None?
    && e.succeeded == s.succeeded && e.exposed == [] && e.leadership.restored == s.leadership.restored + {j}
  }

  function Restore(t: Token, agrees: bool): seq<Action> {
    [Work(t, ReadForRestore), Work(t, RestoreRelease), Work(t, CheckRestoration(agrees)), Work(t, ConcludeRestoration)]
  }

  lemma RestoresFrom(s0: State, actions: seq<Action>, base: State, t: Token, j: nat, x: Stage, agrees: bool)
    returns (actions': seq<Action>, e: State)
    requires Owns(base, t, j, x) && Leads(s0, actions, Put(base, t, j, x)) && x.w.pc == RestoreReading && x.job.state == RecoveryRequired
    requires x.l.tx.None? && x.exposed == [j] && x.l.pointer.release == x.job.release
    ensures actions' == actions + Restore(t, agrees) && Leads(s0, actions', e)
    ensures e.jobs == base.jobs[j := Over(x.job, AfterRestore(agrees))] && e.succeeded == base.succeeded && e.exposed == []
    ensures e.leadership == x.l.(pointer := Pointer(x.job.parent, x.l.pointer.generation + 1), restored := x.l.restored + {j})
  {
    hide Leads, Goes, SlotFree;
    ReadsBack(base, t, j, x);
    var x1 := x.(w := x.w.(pc := RestoreReady, restoreGeneration := x.l.pointer.generation));
    actions' := Take(s0, actions, base, t, j, x, ReadForRestore, x1);
    PutsBack(base, t, j, x1);
    assert [j][1..] == [];
    var x2 := x1.(w := x1.w.(pc := RestoreIssued), exposed := [],
                  l := x1.l.(pointer := Pointer(x1.job.parent, x1.l.pointer.generation + 1), restored := x1.l.restored + {j}));
    actions' := Take(s0, actions', base, t, j, x1, RestoreRelease, x2);
    actions', e := ConcludesFrom(s0, actions', base, t, j, x2, agrees);
  }

  lemma ConcludesFrom(s0: State, actions: seq<Action>, base: State, t: Token, j: nat, x: Stage, agrees: bool)
    returns (actions': seq<Action>, e: State)
    requires Owns(base, t, j, x) && Leads(s0, actions, Put(base, t, j, x)) && x.w.pc == RestoreIssued && x.job.state == RecoveryRequired
    requires x.l.pointer.release == x.job.parent
    ensures actions' == actions + [Work(t, CheckRestoration(agrees)), Work(t, ConcludeRestoration)] && Leads(s0, actions', e)
    ensures e.jobs == base.jobs[j := Over(x.job, AfterRestore(agrees))] && e.succeeded == base.succeeded
    ensures e.exposed == x.exposed && e.leadership == x.l
  {
    hide Leads, Goes, SlotFree;
    Confirmed(base, t, j, x, agrees);
    var x1 := x.(w := x.w.(pc := if agrees then RestoreConfirmed else RestoreFailed));
    actions' := Take(s0, actions, base, t, j, x, CheckRestoration(agrees), x1);
    Concludes(base, t, j, x1);
    var x2 := x1.(job := Over(x1.job, AfterRestore(agrees)), w := x1.w.(pc := Exited));
    actions' := Take(s0, actions', base, t, j, x1, ConcludeRestoration, x2);
    e := Put(base, t, j, x2);
  }

  function Unverified(t: Token, reachable: bool): seq<Action> {
    [Work(t, ReceiveReply), Work(t, CheckPromotion), Work(t, RecordVerifying), Work(t, Fail),
     Work(t, CatchReconciliation(reachable)), Work(t, CatchBranch)]
  }

  /** A probe fails on the promoted release: the parent is put back, and the job is RESTORED
      when the application agrees; otherwise recovery is asked for. */
  lemma FailedProbeRestores(start: State, before: seq<Action>, j: nat, jsNow: int, clock: int, validated: bool, reachable: bool, agrees: bool)
    returns (e: State)
    requires Waiting(start, before, j) && OnBase(Run(start, before), j) && InTime(Run(start, before), jsNow, clock)
    ensures var s := Run(start, before); var t := s.nextToken;
      && Leads(s, ToCommit(s, jsNow, clock, validated) + [CommitDecision(true)] + Unverified(t, reachable) + Restore(t, agrees), e)
      && PutBack(s, j, if agrees then Restored else RecoveryRequired, e)
  {
    Waits(start, before, j);
    var s := Run(start, before);
    Unpromoted(s, j);
    hide Inv, Leads, Waiting, Goes, SlotFree;
    var q, x := CommitTaken(s, j, jsNow, clock, validated);
    var actions;
    actions, e := UnverifiedRestores(s, ToCommit(s, jsNow, clock, validated) + [CommitDecision(true)], Next(q), s.nextToken, j, x,
                                     reachable, agrees);
  }

  function Unread(t: Token): seq<Action> {
    [Work(t, Fail), Work(t, Fail), Work(t, CatchReconciliation(false)), Work(t, CatchBranch)]
  }

  lemma UnreadEnds(s0: State, actions: seq<Action>, base: State, t: Token, j: nat, x: Stage) returns (actions': seq<Action>, e: State)
    requires Owns(base, t, j, x) && Leads(s0, actions, Put(base, t, j, x)) && x.w.pc == Awaiting && x.l.tx.None?
    requires Owned(x.job.state) && StateUnknown(x.w) && !x.w.promoted
    ensures actions' == actions + Unread(t) && Leads(s0, actions', e)
    ensures e.jobs == base.jobs[j := Over(x.job, RecoveryRequired)] && e.leadership == x.l && e.succeeded == base.succeeded
  {
    hide Leads, Goes, SlotFree;
    Throws(base, t, j, x);
    var x1 := x.(w := x.w.(pc := InnerCatch));
    actions' := Take(s0, actions, base, t, j, x, Fail, x1);
    Throws(base, t, j, x1);
    var x2 := x1.(w := x1.w.(pc := Catching));
    actions' := Take(s0, actions', base, t, j, x1, Fail, x2);
    StaysUnknown(base, t, j, x2);
    var x3 := x2.(w := x2.w.(pc := Deciding));
    actions' := Take(s0, actions', base, t, j, x2, CatchReconciliation(false), x3);
    EndsUnknown(base, t, j, x3);
    var x4 := x3.(job := Over(x3.job, RecoveryRequired), w := x3.w.(pc := Exited));
    actions' := Take(s0, actions', base, t, j, x3, CatchBranch, x4);
    e := Put(base, t, j, x4);
  }

  /** Leadership cannot be reached after the COMMIT was sent, whether or not it took effect:
      recovery is asked for, and nothing is moved. */
  lemma UnreadableNeedsRecovery(start: State, before: seq<Action>, j: nat, jsNow: int, clock: int, validated: bool, ok: bool)
    returns (e: State)
    requires Waiting(start, before, j) && OnBase(Run(start, before), j) && InTime(Run(start, before), jsNow, clock)
    ensures var s := Run(start, before); var t := s.nextToken;
      && Leads(s, ToCommit(s, jsNow, clock, validated) + [CommitDecision(ok)] + Unread(t), e)
      && j < |s.jobs| && e.jobs == s.jobs[j := Over(s.jobs[j], RecoveryRequired)] && e.succeeded == s.succeeded
      && e.leadership.tx.None?
      && e.leadership.pointer == if ok then Pointer(s.jobs[j].release, s.leadership.pointer.generation + 1) else s.leadership.pointer
  {
    Waits(start, before, j);
    var s := Run(start, before);
    Unpromoted(s, j);
    NotOnPointer(s, j);
    hide Inv, Leads, Waiting, Goes, SlotFree;
    var q, sent := CommitIssued(s, j, jsNow, clock, validated);
    var actions := Commits(s, ToCommit(s, jsNow, clock, validated), Next(q), s.nextToken, j, sent, ok);
    actions, e := UnreadEnds(s, actions, Next(q), s.nextToken, j, Committed(sent, j, ok));
  }

  function Unfinished(t: Token): seq<Action> {
    [Work(t, CheckPromotion), Work(t, RecordVerifying), Work(t, RuntimeVerified), Work(t, Fail), Work(t, SuppressRestoration)]
  }

  lemma VerifiedAndGivenBack(s0: State, actions: seq<Action>, base: State, t: Token, j: nat, x: Stage)
    returns (actions': seq<Action>, e: State)
    requires Owns(base, t, j, x) && Leads(s0, actions, Put(base, t, j, x)) && x.w.pc == Awaiting && x.w.reply == Some(true)
    requires Owned(x.job.state) && x.l.pointer.release == x.job.release && x.l.tx.None?
    ensures actions' == actions + [Work(t, ReceiveReply)] + Unfinished(t) && Leads(s0, actions', e)
    ensures e.jobs == base.jobs[j := Over(x.job, Verifying)] && e.leadership == x.l && e.succeeded == base.succeeded
  {
    hide Leads, Goes, SlotFree;
    var x1;
    actions', x1 := HearsAndVerifies(s0, actions, base, t, j, x);
    Probes(base, t, j, x1);
    var x2 := x1.(w := x1.w.(pc := Finalizing, runtimeVerified := true));
    actions' := Take(s0, actions', base, t, j, x1, RuntimeVerified, x2);
    Throws(base, t, j, x2);
    var x3 := x2.(w := x2.w.(pc := CatchVerified));
    actions' := Take(s0, actions', base, t, j, x2, Fail, x3);
    GivesBack(base, t, j, x3);
    var x4 := x3.(job := Over(x3.job, Verifying), w := x3.w.(pc := Exited));
    actions' := Take(s0, actions', base, t, j, x3, SuppressRestoration, x4);
    e := Put(base, t, j, x4);
  }

  /** The finalisation of a verified release throws: it stays official, and the job is
      VERIFYING without a claim, for the next publisher to finish. */
  lemma FailedFinalisationStays(start: State, before: seq<Action>, j: nat, jsNow: int, clock: int, validated: bool) returns (e: State)
    requires Waiting(start, before, j) && OnBase(Run(start, before), j) && InTime(Run(start, before), jsNow, clock)
    ensures var s := Run(start, before); var t := s.nextToken;
      && Leads(s, ToCommit(s, jsNow, clock, validated) + [CommitDecision(true)] + [Work(t, ReceiveReply)] + Unfinished(t), e)
      && j < |s.jobs| && e.jobs == s.jobs[j := Over(s.jobs[j], Verifying)] && e.succeeded == s.succeeded
      && e.leadership.pointer == Pointer(s.jobs[j].release, s.leadership.pointer.generation + 1) && e.leadership.tx.None?
  {
    Waits(start, before, j);
    var s := Run(start, before);
    Unpromoted(s, j);
    hide Inv, Leads, Waiting, Goes, SlotFree;
    var q, x := CommitTaken(s, j, jsNow, clock, validated);
    var actions;
    actions, e := VerifiedAndGivenBack(s, ToCommit(s, jsNow, clock, validated) + [CommitDecision(true)], Next(q), s.nextToken, j, x);
  }

  // ----- a publisher that died after COMMIT -----

  /** The job was promoted, nobody holds a live lease on it, and nothing else is in flight or older. */
  predicate Abandoned(s: State, j: nat, jsNow: int) {
    && j < |s.jobs| && PointerPhase(s.jobs[j].state) && OnCandidate(s, j)
    && (s.jobs[j].lease.Some? ==> s.jobs[j].lease.value < s.now && s.jobs[j].lease.value <= jsNow)
    && (forall i :: 0 <= i < |s.jobs| && i != j ==> !InFlight(s.jobs[i].state))
    && (forall i :: 0 <= i < j ==> s.jobs[i].state != Requested)
  }

  lemma FindsAbandoned(s: State, j: nat, jsNow: int)
    requires Abandoned(s, j, jsNow)
    ensures FirstEligible(s.jobs, s.now, 0) == Some(j) && !ClaimBlocked(s.jobs, jsNow) && SlotFree(s.jobs, j)
  {
    var c := FirstEligible(s.jobs, s.now, 0);
    assert Eligible(s.jobs[j], s.now);
    assert c.Some? && c.value <= j;
    assert Eligible(s.jobs[c.value], s.now);
  }

  lemma AbandonedFacts(s: State, j: nat, jsNow: int)
    requires Inv(s) && Abandoned(s, j, jsNow)
    ensures j < |s.jobs| && s.jobs[j].state != Requested && s.jobs[j].release != s.jobs[j].parent && s.leadership.tx.None?
  {
    JobIsOk(s, j);
    hide Inv, InDoubt;
  }

  function Taken(s: State, j: nat, jsNow: int): Stage
    requires j < |s.jobs|
  {
    Stage(s.jobs[j].(claimToken := Some(s.nextToken), lease := Some(s.now + LEASE_MS)), NewWorker(j, jsNow), s.leadership, s.exposed)
  }

  lemma ClaimsAbandoned(s0: State, actions: seq<Action>, s: State, j: nat, jsNow: int) returns (actions': seq<Action>)
    requires Leads(s0, actions, s) && Inv(s) && Abandoned(s, j, jsNow)
    ensures actions' == actions + [ClaimJob(jsNow)]
    ensures Leads(s0, actions', Put(Next(s), s.nextToken, j, Taken(s, j, jsNow)))
    ensures Owns(Next(s), s.nextToken, j, Taken(s, j, jsNow)) && s.leadership.tx.None?
  {
    AbandonedFacts(s, j, jsNow);
    FindsAbandoned(s, j, jsNow);
    hide Inv, Leads, Abandoned, SlotFree, ClaimBlocked;
    actions' := Then(s0, actions, s, ClaimJob(jsNow));
    assert Apply(s, ClaimJob(jsNow)) == Put(Next(s), s.nextToken, j, Taken(s, j, jsNow));
  }

  function Resume(t: Token): seq<Action> {
    [Work(t, StartAttempt), Work(t, LoadCandidate), Work(t, ReconcileReclaimed), Work(t, ObservePointer),
     Work(t, MarkPromoting), Work(t, ChooseBranch)]
  }

  lemma Resumes(s0: State, actions: seq<Action>, base: State, t: Token, j: nat, x: Stage) returns (actions': seq<Action>, x': Stage)
    requires Owns(base, t, j, x) && Leads(s0, actions, Put(base, t, j, x)) && x.w.pc == Started
    requires PointerPhase(x.job.state) && x.l.tx.None? && x.l.pointer.release == x.job.release
    ensures actions' == actions + Resume(t) && Leads(s0, actions', Put(base, t, j, x')) && Owns(base, t, j, x')
    ensures x' == x.(w := x'.w) && x'.w.pc == Checking
  {
    hide Leads, Goes, SlotFree;
    Starts(base, t, j, x);
    var x1 := x.(w := x.w.(pc := Loaded, loadedState := x.job.state));
    actions' := Take(s0, actions, base, t, j, x, StartAttempt, x1);
    Loads(base, t, j, x1);
    var x2 := x1.(w := x1.w.(pc := Reconciling, promotionAttempted := true, promotionStateKnown := false));
    actions' := Take(s0, actions', base, t, j, x1, LoadCandidate, x2);
    Reconciles(base, t, j, x2);
    var x3 := x2.(w := x2.w.(pc := Ready, promotionStateKnown := true, promoted := true));
    actions' := Take(s0, actions', base, t, j, x2, ReconcileReclaimed, x3);
    actions', x' := LooksAgain(s0, actions', base, t, j, x3);
  }

  lemma LooksAgain(s0: State, actions: seq<Action>, base: State, t: Token, j: nat, x: Stage) returns (actions': seq<Action>, x': Stage)
    requires Owns(base, t, j, x) && Leads(s0, actions, Put(base, t, j, x)) && x.w.pc == Ready && x.w.loadedState == x.job.state
    requires PointerPhase(x.job.state) && x.l.pointer.release == x.job.release
    ensures actions' == actions + [Work(t, ObservePointer), Work(t, MarkPromoting), Work(t, ChooseBranch)]
    ensures Leads(s0, actions', Put(base, t, j, x')) && Owns(base, t, j, x') && x' == x.(w := x'.w) && x'.w.pc == Checking
  {
    hide Leads, Goes, SlotFree;
    Observes(base, t, j, x);
    var x1 := x.(w := x.w.(pc := Observed, before := x.l.pointer, promoted := true));
    actions' := Take(s0, actions, base, t, j, x, ObservePointer, x1);
    if x.job.state == Verifying { Passes(base, t, j, x1); } else { Marks(base, t, j, x1); }
    var x2 := x1.(w := x1.w.(pc := Marked));
    actions' := Take(s0, actions', base, t, j, x1, MarkPromoting, x2);
    Chooses(base, t, j, x2);
    x' := x2.(w := x2.w.(pc := Checking));
    actions' := Take(s0, actions', base, t, j, x2, ChooseBranch, x');
  }

  /** A promoted job whose publisher is gone is claimed again, and published. */
  lemma AbandonedIsFinished(start: State, before: seq<Action>, j: nat, jsNow: int) returns (e: State)
    requires Init(start) && CanRun(start, before) && GrantedRun(start, before) && Abandoned(Run(start, before), j, jsNow)
    ensures var s := Run(start, before); var t := s.nextToken;
      && Leads(s, [ClaimJob(jsNow)] + Resume(t) + Finish(t), e)
      && e.jobs == s.jobs[j := Over(s.jobs[j], Succeeded)] && e.leadership == s.leadership
      && e.succeeded == s.succeeded + [j] && e.exposed == []
  {
    InitKeeps(start);
    RunKeeps(start, before);
    var s := Run(start, before);
    hide Inv, Leads, Goes, SlotFree, Init, CanRun, GrantedRun, Run;
    var actions := Nothing(s);
    actions := ClaimsAbandoned(s, actions, s, j, jsNow);
    assert [] + [ClaimJob(jsNow)] == [ClaimJob(jsNow)];
    var x := Taken(s, j, jsNow);
    actions, x := Resumes(s, actions, Next(s), s.nextToken, j, x);
    actions, e := Finishes(s, actions, Next(s), s.nextToken, j, x);
  }

  // ----- recovery -----

  /** The parent is official again, no COMMIT of the job is in doubt, and nobody holds a live lease on it. */
  predicate Recoverable(s: State, j: nat, jsNow: int) {
    && j < |s.jobs| && s.jobs[j].state == RecoveryRequired && s.leadership.pointer.release == s.jobs[j].parent
    && !InDoubt(s.leadership, s.now, j)
    && (s.jobs[j].claimToken.Some? && s.jobs[j].lease.Some? ==> s.jobs[j].lease.value < jsNow)
  }

  function Recover(r: nat, j: nat, jsNow: int): seq<Action> {
    [ListRecovery(r, j), SeeParent(r), TakeRecovery(r, jsNow), FinishRecovery(r)]
  }

  /** One pass of the recovery loop closes the job as RESTORED and leaves Leadership alone. */
  lemma RecoveryConcludes(s: State, r: nat, j: nat, jsNow: int) returns (e: State)
    requires Recoverable(s, j, jsNow) && r !in s.reconcilers
    ensures Leads(s, Recover(r, j, jsNow), e)
    ensures e.jobs == s.jobs[j := Over(s.jobs[j], Restored)] && e.leadership == s.leadership && e.succeeded == s.succeeded
  {
    hide Leads, InDoubt;
    var actions := Nothing(s);
    actions := Then(s, actions, s, ListRecovery(r, j));
    e := Apply(s, ListRecovery(r, j));
    actions := Then(s, actions, e, SeeParent(r));
    e := Apply(e, SeeParent(r));
    actions := Then(s, actions, e, TakeRecovery(r, jsNow));
    e := Apply(e, TakeRecovery(r, jsNow));
    actions := Then(s, actions, e, FinishRecovery(r));
    e := Apply(e, FinishRecovery(r));
    assert actions == Recover(r, j, jsNow);
  }
}
