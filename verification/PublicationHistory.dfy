/** The event log that the publisher writes beside its protocol
    (apps/publisher/src/index.ts). */
module PublicationHistory {
  import opened Common
  import opened PublicationStatus
  import P = PublicationProtocol

  /** The protocol, the events of every job, and the kinds of event each worker
      has written in transactions of their own. */
  datatype History = History(protocol: P.State, logs: seq<seq<Event>>, noted: map<P.Token, set<Kind>>)

  // ----- writing events -----

  function NextSequence(log: seq<Event>): (n: nat)
    ensures forall e :: e in log ==> e.sequence < n
  {
    if log == [] then 1
    else
      var before := NextSequence(log[..|log| - 1]);
      var last := log[|log| - 1];
      assert forall e :: e in log ==> e in log[..|log| - 1] || e == last;
      if last.sequence < before then before else last.sequence + 1
  }

  /** appendPublicationEvent: an event equal to one already there is not repeated. */
  function Append(log: seq<Event>, kind: Kind, payload: Payload): seq<Event> {
    if exists e :: e in log && e.kind == kind && e.payload == payload then log
    else log + [Event(NextSequence(log), kind, payload)]
  }

  function AppendAll(log: seq<Event>, kinds: seq<Kind>, payload: Kind -> Payload): seq<Event>
    decreases |kinds|
  {
    if kinds == [] then log else AppendAll(Append(log, kinds[0], payload(kinds[0])), kinds[1..], payload)
  }

  /** The events in the same transaction as a step of a worker. */
  function StepKinds(s: P.State, t: P.Token, step: P.Step): seq<Kind>
    requires P.Running(s, t)
  {
    var w := s.workers[t];
    var job := s.jobs[w.job];
    match step
    case MarkPromoting => if P.Authority(s, t) && P.BaseChanged(job, w.before) then [Conflicted] else []
    case RecordConflict => if P.Authority(s, t) then [Conflicted] else []
    case FinalizeSuccess(fenced) =>
      if fenced || !P.Live(s, t) || job.state != P.Verifying then [] else [Verified, SucceededEvent]
    case CatchBranch =>
      if w.promoted then if P.Live(s, t) && P.PointerPhase(job.state) then [RestoreStarted] else []
      else if !(P.Live(s, t) && (job.state == P.Requested || P.Owned(job.state))) then []
      else if P.StateUnknown(w) then [RecoveryEvent] else [FailedEvent]
    case ConcludeRestoration =>
      if !(P.Live(s, t) && job.state == P.RecoveryRequired) then []
      else if w.pc == P.RestoreConfirmed then [RestoredEvent] else [RecoveryEvent]
    case _ => []
  }

  function RecoveryKinds(s: P.State, r: nat): seq<Kind>
    requires P.Enabled(s, P.FinishRecovery(r))
  {
    var job := s.jobs[s.reconcilers[r].job];
    if job.state == P.RecoveryRequired && job.claimToken == Some(s.reconcilers[r].token) then [RestoredEvent] else []
  }

  /** This worker took the branch through the promotion. */
  predicate Promoted(s: P.State, t: P.Token)
    requires P.Running(s, t)
  {
    s.workers[t].before.release != s.jobs[s.workers[t].job].release
  }

  /** claimedEvent: what a worker writes next in a transaction of its own. */
  function NextNote(s: P.State, t: P.Token, noted: set<Kind>): Option<Kind>
    requires P.Running(s, t)
  {
    var w := s.workers[t];
    match w.pc
    case Ready =>
      if SnapshotBuilt !in noted then Some(SnapshotBuilt) else if Validated !in noted then Some(Validated) else None
    case Observed =>
      if PointerObserved !in noted && !P.BaseChanged(s.jobs[w.job], w.before) then Some(PointerObserved) else None
    case Checking => if ReleaseInserted !in noted && Promoted(s, t) then Some(ReleaseInserted) else None
    case Probing => if PointerAdvanced !in noted then Some(PointerAdvanced) else None
    case _ => None
  }

  function Noted(h: History, t: P.Token): set<Kind> {
    if t in h.noted then h.noted[t] else {}
  }

  /** The notes that come before a step in the program text. */
  predicate NotesWritten(s: P.State, t: P.Token, noted: set<Kind>, step: P.Step)
    requires P.Running(s, t)
  {
    match step
    case ObservePointer => SnapshotBuilt in noted && Validated in noted
    case MarkPromoting =>
      P.Authority(s, t) && !P.BaseChanged(s.jobs[s.workers[t].job], s.workers[t].before) ==> PointerObserved in noted
    case CheckPromotion => Promoted(s, t) ==> ReleaseInserted in noted
    case RuntimeVerified => PointerAdvanced in noted
    case _ => true
  }

  // ----- steps and runs -----

  datatype Action =
    | Do(step: P.Action, payload: Kind -> Payload)
    | Note(t: P.Token, clock: int, content: Payload)

  predicate Enabled(h: History, a: Action) {
    && |h.logs| == |h.protocol.jobs|
    && match a
       case Do(step, _) =>
         P.Enabled(h.protocol, step) && (step.Work? ==> NotesWritten(h.protocol, step.t, Noted(h, step.t), step.step))
       case Note(t, clock, _) =>
         && P.StepEnabled(h.protocol, t, P.RenewLease(clock)) && P.Authority(h.protocol, t)
         && NextNote(h.protocol, t, Noted(h, t)).Some?
  }

  function Wrote(logs: seq<seq<Event>>, j: nat, kinds: seq<Kind>, payload: Kind -> Payload): (r: seq<seq<Event>>)
    requires j < |logs|
    ensures |r| == |logs| && forall i :: 0 <= i < |logs| && i != j ==> r[i] == logs[i]
  {
    logs[j := AppendAll(logs[j], kinds, payload)]
  }

  function Apply(h: History, a: Action): History
    requires Enabled(h, a)
  {
    var s := h.protocol;
    match a
    case Do(step, payload) =>
      var h' := h.(protocol := P.Apply(s, step));
      (match step
       case Work(t, work) => h'.(logs := Wrote(h.logs, s.workers[t].job, StepKinds(s, t, work), payload))
       case RequestJob(_, _, _) => h'.(logs := h.logs + [AppendAll([], [RequestedEvent], payload)])
       case ClaimJob(_) => h'.(noted := h.noted[s.nextToken := {}])
       case FinishRecovery(r) => h'.(logs := Wrote(h.logs, s.reconcilers[r].job, RecoveryKinds(s, r), payload))
       case _ => h')
    case Note(t, clock, content) =>
      var kind := NextNote(s, t, Noted(h, t)).value;
      h.(protocol := P.Advance(s, t, P.RenewLease(clock)),
         logs := h.logs[s.workers[t].job := Append(h.logs[s.workers[t].job], kind, content)],
         noted := h.noted[t := Noted(h, t) + {kind}])
  }

  predicate Granted(h: History, a: Action)
    requires Enabled(h, a)
  {
    a.Do? ==> P.Granted(h.protocol, a.step)
  }

  predicate CanRun(h: History, actions: seq<Action>)
    decreases |actions|
  {
    actions == [] || (Enabled(h, actions[0]) && CanRun(Apply(h, actions[0]), actions[1..]))
  }

  function Run(h: History, actions: seq<Action>): History
    requires CanRun(h, actions)
    decreases |actions|
  {
    if actions == [] then h else Run(Apply(h, actions[0]), actions[1..])
  }

  predicate GrantedRun(h: History, actions: seq<Action>)
    requires CanRun(h, actions)
    decreases |actions|
  {
    actions == [] || (Granted(h, actions[0]) && GrantedRun(Apply(h, actions[0]), actions[1..]))
  }

  predicate Init(h: History) {
    P.Init(h.protocol) && h.logs == [] && h.noted == map[]
  }

  /** What the status page shows of job `j`; the failure code is any. */
  function Shown(h: History, j: nat, failureCode: Option<string>): Snapshot
    requires j < |h.protocol.jobs| && j < |h.logs|
  {
    Project(Record(h.protocol.jobs[j].state, failureCode, h.logs[j]))
  }
}
