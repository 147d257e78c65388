/** What an editor is shown of a review (apps/web/src/server/review-status.ts) and
    the rules the page demands of it (apps/web/src/review-status-contract.ts). */
module ReviewStatus {
  import opened Common
  import Ordering
  import opened Text
  import R = ReviewChain

  const MAX_STAGE_TOTAL: nat := 24
  const ATTEMPT_LIMIT: nat := 100

  /** AgentFailureClass, and the failure code of the job row. */
  datatype FailureClass = ProviderCapacity | ProviderTransient | ProviderAuth | OutputInvalid | Application | CancelledClass
  datatype JobFailure = Capacity | Transient | Authentication | InvalidOutput | ApplicationFailure | CancelledFailure | OtherFailure

  /** failureReasonCode, if it is one of the public ones. */
  datatype Reason =
    | CapacityReason | TransientReason | AuthenticationReason | OutputInvalidReason | MetadataInvalid | CandidateInvalid
    | FindingReferenceInvalid | AuditRevise | MaterializationFailed | EvidenceFailed | InputInvalid | DeadlineExceeded
    | ApplicationReason

  datatype Run = Run(attempt: nat, failureClass: Option<FailureClass>, retryable: Option<bool>)

  /** `runs` holds the latest run only. */
  datatype Row = Row(ordinal: nat, role: string, state: R.StepState, runs: seq<Run>)

  datatype Record = Record(
    state: R.JobState, laneOwner: bool, retryNotBefore: Option<int>, failureCode: Option<JobFailure>,
    failureReason: Option<Reason>, failureOrdinal: Option<nat>, failureRole: Option<string>,
    proposal: bool, steps: seq<Row>)

  // ----- the snapshot -----

  datatype Lane = Focused | Waiting | Released
  datatype StageView = StageView(ordinal: nat, state: R.StepState)
  datatype CurrentView = CurrentView(ordinal: nat, code: string, state: R.StepState, attempt: Option<nat>)
  datatype RetryView = RetryView(ordinal: nat, failureClass: FailureClass, attempt: nat, maximumAttempts: nat, scheduledAt: int)
  datatype TerminalView = TerminalView(state: R.JobState, failureClass: Option<FailureClass>)
  datatype FailedStage = FailedStage(ordinal: nat, code: string)
  datatype FailureView = FailureView(failureClass: FailureClass, reason: Reason, stage: Option<FailedStage>)

  datatype Snapshot = Snapshot(
    state: R.JobState, completedStages: nat, totalStages: nat, stages: seq<StageView>, current: Option<CurrentView>,
    lane: Lane, retry: Option<RetryView>, terminal: Option<TerminalView>, failure: Option<FailureView>, proposalReady: bool)

  // ----- building it -----

  function Find(steps: seq<Row>, p: Row -> bool, from: nat := 0): (k: Option<nat>)
    requires from <= |steps|
    ensures k.Some? ==> from <= k.value < |steps| && p(steps[k.value])
    ensures forall i :: from <= i < (if k.Some? then k.value else |steps|) ==> !p(steps[i])
    decreases |steps| - from
  {
    if from == |steps| then None else if p(steps[from]) then Some(from) else Find(steps, p, from + 1)
  }

  function OrElse<T>(a: Option<T>, b: Option<T>): Option<T> {
    if a.Some? then a else b
  }

  function LastClass(row: Row): Option<FailureClass> {
    if row.runs == [] then None else row.runs[0].failureClass
  }

  predicate WaitsForRetry(row: Row) {
    row.state == R.Ready && row.runs != [] && row.runs[0].retryable == Some(true) && row.runs[0].failureClass.Some?
  }

  function RetryingStep(r: Record, steps: seq<Row>): (k: Option<nat>)
    ensures k.Some? ==> k.value < |steps|
  {
    if r.state == R.Queued && r.retryNotBefore.Some? then Find(steps, WaitsForRetry) else None
  }

  function CurrentStep(r: Record, steps: seq<Row>): (k: Option<nat>)
    ensures k.Some? ==> k.value < |steps|
  {
    OrElse(Find(steps, (row: Row) => row.state == R.Executing),
      OrElse(RetryingStep(r, steps),
        OrElse(Find(steps, (row: Row) => row.state == R.Broken),
          Find(steps, (row: Row) => row.state == R.Ready || row.state == R.Pending || row.state == R.Dropped))))
  }

  function JobFailureClass(code: Option<JobFailure>): Option<FailureClass> {
    match code
    case Some(Capacity) => Some(ProviderCapacity)
    case Some(Transient) => Some(ProviderTransient)
    case Some(Authentication) => Some(ProviderAuth)
    case Some(InvalidOutput) => Some(OutputInvalid)
    case Some(ApplicationFailure) => Some(Application)
    case Some(CancelledFailure) => Some(CancelledClass)
    case _ => None
  }

  function DefaultReason(c: FailureClass): Reason {
    match c
    case ProviderCapacity => CapacityReason
    case ProviderTransient => TransientReason
    case ProviderAuth => AuthenticationReason
    case OutputInvalid => OutputInvalidReason
    case _ => ApplicationReason
  }

  function FailureStage(r: Record, steps: seq<Row>): Option<FailedStage> {
    var k := CurrentStep(r, steps);
    var ordinal := OrElse(r.failureOrdinal, if k.Some? then Some(steps[k.value].ordinal) else None);
    var role := OrElse(r.failureRole, if k.Some? then Some(steps[k.value].role) else None);
    if ordinal.Some? && role.Some? && 1 <= ordinal.value <= |steps| && IsSlug(role.value)
    then Some(FailedStage(ordinal.value, role.value)) else None
  }

  function TerminalClass(r: Record, steps: seq<Row>): Option<FailureClass> {
    var failed := Find(steps, (row: Row) => row.state == R.Broken);
    OrElse(if failed.Some? then LastClass(steps[failed.value]) else None, JobFailureClass(r.failureCode))
  }

  function RetryClass(r: Record, steps: seq<Row>): Option<FailureClass> {
    var k := RetryingStep(r, steps);
    if k.Some? then LastClass(steps[k.value]) else None
  }

  function ShownClass(r: Record, steps: seq<Row>): Option<FailureClass> {
    OrElse(RetryClass(r, steps), OrElse(TerminalClass(r, steps), if r.state == R.Failed then Some(Application) else None))
  }

  predicate TerminalState(st: R.JobState) {
    st == R.Succeeded || st == R.Failed || st == R.Cancelled
  }

  function CountDone(stages: seq<StageView>): nat {
    if stages == [] then 0
    else CountDone(stages[..|stages| - 1]) + if stages[|stages| - 1].state == R.Done then 1 else 0
  }

  function ViewOf(steps: seq<Row>): (v: seq<StageView>)
    ensures |v| == |steps| && forall i :: 0 <= i < |v| ==> v[i] == StageView(steps[i].ordinal, steps[i].state)
  {
    seq(|steps|, i requires 0 <= i < |steps| => StageView(steps[i].ordinal, steps[i].state))
  }

  function ByOrdinal(steps: seq<Row>): seq<Row> {
    Ordering.Sort((a: Row, b: Row) => a.ordinal < b.ordinal, steps)
  }

  function Current(r: Record, steps: seq<Row>): Option<CurrentView> {
    var k := CurrentStep(r, steps);
    if k.None? then None
    else
      var row := steps[k.value];
      var shown := row.state == R.Executing || row.state == R.Broken || k == RetryingStep(r, steps);
      Some(CurrentView(row.ordinal, row.role, row.state,
                       if shown && row.runs != [] then Some(row.runs[0].attempt) else None))
  }

  /** buildReviewStatusSnapshot up to the schema's verdict. */
  function Project(r: Record): Snapshot {
    var steps := ByOrdinal(r.steps);
    var retrying := RetryingStep(r, steps);
    var retryClass := RetryClass(r, steps);
    var shown := ShownClass(r, steps);
    Snapshot(
      r.state, CountDone(ViewOf(steps)), |steps|, ViewOf(steps), Current(r, steps),
      if r.state == R.Running || r.laneOwner then Focused else if r.state == R.Queued then Waiting else Released,
      if retrying.Some? && retryClass.Some? && r.retryNotBefore.Some? && steps[retrying.value].runs != []
      then Some(RetryView(steps[retrying.value].ordinal, retryClass.value, steps[retrying.value].runs[0].attempt, 3, r.retryNotBefore.value))
      else None,
      if TerminalState(r.state)
      then Some(TerminalView(r.state, if r.state == R.Failed then TerminalClass(r, steps) else None)) else None,
      if shown.Some?
      then Some(FailureView(shown.value, if r.failureReason.Some? then r.failureReason.value else DefaultReason(shown.value),
                            FailureStage(r, steps)))
      else None,
      r.proposal)
  }

  // ----- the contract of the page -----

  predicate OrdinalOk(n: nat) {
    1 <= n <= MAX_STAGE_TOTAL
  }

  predicate CodeOk(s: string) {
    |s| <= 100 && IsSlug(s)
  }

  predicate AttemptOk(n: nat) {
    1 <= n <= ATTEMPT_LIMIT
  }

  /** The ranges of the schema. */
  predicate InRange(s: Snapshot) {
    && s.totalStages in {4, 22, 24}
    && (forall i :: 0 <= i < |s.stages| ==> OrdinalOk(s.stages[i].ordinal))
    && s.completedStages <= MAX_STAGE_TOTAL
    && (s.current.Some? ==>
          && OrdinalOk(s.current.value.ordinal) && CodeOk(s.current.value.code)
          && (s.current.value.attempt.Some? ==> AttemptOk(s.current.value.attempt.value)))
    && (s.retry.Some? ==>
          OrdinalOk(s.retry.value.ordinal) && AttemptOk(s.retry.value.attempt) && AttemptOk(s.retry.value.maximumAttempts))
    && (s.failure.Some? && s.failure.value.stage.Some? ==>
          OrdinalOk(s.failure.value.stage.value.ordinal) && CodeOk(s.failure.value.stage.value.code))
  }

  /** The refinement rules of reviewStatusSnapshotSchema. */
  predicate Refined(s: Snapshot) {
    && |s.stages| == s.totalStages && |set i | 0 <= i < |s.stages| :: s.stages[i].ordinal| == s.totalStages
    && CountDone(s.stages) == s.completedStages
    && (s.terminal.Some? <==> TerminalState(s.state))
    && (s.terminal.Some? ==> s.terminal.value.state == s.state)
    && (s.retry.Some? ==> s.state == R.Queued)
    && (s.state == R.Running ==> s.lane == Focused)
    && (TerminalState(s.state) ==> s.lane == Released)
    && (s.retry.Some? || s.state == R.Failed ==> s.failure.Some?)
  }

  predicate MeetsRules(s: Snapshot) {
    InRange(s) && Refined(s)
  }
}
