/** What an editor is shown of a publication
    (apps/web/src/server/publication-status.ts) and the rules the page demands of
    it (apps/web/src/publication-status-contract.ts). */
module PublicationStatus {
  import opened Common
  import opened PublicationProtocol
  import Ordering

  const STAGE_TOTAL: nat := 5

  /** Rows of `publication_events`. */
  datatype Kind =
    | RequestedEvent | PointerObserved | Rebased | Conflicted | SnapshotBuilt | Validated | ReleaseInserted
    | PointerAdvanced | Verified | RestoreStarted | RestoredEvent | RecoveryEvent | SucceededEvent | FailedEvent

  datatype Reason = HttpStatus | IdentityMismatch | Unavailable | InvalidResponse
  datatype Detail = Detail(reason: Reason, attempts: nat, elapsedMs: nat, lastHttpStatus: Option<nat>)

  /** A field of a JSON payload: missing, not a failure detail, or one. */
  datatype Field = Missing | Malformed | Parsed(detail: Detail)

  /** `facts` stands for the other fields, which nothing here reads. */
  datatype Payload = NoObject | Object(facts: nat, failureDetail: Field, recoveryFailureDetail: Field)

  datatype Event = Event(sequence: nat, kind: Kind, payload: Payload)

  datatype Record = Record(state: JobState, failureCode: Option<string>, events: seq<Event>)

  // ----- the snapshot -----

  datatype StageKey = Starting | Building | Validating | Activation | Verification
  datatype StageState = StagePending | StageActive | StageComplete | StageFailed
  datatype Stage = Stage(ordinal: nat, key: StageKey, state: StageState)
  datatype Activity = Restoration | AtStage(key: StageKey, ordinal: nat)
  datatype Tone = Success | Warning | Fault
  datatype TerminalView = TerminalView(state: JobState, tone: Tone, title: string)

  datatype Snapshot = Snapshot(
    state: JobState, completedStages: nat, stages: seq<Stage>, currentStage: Option<Activity>,
    terminal: Option<TerminalView>, failure: Option<Detail>, recoveryFailure: Option<Detail>)

  const STAGE_KEYS: seq<StageKey> := [Starting, Building, Validating, Activation, Verification]

  // ----- reading the log -----

  predicate CarriesDetail(kind: Kind) {
    kind == RestoreStarted || kind == FailedEvent || kind == RecoveryEvent
  }

  function DetailOf(e: Event, recovery: bool): Option<Detail> {
    if !CarriesDetail(e.kind) || e.payload.NoObject? then None
    else
      var field := if recovery then e.payload.recoveryFailureDetail else e.payload.failureDetail;
      if field.Parsed? then Some(field.detail) else None
  }

  /** The detail of the latest event that has one. */
  function LatestDetail(events: seq<Event>, recovery: bool): (d: Option<Detail>)
    ensures d.Some? <==> exists e :: e in events && DetailOf(e, recovery).Some?
  {
    if events == [] then None
    else
      var last := events[|events| - 1];
      assert forall e :: e in events <==> e in events[..|events| - 1] || e == last;
      if DetailOf(last, recovery).Some? then DetailOf(last, recovery)
      else LatestDetail(events[..|events| - 1], recovery)
  }

  /** failureDetailFromEvents. */
  method FailureDetailFromEvents(events: seq<Event>, recovery: bool) returns (d: Option<Detail>)
    ensures d == LatestDetail(events, recovery)
  {
    assert events[..|events|] == events;
    for i := |events| downto 0
      invariant LatestDetail(events, recovery) == LatestDetail(events[..i], recovery)
    {
      var event := events[i];
      assert events[..i + 1][..i] == events[..i];
      if !CarriesDetail(event.kind) { continue; }
      if event.payload.NoObject? { continue; }
      var field := if recovery then event.payload.recoveryFailureDetail else event.payload.failureDetail;
      if field.Parsed? {
        return Some(field.detail);
      }
    }
    d := None;
  }

  function Kinds(events: seq<Event>): (r: set<Kind>)
    ensures forall e :: e in events ==> e.kind in r
    ensures forall k :: k in r ==> exists e :: e in events && e.kind == k
  {
    set e | e in events :: e.kind
  }

  // ----- completed stages -----

  /** The job has live content, or has had it. */
  predicate Activated(state: JobState) {
    state == Verifying || state == Restored || state == RecoveryRequired
  }

  /** Whether the first `k` stages are over. */
  predicate StageReached(k: nat, state: JobState, kinds: set<Kind>)
    requires 1 <= k <= STAGE_TOTAL
  {
    match k
    case 1 => state != Requested || PointerObserved in kinds || Conflicted in kinds
    case 2 => SnapshotBuilt in kinds || state == Promoting || Activated(state)
    case 3 => Validated in kinds || Activated(state)
    case 4 => PointerAdvanced in kinds || Activated(state)
    case 5 => Verified in kinds || state == Succeeded
  }

  /** The last stage that is over. */
  function Completed(state: JobState, kinds: set<Kind>): (n: nat)
    ensures n <= STAGE_TOTAL
    ensures n > 0 ==> StageReached(n, state, kinds)
    ensures forall k :: n < k <= STAGE_TOTAL ==> !StageReached(k, state, kinds)
  {
    if StageReached(5, state, kinds) then 5
    else if StageReached(4, state, kinds) then 4
    else if StageReached(3, state, kinds) then 3
    else if StageReached(2, state, kinds) then 2
    else if StageReached(1, state, kinds) then 1
    else 0
  }

  /** completedStageCount. */
  method CompletedStageCount(state: JobState, kinds: set<Kind>) returns (completed: nat)
    ensures completed == Completed(state, kinds)
  {
    if state == Succeeded {
      return STAGE_TOTAL;
    }
    completed := 0;
    if state != Requested || PointerObserved in kinds || Conflicted in kinds {
      completed := 1;
    }
    if SnapshotBuilt in kinds || state == Promoting || state == Verifying || state == Restored || state == RecoveryRequired {
      completed := 2;
    }
    if Validated in kinds || state == Verifying || state == Restored || state == RecoveryRequired {
      completed := 3;
    }
    if PointerAdvanced in kinds || state == Verifying || state == Restored || state == RecoveryRequired {
      completed := 4;
    }
    if Verified in kinds {
      completed := 5;
    }
  }

  // ----- building the snapshot -----

  function TerminalDetails(state: JobState, failureCode: Option<string>): Option<TerminalView> {
    match state
    case Succeeded => Some(TerminalView(state, Success, "Published"))
    case NeedsRefresh => Some(TerminalView(state, Warning, "Draft needs a refresh"))
    case Restored => Some(TerminalView(state, Warning, "Previous version restored"))
    case RecoveryRequired => Some(TerminalView(state, Fault, "Publication needs attention"))
    case Failed => Some(TerminalView(state, Fault,
      if failureCode == Some("PRACTICE_EMBED_MISMATCH") then "Practice embed does not match"
      else if failureCode == Some("PREPARED_ACTION_MISMATCH") then "Prepared action does not match"
      else if failureCode == Some("CANONICAL_SNAPSHOT_INVALID") then "Release validation failed"
      else "Publication failed"))
    case _ => None
  }

  function Sequenced(events: seq<Event>): seq<Event> {
    Ordering.Sort((a: Event, b: Event) => a.sequence < b.sequence, events)
  }

  function Cap(n: nat): nat {
    if n < STAGE_TOTAL then n else STAGE_TOTAL - 1
  }

  function StageStateAt(i: nat, completed: nat, failedAt: Option<nat>, activeAt: Option<nat>): StageState {
    if i < completed then StageComplete
    else if failedAt == Some(i) then StageFailed
    else if activeAt == Some(i) then StageActive
    else StagePending
  }

  function CountComplete(stages: seq<Stage>): nat {
    if stages == [] then 0
    else CountComplete(stages[..|stages| - 1]) + if stages[|stages| - 1].state == StageComplete then 1 else 0
  }

  function FailedAt(r: Record, completed: nat): Option<nat> {
    if TerminalDetails(r.state, r.failureCode).None? || r.state == Succeeded then None
    else if r.state == Restored || r.state == RecoveryRequired then Some(4)
    else Some(Cap(completed))
  }

  function ActiveAt(r: Record, completed: nat, restoring: bool): (i: Option<nat>)
    ensures i.Some? ==> i.value < STAGE_TOTAL
  {
    if TerminalDetails(r.state, r.failureCode).None? && !restoring then Some(Cap(completed)) else None
  }

  /** buildPublicationStatusSnapshot up to the schema's verdict. */
  function Project(r: Record): Snapshot {
    var events := Sequenced(r.events);
    var kinds := Kinds(events);
    var restoring := RestoreStarted in kinds;
    var completed := Completed(r.state, kinds);
    var activeAt := ActiveAt(r, completed, restoring);
    var stages := seq(STAGE_TOTAL, i requires 0 <= i < STAGE_TOTAL =>
                    Stage(i + 1, STAGE_KEYS[i], StageStateAt(i, completed, FailedAt(r, completed), activeAt)));
    Snapshot(
      r.state, CountComplete(stages), stages,
      if restoring then Some(Restoration)
      else if activeAt.Some? then Some(AtStage(STAGE_KEYS[activeAt.value], activeAt.value + 1))
      else None,
      TerminalDetails(r.state, r.failureCode),
      LatestDetail(events, false),
      if r.state == RecoveryRequired then LatestDetail(events, true) else None)
  }

  // ----- the contract of the page -----

  predicate IsActive(state: JobState) {
    state == Requested || state == Assembling || state == Promoting || state == Verifying
  }

  /** The ranges and the refinement rules of publicationStatusSnapshotSchema. */
  predicate MeetsRules(s: Snapshot) {
    && s.completedStages <= STAGE_TOTAL && |s.stages| == STAGE_TOTAL
    && (forall i :: 0 <= i < |s.stages| ==> 1 <= s.stages[i].ordinal <= STAGE_TOTAL)
    && (s.currentStage.Some? && s.currentStage.value.AtStage? ==> 1 <= s.currentStage.value.ordinal <= STAGE_TOTAL)
    && CountComplete(s.stages) == s.completedStages
    && (s.terminal.Some? <==> !IsActive(s.state))
    && (s.terminal.Some? ==> s.terminal.value.state == s.state)
    && (s.state == Succeeded ==> s.failure.None? && s.recoveryFailure.None?)
    && (s.state != RecoveryRequired ==> s.recoveryFailure.None?)
  }

  lemma {:induction false} CountPrefix(stages: seq<Stage>, n: nat)
    requires n <= |stages|
    requires forall i :: 0 <= i < |stages| ==> (stages[i].state == StageComplete <==> i < n)
    ensures CountComplete(stages) == n
  {
    if stages != [] {
      var rest := stages[..|stages| - 1];
      CountPrefix(rest, if n == |stages| then n - 1 else n);
    }
  }

  lemma SequencedKeeps(events: seq<Event>)
    ensures forall e :: e in Sequenced(events) <==> e in events
    ensures Kinds(Sequenced(events)) == Kinds(events)
  {
    Ordering.SortKeeps((a: Event, b: Event) => a.sequence < b.sequence, events);
    var sorted := Sequenced(events);
    forall e
      ensures e in sorted <==> e in events
    {
      assert e in multiset(sorted) <==> e in multiset(events);
    }
  }

  /** The log of a restoration, a failure or a recovery holds a failure detail. */
  predicate HasDetail(events: seq<Event>) {
    exists e :: e in events && (e.kind == RestoreStarted || e.kind == FailedEvent || e.kind == RecoveryEvent)
                && e.payload.Object? && e.payload.failureDetail.Parsed?
  }

  lemma HasDetailIs(events: seq<Event>)
    ensures HasDetail(events) <==> exists e :: e in events && DetailOf(e, false).Some?
  {
    if HasDetail(events) {
      var e :| e in events && (e.kind == RestoreStarted || e.kind == FailedEvent || e.kind == RecoveryEvent)
               && e.payload.Object? && e.payload.failureDetail.Parsed?;
      assert DetailOf(e, false).Some?;
    }
    if e :| e in events && DetailOf(e, false).Some? {
      assert e.payload.Object? && e.payload.failureDetail.Parsed?;
    }
  }

  /** The number shown is the last stage that is over, in whatever order the events arrive. */
  lemma ShownCount(r: Record)
    ensures Project(r).completedStages == Completed(r.state, Kinds(r.events))
  {
    SequencedKeeps(r.events);
    CountPrefix(Project(r).stages, Completed(r.state, Kinds(r.events)));
  }

  /** The page accepts a snapshot unless it is one of a success whose log holds a failure detail. */
  lemma AcceptedExact(r: Record)
    ensures MeetsRules(Project(r)) <==> !(r.state == Succeeded && HasDetail(r.events))
  {
    ShownCount(r);
    DetailShown(r.events);
    hide HasDetail, LatestDetail, Sequenced, Kinds, Completed;
  }

  lemma DetailShown(events: seq<Event>)
    ensures LatestDetail(Sequenced(events), false).Some? <==> HasDetail(events)
  {
    hide HasDetail, DetailOf, Sequenced;
    SequencedKeeps(events);
    HasDetailIs(events);
  }

  /** The five stages always read COMPLETE*, then at most one ACTIVE or FAILED, then
      PENDING*; a stage is ACTIVE only in a job that can still move on its own. */
  lemma StagesReadInOrder(r: Record)
    ensures var stages := Project(r).stages; var n := Project(r).completedStages;
      && n <= |stages| == STAGE_TOTAL
      && (forall i :: 0 <= i < n ==> stages[i].state == StageComplete)
      && (n < |stages| ==> stages[n].state != StageComplete)
      && (forall i :: n < i < |stages| ==> stages[i].state == StagePending)
      && (forall i :: 0 <= i < |stages| && stages[i].state == StageActive ==> IsActive(r.state))
      && (forall i :: 0 <= i < |stages| && stages[i].state == StageFailed ==> !IsActive(r.state) && r.state != Succeeded)
  {
    ShownCount(r);
    SequencedKeeps(r.events);
  }

  predicate Restoring(r: Record) {
    exists e :: e in r.events && e.kind == RestoreStarted
  }

  /** The first stage that is not over is the one that failed or is under way; the page
      names it unless the previous release is being restored. */
  lemma FirstOpenStage(r: Record)
    ensures var s := Project(r); var n := s.completedStages;
      && |s.stages| == STAGE_TOTAL && n <= STAGE_TOTAL
      && (forall i :: 0 <= i < STAGE_TOTAL ==> s.stages[i].ordinal == i + 1 && s.stages[i].key == STAGE_KEYS[i])
      && (n < STAGE_TOTAL ==>
            s.stages[n].state == if !IsActive(r.state) then StageFailed else if Restoring(r) then StagePending else StageActive)
      && s.currentStage ==
           (if Restoring(r) then Some(Restoration)
            else if !IsActive(r.state) then None
            else if n < STAGE_TOTAL then Some(AtStage(STAGE_KEYS[n], n + 1)) else Some(AtStage(Verification, STAGE_TOTAL)))
      && (s.terminal.Some? ==>
            && (s.terminal.value.tone == Success <==> r.state == Succeeded)
            && (s.terminal.value.tone == Warning <==> r.state == NeedsRefresh || r.state == Restored))
  {
    ShownCount(r);
    SequencedKeeps(r.events);
    hide LatestDetail, Sequenced;
  }

  /** In a sorted log the latest detail is that of the greatest sequence that has one. */
  lemma {:induction false} LatestOf(events: seq<Event>, recovery: bool, e: Event)
    requires forall i, j :: 0 <= i < j < |events| ==> events[i].sequence <= events[j].sequence
    requires e in events && DetailOf(e, recovery).Some?
    requires forall f :: f in events && f != e && DetailOf(f, recovery).Some? ==> f.sequence < e.sequence
    ensures LatestDetail(events, recovery) == DetailOf(e, recovery)
  {
    hide DetailOf;
    var n := |events| - 1;
    if DetailOf(events[n], recovery).Some? {
      var i :| 0 <= i <= n && events[i] == e;
      assert events[i].sequence <= events[n].sequence;
    } else {
      LatestOf(events[..n], recovery, e);
    }
  }

  lemma SequencedSorts(events: seq<Event>)
    ensures forall i, j :: 0 <= i < j < |Sequenced(events)| ==> Sequenced(events)[i].sequence <= Sequenced(events)[j].sequence
  {
    Ordering.SortSorts((a: Event, b: Event) => a.sequence < b.sequence, events);
  }

  /** The failure shown is the one logged last, by the numbers of the events. */
  lemma FailureShown(r: Record, e: Event, recovery: bool)
    requires e in r.events && DetailOf(e, recovery).Some?
    requires forall f :: f in r.events && f != e && DetailOf(f, recovery).Some? ==> f.sequence < e.sequence
    ensures CarriesDetail(e.kind)
    ensures !recovery ==> Project(r).failure == Some(e.payload.failureDetail.detail)
    ensures recovery && r.state == RecoveryRequired ==> Project(r).recoveryFailure == Some(e.payload.recoveryFailureDetail.detail)
  {
    SequencedKeeps(r.events);
    SequencedSorts(r.events);
    LatestOf(Sequenced(r.events), recovery, e);
    hide Sequenced, LatestDetail, Completed, Kinds;
  }

  predicate Logged(r: Record, kinds: set<Kind>) {
    exists e :: e in r.events && e.kind in kinds
  }

  /** Stage by stage, when it is shown as over: by the state of the job, or by an event
      that belongs to it or to a later stage. */
  lemma StageOverExact(r: Record)
    ensures var n := Project(r).completedStages; var live := r.state in {Verifying, Restored, RecoveryRequired, Succeeded};
      && (n == 5 <==> r.state == Succeeded || Logged(r, {Verified}))
      && (n >= 4 <==> live || Logged(r, {PointerAdvanced, Verified}))
      && (n >= 3 <==> live || Logged(r, {Validated, PointerAdvanced, Verified}))
      && (n >= 2 <==> live || r.state == Promoting || Logged(r, {SnapshotBuilt, Validated, PointerAdvanced, Verified}))
      && (n >= 1 <==> (r.state != Requested
           || Logged(r, {PointerObserved, Conflicted, SnapshotBuilt, Validated, PointerAdvanced, Verified})))
  {
    ShownCount(r);
    forall kinds: set<Kind>
      ensures Logged(r, kinds) <==> exists k :: k in kinds && k in Kinds(r.events)
    {
      LoggedIs(r, kinds);
    }
    hide Logged, Project, Kinds;
  }

  lemma LoggedIs(r: Record, kinds: set<Kind>)
    ensures Logged(r, kinds) <==> exists k :: k in kinds && k in Kinds(r.events)
  {
    if Logged(r, kinds) {
      var e :| e in r.events && e.kind in kinds;
      assert e.kind in Kinds(r.events);
    }
  }
}
