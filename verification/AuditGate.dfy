/** The audit gate between a candidate and its proposal (apps/review-worker/src/review.ts,
    packages/ai-adapters/src/index.ts).  Provider outputs are arbitrary. */
module AuditGate {
  import opened Common
  import opened Candidate

  datatype Severity = Note | Consider | Important | Blocking
  datatype Finding = Finding(id: string, severity: Severity)

  /** The latest completed output of a stage, as far as its schema accepts it. */
  datatype Output = Output(role: string, findings: seq<Finding>)
  datatype Stage = Stage(role: string, output: Option<Output>)

  datatype Verdict = Pass | Revise
  datatype Audit = Audit(role: string, candidateHash: Hash, verdict: Verdict, findings: seq<Finding>, blockingIds: seq<string>)

  const AUDIT_ROLE := "candidate-audit"
  const UPSTREAM: set<string> := {"context-mapper", "critical-review", "candidate-builder"}

  function Key(role: string, id: string): string {
    role + ":" + id
  }

  // ----- candidateAuditOutputSchema -----

  predicate HasBlocking(findings: seq<Finding>) {
    exists i :: 0 <= i < |findings| && findings[i].severity == Blocking
  }

  predicate WellFormed(audit: Audit) {
    && (audit.verdict == Pass ==> audit.blockingIds == [] && !HasBlocking(audit.findings))
    && (audit.verdict == Revise ==> audit.blockingIds != [])
    && (forall i :: 0 <= i < |audit.findings| && audit.findings[i].severity == Blocking ==>
          audit.findings[i].id in audit.blockingIds || Key(audit.role, audit.findings[i].id) in audit.blockingIds)
  }

  // ----- validateCandidateAuditOutput -----

  function Severities(role: string, findings: seq<Finding>): map<string, Severity> {
    if findings == [] then map[]
    else Severities(role, findings[..|findings| - 1])[
           Key(role, findings[|findings| - 1].id) := findings[|findings| - 1].severity]
  }

  function SeverityByKey(stages: seq<Stage>): map<string, Severity> {
    if stages == [] then map[]
    else
      var before := SeverityByKey(stages[..|stages| - 1]);
      var last := stages[|stages| - 1];
      if last.output.None? then before else before + Severities(last.role, last.output.value.findings)
  }

  /** Some automatic change refers to the finding. */
  predicate Addressed(canonical: string -> string, kept: seq<Kept>, key: string) {
    exists i, j :: 0 <= i < |kept| && kept[i].automatic && 0 <= j < |kept[i].findings| && canonical(kept[i].findings[j]) == key
  }

  /** The key a blocking reference resolves to; None is the INVALID_OUTPUT error. */
  function Resolve(canonical: string -> string, severities: map<string, Severity>, reference: string): Option<string> {
    var key := if canonical(reference) in severities then Some(canonical(reference))
               else if Key(AUDIT_ROLE, reference) in severities then Some(Key(AUDIT_ROLE, reference)) else None;
    if key.Some? && severities[key.value] == Blocking then key else None
  }

  function ResolveAll(canonical: string -> string, severities: map<string, Severity>, references: seq<string>): Option<seq<string>> {
    if references == [] then Some([])
    else
      var before := ResolveAll(canonical, severities, references[..|references| - 1]);
      var last := Resolve(canonical, severities, references[|references| - 1]);
      if before.None? || last.None? then None else Some(before.value + [last.value])
  }

  predicate FromAudit(key: string) {
    AUDIT_ROLE + ":" <= key
  }

  /** The blocking keys of an accepted audit; None is any error it throws. */
  function ValidateAudit(canonical: string -> string, audit: Audit, candidateHash: Hash, stages: seq<Stage>, kept: seq<Kept>):
    Option<seq<string>>
  {
    var severities := SeverityByKey(stages) + Severities(AUDIT_ROLE, audit.findings);
    var blocking := ResolveAll(canonical, severities, audit.blockingIds);
    if !WellFormed(audit) || audit.role != AUDIT_ROLE || audit.candidateHash != candidateHash || blocking.None? then None
    else if exists key :: key in severities && severities[key] == Blocking && !FromAudit(key)
                          && !Addressed(canonical, kept, key) && key !in blocking.value then None
    else blocking
  }

  // ----- materializeProposal -----

  /** A finding of the proposal, under its key. */
  function Keys(role: string, findings: seq<Finding>): seq<string> {
    seq(|findings|, i requires 0 <= i < |findings| => Key(role, findings[i].id))
  }

  predicate NoneTwice(keys: seq<string>) {
    forall i, j :: 0 <= i < j < |keys| ==> keys[i] != keys[j]
  }

  /** The keys of all stage outputs; None when an output is missing, misattributed or
      repeats a key. */
  function FindingKeys(stages: seq<Stage>): Option<seq<string>> {
    if stages == [] then Some([])
    else
      var before := FindingKeys(stages[..|stages| - 1]);
      var last := stages[|stages| - 1];
      if before.None? || last.output.None? || last.output.value.role != last.role then None
      else
        var keys := before.value + Keys(last.role, last.output.value.findings);
        if NoneTwice(keys) then Some(keys) else None
  }

  /** The stored proposal: its candidate, and the findings every change links to. */
  datatype Proposal = Proposal(candidateHash: Hash, findings: seq<string>, changes: seq<Kept>, links: seq<seq<string>>)

  predicate LinksExist(canonical: string -> string, findings: seq<string>, kept: seq<Kept>) {
    forall i, j :: 0 <= i < |kept| && 0 <= j < |kept[i].findings| ==> canonical(kept[i].findings[j]) in findings
  }

  /** materializeProposal from the stage outputs and the candidate on; `discardedKeys`
      are the findings that stand for discarded intents. */
  function Propose(canonical: string -> string, stages: seq<Stage>, audit: Audit, candidate: Result, candidateHash: Hash,
                   discardedKeys: seq<string>): Option<Proposal>
  {
    var keys := FindingKeys(stages);
    var blocking := ValidateAudit(canonical, audit, candidateHash, stages, candidate.kept);
    if keys.None? || blocking.None? || audit.verdict != Pass || blocking.value != [] then None
    else
      var findings := keys.value + discardedKeys;
      if !LinksExist(canonical, findings, candidate.kept) then None
      else Some(Proposal(candidateHash, findings, candidate.kept,
                         seq(|candidate.kept|, i requires 0 <= i < |candidate.kept| =>
                           seq(|candidate.kept[i].findings|, j requires 0 <= j < |candidate.kept[i].findings| =>
                             canonical(candidate.kept[i].findings[j])))))
  }

  // ----- the gate -----

  lemma {:induction false} SeveritiesHold(role: string, findings: seq<Finding>, i: nat)
    requires i < |findings| && NoneTwice(Keys(role, findings))
    ensures Key(role, findings[i].id) in Severities(role, findings)
    ensures Severities(role, findings)[Key(role, findings[i].id)] == findings[i].severity
  {
    var n := |findings| - 1;
    if i < n {
      assert forall a :: 0 <= a < n ==> Keys(role, findings[..n])[a] == Keys(role, findings)[a];
      SeveritiesHold(role, findings[..n], i);
      assert Keys(role, findings)[i] != Keys(role, findings)[n];
    }
  }

  lemma {:induction false} SeverityKeysAreKeys(role: string, findings: seq<Finding>)
    ensures forall key :: key in Severities(role, findings) ==> key in Keys(role, findings)
  {
    if findings != [] {
      var n := |findings| - 1;
      SeverityKeysAreKeys(role, findings[..n]);
      assert Keys(role, findings) == Keys(role, findings[..n]) + [Key(role, findings[n].id)];
    }
  }

  lemma OnlyBefore(before: seq<string>, keys: seq<string>, key: string)
    requires NoneTwice(before + keys) && key in before
    ensures key in before + keys && key !in keys
  {
    var all := before + keys;
    var a :| 0 <= a < |before| && before[a] == key;
    assert all[a] == key;
    forall b | 0 <= b < |keys|
      ensures keys[b] != key
    {
      assert all[|before| + b] == keys[b];
    }
  }

  /** With no key twice, every finding keeps its own severity. */
  lemma {:induction false} SeverityOf(stages: seq<Stage>, s: nat, i: nat)
    requires FindingKeys(stages).Some? && s < |stages| && stages[s].output.Some? && i < |stages[s].output.value.findings|
    ensures var key := Key(stages[s].role, stages[s].output.value.findings[i].id);
      && key in FindingKeys(stages).value && key in SeverityByKey(stages)
      && SeverityByKey(stages)[key] == stages[s].output.value.findings[i].severity
  {
    var n := |stages| - 1;
    var last := stages[n];
    var keys := Keys(last.role, last.output.value.findings);
    var before := FindingKeys(stages[..n]).value;
    var all := before + keys;
    if s < n {
      SeverityOf(stages[..n], s, i);
      var key := Key(stages[s].role, stages[s].output.value.findings[i].id);
      SeverityKeysAreKeys(last.role, last.output.value.findings);
      OnlyBefore(before, keys, key);
    } else {
      forall a, b | 0 <= a < b < |keys|
        ensures keys[a] != keys[b]
      {
        assert all[|before| + a] == keys[a] && all[|before| + b] == keys[b];
      }
      SeveritiesHold(last.role, last.output.value.findings, i);
      assert keys[i] in keys;
    }
  }

  lemma OtherLetters(key: string)
    requires |key| > 10 && (key[1] != 'a' || key[10] != 'a')
    ensures !FromAudit(key)
  {
    var prefix := AUDIT_ROLE + ":";
    assert prefix[1] == 'a' && prefix[10] == 'a';
  }

  lemma UpstreamIsNotAudit(role: string, id: string)
    requires role in UPSTREAM
    ensures !FromAudit(Key(role, id))
  {
    var key := Key(role, id);
    assert forall i :: 0 <= i < |role| ==> key[i] == role[i];
    OtherLetters(key);
  }

  lemma {:induction false} AuditKeysAreAudit(findings: seq<Finding>)
    ensures forall key :: key in Severities(AUDIT_ROLE, findings) ==> FromAudit(key)
  {
    SeverityKeysAreKeys(AUDIT_ROLE, findings);
    forall key | key in Severities(AUDIT_ROLE, findings)
      ensures FromAudit(key)
    {
      var i :| 0 <= i < |findings| && key == Key(AUDIT_ROLE, findings[i].id);
      assert key == AUDIT_ROLE + ":" + findings[i].id;
      assert key[..|AUDIT_ROLE + ":"|] == AUDIT_ROLE + ":";
    }
  }

  /** Finding `i` of the latest output of a stage before the audit is blocking. */
  predicate BlockingAt(stage: Stage, i: int) {
    && stage.role in UPSTREAM && stage.output.Some?
    && 0 <= i < |stage.output.value.findings| && stage.output.value.findings[i].severity == Blocking
  }

  /** A proposal exists only for the very candidate its audit passed; every blocking
      finding of the other stages is addressed by an automatic change; and every
      change links only to findings of the proposal. */
  lemma Gate(canonical: string -> string, stages: seq<Stage>, audit: Audit, candidate: Result, candidateHash: Hash, discardedKeys: seq<string>)
    requires Propose(canonical, stages, audit, candidate, candidateHash, discardedKeys).Some?
    ensures var p := Propose(canonical, stages, audit, candidate, candidateHash, discardedKeys).value;
      && audit.verdict == Pass && audit.role == AUDIT_ROLE && audit.candidateHash == p.candidateHash == candidateHash
      && !HasBlocking(audit.findings)
      && p.changes == candidate.kept && |p.links| == |p.changes|
      && (forall i :: 0 <= i < |p.links| ==> forall x :: x in p.links[i] ==> x in p.findings)
    ensures forall s, i | 0 <= s < |stages| && BlockingAt(stages[s], i) ::
      Addressed(canonical, candidate.kept, Key(stages[s].role, stages[s].output.value.findings[i].id))
  {
    var p := Propose(canonical, stages, audit, candidate, candidateHash, discardedKeys).value;
    var severities := SeverityByKey(stages) + Severities(AUDIT_ROLE, audit.findings);
    AuditKeysAreAudit(audit.findings);
    forall s, i | 0 <= s < |stages| && BlockingAt(stages[s], i)
      ensures Addressed(canonical, candidate.kept, Key(stages[s].role, stages[s].output.value.findings[i].id))
    {
      var key := Key(stages[s].role, stages[s].output.value.findings[i].id);
      SeverityOf(stages, s, i);
      UpstreamIsNotAudit(stages[s].role, stages[s].output.value.findings[i].id);
      assert key in severities && severities[key] == Blocking;
    }
    LinksAreFindings(canonical, p, candidate.kept);
  }

  lemma LinksAreFindings(canonical: string -> string, p: Proposal, kept: seq<Kept>)
    requires p.changes == kept && LinksExist(canonical, p.findings, kept) && |p.links| == |kept|
    requires forall i :: 0 <= i < |kept| ==> |p.links[i]| == |kept[i].findings|
    requires forall i, j :: 0 <= i < |kept| && 0 <= j < |kept[i].findings| ==> p.links[i][j] == canonical(kept[i].findings[j])
    ensures forall i :: 0 <= i < |p.links| ==> forall x :: x in p.links[i] ==> x in p.findings
  {
  }

  /** The hash of a candidate: of its bundle and its body, for a given reviewed revision. */
  ghost predicate Injective(hash: (Bundle, string) -> Hash) {
    forall bundle, bundle', body, body' :: hash(bundle, body) == hash(bundle', body') ==> bundle == bundle' && body == body'
  }

  /** One audit lets one candidate through: whatever the builder proposed before and after
      a repair, two proposals that rest on the same audit carry the same bundle and body. */
  lemma OneCandidatePerAudit(env: Env, bundle: Bundle, body: string, intents: seq<Intent>, intents': seq<Intent>,
                             hash: (Bundle, string) -> Hash, canonical: string -> string, audit: Audit,
                             stages: seq<Stage>, stages': seq<Stage>, discarded: seq<string>, discarded': seq<string>)
    requires Injective(hash) && Materialize(env, bundle, body, intents).Some? && Materialize(env, bundle, body, intents').Some?
    requires var c := Materialize(env, bundle, body, intents).value;
      Propose(canonical, stages, audit, c, hash(c.bundle, c.body), discarded).Some?
    requires var c := Materialize(env, bundle, body, intents').value;
      Propose(canonical, stages', audit, c, hash(c.bundle, c.body), discarded').Some?
    ensures var c := Materialize(env, bundle, body, intents).value; var c' := Materialize(env, bundle, body, intents').value;
      c.bundle == c'.bundle && c.body == c'.body
  {
    hide Materialize, Propose, Injective;
    var c := Materialize(env, bundle, body, intents).value;
    var c' := Materialize(env, bundle, body, intents').value;
    Gate(canonical, stages, audit, c, hash(c.bundle, c.body), discarded);
    Gate(canonical, stages', audit, c', hash(c'.bundle, c'.body), discarded');
    SameHash(hash, c.bundle, c.body, c'.bundle, c'.body);
  }

  lemma SameHash(hash: (Bundle, string) -> Hash, bundle: Bundle, body: string, bundle': Bundle, body': string)
    requires Injective(hash) && hash(bundle, body) == hash(bundle', body')
    ensures bundle == bundle' && body == body'
  {
  }

  // ----- when there is a proposal -----

  function Count(stage: Stage): nat {
    if stage.output.None? then 0 else |stage.output.value.findings|
  }

  function KeyAt(stage: Stage, i: nat): string
    requires i < Count(stage)
  {
    Key(stage.role, stage.output.value.findings[i].id)
  }

  /** Every stage has a completed output of its own. */
  predicate Attributed(stages: seq<Stage>) {
    forall s :: 0 <= s < |stages| ==> stages[s].output.Some? && stages[s].output.value.role == stages[s].role
  }

  /** No two findings have one key. */
  predicate Distinct(stages: seq<Stage>) {
    forall s, i, t, j | 0 <= s < |stages| && 0 <= i < Count(stages[s]) && 0 <= t < |stages| && 0 <= j < Count(stages[t]) ::
      KeyAt(stages[s], i) == KeyAt(stages[t], j) ==> s == t && i == j
  }

  /** A stage found it. */
  predicate IsFinding(stages: seq<Stage>, key: string) {
    exists s, i :: 0 <= s < |stages| && 0 <= i < Count(stages[s]) && KeyAt(stages[s], i) == key
  }

  /** Every blocking finding of a stage other than the audit is addressed. */
  predicate AllAddressed(canonical: string -> string, stages: seq<Stage>, kept: seq<Kept>) {
    forall s, i | 0 <= s < |stages| && 0 <= i < Count(stages[s]) && stages[s].output.value.findings[i].severity == Blocking ::
      FromAudit(KeyAt(stages[s], i)) || Addressed(canonical, kept, KeyAt(stages[s], i))
  }

  /** Every change refers to findings of the stages, or to discarded intents. */
  predicate RefersToFindings(canonical: string -> string, stages: seq<Stage>, discardedKeys: seq<string>, kept: seq<Kept>) {
    forall i, j | 0 <= i < |kept| && 0 <= j < |kept[i].findings| ::
      IsFinding(stages, canonical(kept[i].findings[j])) || canonical(kept[i].findings[j]) in discardedKeys
  }

  predicate Passes(audit: Audit, candidateHash: Hash) {
    && audit.role == AUDIT_ROLE && audit.candidateHash == candidateHash && audit.verdict == Pass
    && audit.blockingIds == [] && forall i :: 0 <= i < |audit.findings| ==> audit.findings[i].severity != Blocking
  }

  lemma KeysAt(stage: Stage)
    requires stage.output.Some?
    ensures |Keys(stage.role, stage.output.value.findings)| == Count(stage)
    ensures forall i :: 0 <= i < Count(stage) ==> Keys(stage.role, stage.output.value.findings)[i] == KeyAt(stage, i)
  {
  }

  /** The findings of one more stage. */
  lemma OneMoreStage(stages: seq<Stage>, last: Stage, key: string)
    ensures IsFinding(stages + [last], key) <==>
      IsFinding(stages, key) || exists i :: 0 <= i < Count(last) && KeyAt(last, i) == key
  {
    var all := stages + [last];
    assert forall s :: 0 <= s < |stages| ==> all[s] == stages[s];
    if IsFinding(stages, key) {
      var s, i :| 0 <= s < |stages| && 0 <= i < Count(stages[s]) && KeyAt(stages[s], i) == key;
      assert KeyAt(all[s], i) == key;
    }
    if i :| 0 <= i < Count(last) && KeyAt(last, i) == key {
      assert KeyAt(all[|stages|], i) == key;
    }
  }

  lemma OneMoreDistinct(stages: seq<Stage>, last: Stage)
    ensures Distinct(stages + [last]) <==>
      && Distinct(stages)
      && (forall i, j | 0 <= i < Count(last) && 0 <= j < Count(last) :: KeyAt(last, i) == KeyAt(last, j) ==> i == j)
      && (forall j | 0 <= j < Count(last) :: !IsFinding(stages, KeyAt(last, j)))
  {
    var all := stages + [last];
    var n := |stages|;
    assert forall s :: 0 <= s < n ==> all[s] == stages[s];
    if Distinct(all) {
      forall s, i, t, j | 0 <= s < n && 0 <= i < Count(stages[s]) && 0 <= t < n && 0 <= j < Count(stages[t])
        ensures KeyAt(stages[s], i) == KeyAt(stages[t], j) ==> s == t && i == j
      {
        assert KeyAt(all[s], i) == KeyAt(stages[s], i) && KeyAt(all[t], j) == KeyAt(stages[t], j);
      }
      forall i, j | 0 <= i < Count(last) && 0 <= j < Count(last)
        ensures KeyAt(last, i) == KeyAt(last, j) ==> i == j
      {
        assert KeyAt(all[n], i) == KeyAt(last, i) && KeyAt(all[n], j) == KeyAt(last, j);
      }
      forall j | 0 <= j < Count(last)
        ensures !IsFinding(stages, KeyAt(last, j))
      {
        forall s, i | 0 <= s < n && 0 <= i < Count(stages[s])
          ensures KeyAt(stages[s], i) != KeyAt(last, j)
        {
          assert KeyAt(all[s], i) == KeyAt(stages[s], i) && KeyAt(all[n], j) == KeyAt(last, j);
        }
      }
    }
  }

  lemma NoneTwiceOf(before: seq<string>, keys: seq<string>)
    ensures NoneTwice(before + keys) <==>
      NoneTwice(before) && NoneTwice(keys) && forall j :: 0 <= j < |keys| ==> keys[j] !in before
  {
    var all := before + keys;
    var n := |before|;
    assert forall a :: 0 <= a < n ==> all[a] == before[a];
    assert forall b :: 0 <= b < |keys| ==> all[n + b] == keys[b];
    if NoneTwice(all) {
      forall a, b | 0 <= a < b < |keys|
        ensures keys[a] != keys[b]
      {
        assert all[n + a] == keys[a] && all[n + b] == keys[b];
      }
      forall j | 0 <= j < |keys|
        ensures keys[j] !in before
      {
        assert all[n + j] == keys[j];
      }
    }
  }

  /** The keys are collected exactly when the outputs are attributed and no key is repeated. */
  lemma {:induction false} FindingKeysExact(stages: seq<Stage>)
    ensures FindingKeys(stages).Some? <==> Attributed(stages) && Distinct(stages)
    ensures FindingKeys(stages).Some? ==>
      NoneTwice(FindingKeys(stages).value) && forall key :: key in FindingKeys(stages).value <==> IsFinding(stages, key)
  {
    if stages != [] {
      var front, last := stages[..|stages| - 1], stages[|stages| - 1];
      assert stages == front + [last];
      FindingKeysExact(front);
      OneMoreDistinct(front, last);
      assert Attributed(stages) <==> Attributed(front) && last.output.Some? && last.output.value.role == last.role;
      if Attributed(stages) && FindingKeys(front).Some? {
        KeysAt(last);
        CollectOne(front, last);
      }
    }
  }

  lemma CollectOne(front: seq<Stage>, last: Stage)
    requires FindingKeys(front).Some? && last.output.Some? && Distinct(front) && NoneTwice(FindingKeys(front).value)
    requires forall key :: key in FindingKeys(front).value <==> IsFinding(front, key)
    ensures var all := FindingKeys(front).value + Keys(last.role, last.output.value.findings);
      && (NoneTwice(all) <==> Distinct(front + [last]))
      && forall key :: key in all <==> IsFinding(front + [last], key)
  {
    var before := FindingKeys(front).value;
    var keys := Keys(last.role, last.output.value.findings);
    KeysAt(last);
    NoneTwiceOf(before, keys);
    OneMoreDistinct(front, last);
    hide Distinct, FindingKeys, Keys, IsFinding, Key;
    forall key
      ensures key in before + keys <==> IsFinding(front + [last], key)
    {
      OneMoreStage(front, last, key);
      assert key in keys <==> exists i :: 0 <= i < Count(last) && KeyAt(last, i) == key;
    }
    assert NoneTwice(keys) <==> forall i, j | 0 <= i < Count(last) && 0 <= j < Count(last) :: KeyAt(last, i) == KeyAt(last, j) ==> i == j;
  }

  lemma {:induction false} SeverityKeysFound(stages: seq<Stage>, key: string)
    requires key in SeverityByKey(stages)
    ensures IsFinding(stages, key)
  {
    var front, last := stages[..|stages| - 1], stages[|stages| - 1];
    assert stages == front + [last];
    OneMoreStage(front, last, key);
    if key in SeverityByKey(front) {
      SeverityKeysFound(front, key);
    } else {
      SeverityKeysAreKeys(last.role, last.output.value.findings);
      KeysAt(last);
    }
  }

  /** Some blocking finding that is not of the audit is not addressed. */
  predicate Outstanding(canonical: string -> string, severities: map<string, Severity>, kept: seq<Kept>, key: string) {
    key in severities && severities[key] == Blocking && !FromAudit(key) && !Addressed(canonical, kept, key)
  }

  lemma NoneOutstanding(canonical: string -> string, stages: seq<Stage>, findings: seq<Finding>, kept: seq<Kept>,
                        severities: map<string, Severity>)
    requires FindingKeys(stages).Some? && severities == SeverityByKey(stages) + Severities(AUDIT_ROLE, findings)
    ensures (exists key :: Outstanding(canonical, severities, kept, key)) <==> !AllAddressed(canonical, stages, kept)
  {
    AuditKeysAreAudit(findings);
    hide SeverityByKey, Severities, FindingKeys, FromAudit, Addressed;
    if key :| Outstanding(canonical, severities, kept, key) {
      SeverityKeysFound(stages, key);
      var s, i :| 0 <= s < |stages| && 0 <= i < Count(stages[s]) && KeyAt(stages[s], i) == key;
      SeverityOf(stages, s, i);
      assert KeyAt(stages[s], i) == Key(stages[s].role, stages[s].output.value.findings[i].id);
      assert stages[s].output.value.findings[i].severity == Blocking;
      assert !AllAddressed(canonical, stages, kept);
    }
    if !AllAddressed(canonical, stages, kept) {
      var s, i :| 0 <= s < |stages| && 0 <= i < Count(stages[s]) && stages[s].output.value.findings[i].severity == Blocking
                  && !FromAudit(KeyAt(stages[s], i)) && !Addressed(canonical, kept, KeyAt(stages[s], i));
      SeverityOf(stages, s, i);
      assert Outstanding(canonical, severities, kept, KeyAt(stages[s], i));
    }
  }

  lemma AcceptsExact(canonical: string -> string, stages: seq<Stage>, audit: Audit, candidateHash: Hash, kept: seq<Kept>,
                     severities: map<string, Severity>)
    requires Passes(audit, candidateHash) && severities == SeverityByKey(stages) + Severities(AUDIT_ROLE, audit.findings)
    ensures ValidateAudit(canonical, audit, candidateHash, stages, kept) ==
        if exists key :: Outstanding(canonical, severities, kept, key) then None else Some([])
  {
    hide SeverityByKey, Severities, FromAudit, Addressed;
    assert ResolveAll(canonical, severities, []) == Some([]) && WellFormed(audit);
    if key :| Outstanding(canonical, severities, kept, key) {
      assert key in severities && severities[key] == Blocking && !FromAudit(key) && !Addressed(canonical, kept, key);
    } else {
      forall key | key in severities
        ensures !(severities[key] == Blocking && !FromAudit(key) && !Addressed(canonical, kept, key))
      {
        assert !Outstanding(canonical, severities, kept, key);
      }
    }
  }

  lemma OnlyPassing(canonical: string -> string, stages: seq<Stage>, audit: Audit, candidateHash: Hash, kept: seq<Kept>)
    requires ValidateAudit(canonical, audit, candidateHash, stages, kept) == Some([]) && audit.verdict == Pass
    ensures Passes(audit, candidateHash)
  {
    hide SeverityByKey, Severities, FromAudit, Addressed, ResolveAll;
  }

  /** A passing audit is accepted exactly when nothing that blocks is outstanding. */
  lemma PassExact(canonical: string -> string, stages: seq<Stage>, audit: Audit, candidateHash: Hash, kept: seq<Kept>)
    requires FindingKeys(stages).Some?
    ensures ValidateAudit(canonical, audit, candidateHash, stages, kept) == Some([]) && audit.verdict == Pass <==>
      Passes(audit, candidateHash) && AllAddressed(canonical, stages, kept)
  {
    var severities := SeverityByKey(stages) + Severities(AUDIT_ROLE, audit.findings);
    hide *;
    NoneOutstanding(canonical, stages, audit.findings, kept, severities);
    if Passes(audit, candidateHash) {
      AcceptsExact(canonical, stages, audit, candidateHash, kept, severities);
      VerdictOf(audit, candidateHash);
    }
    if ValidateAudit(canonical, audit, candidateHash, stages, kept) == Some([]) && audit.verdict == Pass {
      OnlyPassing(canonical, stages, audit, candidateHash, kept);
    }
  }

  lemma VerdictOf(audit: Audit, candidateHash: Hash)
    requires Passes(audit, candidateHash)
    ensures audit.verdict == Pass
  {
  }

  /** There is a proposal exactly when every stage has an output of its own, no two
      findings share a key, the audit passes this candidate, every blocking finding before
      it is addressed, and every change refers to what was found.  It holds those findings
      and those of the discarded intents, the kept changes, and what each refers to. */
  lemma ProposeExact(canonical: string -> string, stages: seq<Stage>, audit: Audit, candidate: Result, candidateHash: Hash,
                     discardedKeys: seq<string>)
    ensures var proposal := Propose(canonical, stages, audit, candidate, candidateHash, discardedKeys);
      && (proposal.Some? <==>
            && Attributed(stages) && Distinct(stages) && Passes(audit, candidateHash)
            && AllAddressed(canonical, stages, candidate.kept)
            && RefersToFindings(canonical, stages, discardedKeys, candidate.kept))
      && (proposal.Some? ==>
            && proposal.value.candidateHash == candidateHash && proposal.value.changes == candidate.kept
            && (forall key :: key in proposal.value.findings <==> IsFinding(stages, key) || key in discardedKeys)
            && |proposal.value.links| == |candidate.kept|
            && (forall i :: 0 <= i < |candidate.kept| ==> |proposal.value.links[i]| == |candidate.kept[i].findings|)
            && forall i, j :: 0 <= i < |candidate.kept| && 0 <= j < |candidate.kept[i].findings| ==>
                 proposal.value.links[i][j] == canonical(candidate.kept[i].findings[j]))
  {
    FindingKeysExact(stages);
    if FindingKeys(stages).Some? {
      PassExact(canonical, stages, audit, candidateHash, candidate.kept);
      hide Attributed, Distinct, IsFinding, Passes, AllAddressed, FindingKeys, ValidateAudit;
      assert LinksExist(canonical, FindingKeys(stages).value + discardedKeys, candidate.kept) <==>
        RefersToFindings(canonical, stages, discardedKeys, candidate.kept);
    }
  }
}
