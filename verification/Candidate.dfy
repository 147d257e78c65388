/** Materialising a review candidate (apps/review-worker/src/review.ts) and accepting
    its suggestions later (apps/web/src/server/workflows/situations.ts).  Both fold
    `applyDeterministicSituationChange` (packages/domain/src/index.ts) over changes;
    they print, read again and normalise at different points. */
module Candidate {
  import opened Common
  import opened Text
  import opened SituationText
  import opened SectionTargets

  type Hash = nat

  /** A v2 bundle: the hash of its body, its metadata as canonical JSON texts, the rest. */
  datatype Bundle = Bundle(bodyHash: Hash, metadata: map<string, string>, context: nat)

  /** What this part of the program calls but does not define: SHA-256, the bundle
      schema, the candidate validator, the managed-component check, and JSON. */
  datatype Env = Env(
    names: seq<string>,
    tables: Tables,
    sha: string -> Hash,
    accepts: Bundle -> bool,
    valid: (Bundle, string) -> bool,
    preserves: (string, string) -> bool,
    json: string -> Option<string>,       // canonicalJson(JSON.parse(text)); None when it does not parse
    quote: string -> string,              // canonicalJson of the text as a string
    isString: string -> bool,             // the canonical text of a JSON string
    metadataKeys: set<string>)            // publishableSituationMetadataKeys

  /** SCOPED_VARIANT, RELATIONSHIP, EMBED and BUNDLE are only ever suggested. */
  datatype Kind = SectionKind | MetadataKind | ManualKind(name: string)

  datatype Change = Change(kind: Kind, key: string, beforeHash: Option<Hash>, after: string)

  function BodyHash(env: Env, body: string): Hash {
    env.sha(CanonicalText(body))
  }

  // ----- normalizeSituationSectionReplacement -----

  /** firstLine.match(/^#{1,6}\s+(.+)$/u)?.[1]?.trim() */
  function OwnHeading(line: string): Option<string> {
    var n := Hashes(line);
    if 1 <= n <= 6 && n < |line| && IsSpace(line[n]) then
      var title := Trim(line[n..]);
      if title != "" && forall i :: 0 <= i < |title| ==> !EndsLine(title[i]) then Some(title) else None
    else None
  }

  predicate OpensWith(key: string, normalized: string) {
    OwnHeading(Trim(Split(normalized)[0])) == Some(key)
  }

  function Normalize(key: string, replacement: string): string {
    var normalized := CanonicalText(replacement);
    if OpensWith(key, normalized) then CanonicalText(TrimStart(Join(Split(normalized)[1..]))) else normalized
  }

  // ----- one deterministic change -----

  /** deterministicSituationChangeTargetBefore: the text of the target and its hash. */
  function ChangeBefore(env: Env, bundle: Bundle, body: string, kind: Kind, key: string): Option<(string, Hash)> {
    match kind
    case SectionKind =>
      var sections := Parse(env.names, body);
      if sections.None? then None
      else
        var before := TargetBefore(env.tables, env.names, sections.value, key);
        if before.None? then None else Some((before.value, BodyHash(env, before.value)))
    case MetadataKind =>
      if key in bundle.metadata then Some((bundle.metadata[key], env.sha(bundle.metadata[key]))) else None
    case ManualKind(_) => None
  }

  /** applyDeterministicSituationChange: None stands for every error it throws. */
  function ApplyChange(env: Env, bundle: Bundle, input: string, change: Change): Option<(Bundle, string)> {
    var body := CanonicalText(input);
    var before := ChangeBefore(env, bundle, body, change.kind, change.key);
    if !env.accepts(bundle) || before.None? || change.beforeHash != Some(before.value.1) then None
    else match change.kind
      case SectionKind =>
        var replacement := Normalize(change.key, change.after);
        var sections := Parse(env.names, body);
        if sections.None? || !env.preserves(before.value.0, replacement) then None
        else
          var applied := ApplyTarget(env.tables, env.names, sections.value, change.key, replacement);
          if applied.None? then None
          else
            var next := Serialize(env.names, applied.value);
            var bundle' := bundle.(bodyHash := BodyHash(env, next));
            if env.accepts(bundle') then Some((bundle', next)) else None
      case MetadataKind =>
        var value := env.json(change.after);
        if value.None? then None
        else
          var bundle' := bundle.(metadata := bundle.metadata[change.key := value.value]);
          if env.accepts(bundle') then Some((bundle', body)) else None
      case ManualKind(_) => None
  }

  // ----- the candidate -----

  /** A change intent of the builder; `wellFormed` is the verdict of its schema. */
  datatype Intent = Intent(kind: Kind, key: string, after: string, findings: seq<string>, wellFormed: bool)

  datatype Kept = Kept(change: Change, automatic: bool, findings: seq<string>, position: nat)
  datatype Discarded = Discarded(intent: Intent, position: nat)

  datatype Draft = Draft(bundle: Bundle, sections: seq<string>, kept: seq<Kept>, discarded: seq<Discarded>)

  /** normalizeCandidateMetadataReplacement: None is the error that ends the whole fold. */
  function NormalizeMetadata(env: Env, bundle: Bundle, intent: Intent): Option<Intent> {
    if !intent.kind.MetadataKind? || intent.key !in env.metadataKeys || intent.key !in bundle.metadata then Some(intent)
    else
      var value := env.json(intent.after);
      if value.Some? then Some(intent.(after := value.value))
      else if env.isString(bundle.metadata[intent.key]) then Some(intent.(after := env.quote(intent.after)))
      else None
  }

  predicate TargetsOverlap(env: Env, kept: Kept, target: Target) {
    && kept.change.kind.SectionKind? && ParseTarget(env.names, kept.change.key, 0).Some?
    && Overlap(env.tables, ParseTarget(env.names, kept.change.key, 0).value, target)
  }

  predicate SectionOverlaps(env: Env, kept: seq<Kept>, key: string) {
    var target := ParseTarget(env.names, key, 0);
    target.Some? && exists i :: 0 <= i < |kept| && TargetsOverlap(env, kept[i], target.value)
  }

  predicate Seen(kept: seq<Kept>, kind: Kind, key: string) {
    exists i :: 0 <= i < |kept| && kept[i].change.kind == kind && kept[i].change.key == key
  }

  /** The body of the try block: None when it throws. */
  function Keep(env: Env, d: Draft, intent: Intent, position: nat): Option<Draft>
    requires |d.sections| == |env.names|
    ensures Keep(env, d, intent, position).Some? ==> |Keep(env, d, intent, position).value.sections| == |env.names|
  {
    var after := if intent.kind.SectionKind? then Normalize(intent.key, intent.after) else intent.after;
    var body := Serialize(env.names, d.sections);
    var before := ChangeBefore(env, d.bundle, body, intent.kind, intent.key);
    if Seen(d.kept, intent.kind, intent.key) then None
    else if intent.kind.SectionKind?
            && (ParseTarget(env.names, intent.key, 0).None? || SectionOverlaps(env, d.kept, intent.key) || before.None?) then None
    else
      var automatic := !intent.kind.ManualKind? && before.Some? && (intent.kind.MetadataKind? ==> intent.key in env.metadataKeys);
      var change := Change(intent.kind, intent.key, if before.Some? then Some(before.value.1) else None, after);
      var edited := if automatic then EditCandidate(env, d.bundle, d.sections, change) else Some((d.bundle, d.sections));
      if edited.None? then None
      else
        var body' := Serialize(env.names, edited.value.1);
        var bundle' := edited.value.0.(bodyHash := BodyHash(env, body'));
        if !env.accepts(bundle') || !env.valid(bundle', body') then None
        else Some(d.(bundle := bundle', sections := edited.value.1,
                     kept := d.kept + [Kept(change, automatic, intent.findings, position)]))
  }

  /** applyCandidateEdit: print, apply, read again. */
  function EditCandidate(env: Env, bundle: Bundle, sections: seq<string>, change: Change): (r: Option<(Bundle, seq<string>)>)
    requires |sections| == |env.names|
    ensures r.Some? ==> |r.value.1| == |env.names|
  {
    var applied := ApplyChange(env, bundle, Serialize(env.names, sections), change);
    if applied.None? then None
    else
      var read := Parse(env.names, applied.value.1);
      if read.None? then None else Some((applied.value.0, read.value))
  }

  /** One turn of the loop; None when the fold as a whole throws. */
  function Turn(env: Env, d: Draft, intent: Intent, position: nat): (r: Option<Draft>)
    requires |d.sections| == |env.names|
    ensures r.Some? ==> |r.value.sections| == |env.names|
  {
    if !intent.wellFormed then Some(d.(discarded := d.discarded + [Discarded(intent, position)]))
    else
      var normalized := NormalizeMetadata(env, d.bundle, intent);
      if normalized.None? then None
      else
        var kept := Keep(env, d, normalized.value, position);
        if kept.Some? then kept
        else Some(d.(discarded := d.discarded + [Discarded(normalized.value, position)]))
  }

  function Turns(env: Env, d: Draft, intents: seq<Intent>, position: nat): (r: Option<Draft>)
    requires |d.sections| == |env.names|
    ensures r.Some? ==> |r.value.sections| == |env.names|
    decreases |intents|
  {
    if intents == [] then Some(d)
    else
      var next := Turn(env, d, intents[0], position);
      if next.None? then None else Turns(env, next.value, intents[1..], position + 1)
  }

  /** The candidate: its bundle and body, and what became of every intent. */
  datatype Result = Result(bundle: Bundle, body: string, kept: seq<Kept>, discarded: seq<Discarded>)

  /** materializeCandidateRevision. */
  function Materialize(env: Env, bundle: Bundle, body: string, intents: seq<Intent>): Option<Result> {
    var sections := Parse(env.names, body);
    if !env.accepts(bundle) || sections.None? then None
    else
      var d := Turns(env, Draft(bundle, sections.value, [], []), intents, 0);
      if d.None? then None
      else
        var body' := Serialize(env.names, d.value.sections);
        var bundle' := d.value.bundle.(bodyHash := BodyHash(env, body'));
        if env.accepts(bundle') && env.valid(bundle', body')
        then Some(Result(bundle', body', d.value.kept, d.value.discarded)) else None
  }

  /** The loop of materializeCandidateRevision. */
  method MaterializeCandidateRevision(env: Env, bundleManifest: Bundle, input: string, intents: seq<Intent>)
    returns (candidate: Option<Result>)
    ensures candidate == Materialize(env, bundleManifest, input, intents)
  {
    var parsed := Parse(env.names, input);
    if !env.accepts(bundleManifest) || parsed.None? {
      return None;
    }
    var bundle, sections := bundleManifest, parsed.value;
    var kept: seq<Kept> := [];
    var discarded: seq<Discarded> := [];
    for position := 0 to |intents|
      invariant |sections| == |env.names|
      invariant Turns(env, Draft(bundleManifest, parsed.value, [], []), intents, 0) ==
                Turns(env, Draft(bundle, sections, kept, discarded), intents[position..], position)
    {
      var intent := intents[position];
      assert intents[position..][0] == intent && intents[position..][1..] == intents[position + 1..];
      if intent.wellFormed {
        var normalized := NormalizeMetadata(env, bundle, intent);
        if normalized.None? {
          return None;
        }
        var next := Keep(env, Draft(bundle, sections, kept, discarded), normalized.value, position);
        if next.Some? {
          bundle, sections, kept := next.value.bundle, next.value.sections, next.value.kept;
        } else {
          discarded := discarded + [Discarded(normalized.value, position)];
        }
      } else {
        discarded := discarded + [Discarded(intent, position)];
      }
    }
    assert intents[|intents|..] == [];
    var body := Serialize(env.names, sections);
    bundle := bundle.(bodyHash := BodyHash(env, body));
    if !env.accepts(bundle) || !env.valid(bundle, body) {
      return None;
    }
    return Some(Result(bundle, body, kept, discarded));
  }

  // ----- accepting the suggestions -----

  function Automatic(kept: seq<Kept>): seq<Change> {
    if kept == [] then []
    else (if kept[0].automatic then [kept[0].change] else []) + Automatic(kept[1..])
  }

  /** proposedBody. */
  function Proposed(change: Change): Change {
    if change.kind.SectionKind? then change.(after := Normalize(change.key, change.after)) else change
  }

  function AcceptEach(env: Env, bundle: Bundle, body: string, changes: seq<Change>): Option<(Bundle, string)>
    decreases |changes|
  {
    if changes == [] then Some((bundle, body))
    else
      var applied := ApplyChange(env, bundle, body, Proposed(changes[0]));
      if applied.None? then None else AcceptEach(env, applied.value.0, applied.value.1, changes[1..])
  }

  /** applyProposalChanges up to createRevision. */
  function Accept(env: Env, bundle: Bundle, body: string, changes: seq<Change>): Option<(Bundle, string)> {
    var applied := AcceptEach(env, bundle, body, changes);
    if applied.None? then None
    else
      var bundle' := applied.value.0.(bodyHash := BodyHash(env, applied.value.1));
      if env.accepts(bundle') && env.valid(bundle', applied.value.1)
      then Some((bundle', CanonicalText(applied.value.1))) else None
  }

  /** The loop of applyProposalChanges over the mutable body and bundle. */
  method ApplyProposalChanges(env: Env, initialBundle: Bundle, initialBody: string, changes: seq<Change>)
    returns (revision: Option<(Bundle, string)>)
    ensures revision == Accept(env, initialBundle, initialBody, changes)
  {
    var bundle, body := initialBundle, initialBody;
    for i := 0 to |changes|
      invariant AcceptEach(env, initialBundle, initialBody, changes) == AcceptEach(env, bundle, body, changes[i..])
    {
      assert changes[i..][0] == changes[i] && changes[i..][1..] == changes[i + 1..];
      var applied := ApplyChange(env, bundle, body, Proposed(changes[i]));
      if applied.None? {
        return None;
      }
      bundle, body := applied.value.0, applied.value.1;
    }
    assert changes[|changes|..] == [];
    bundle := bundle.(bodyHash := BodyHash(env, body));
    if !env.accepts(bundle) || !env.valid(bundle, body) {
      return None;
    }
    return Some((bundle, CanonicalText(body)));
  }
}
