/** What single changes do to a candidate and to an accepted revision, when they are
    applied at all, and which intents are kept. */
module CandidateEffects {
  import opened Common
  import opened Text
  import opened SituationText
  import opened SectionTargets
  import opened Candidate
  import opened CandidateReplay
  import opened CandidateProofs
  import RC = ReplayConditions

  // ----- one deterministic change -----

  /** The change names the current text of its target: of a section target that can be
      read in the body, or of an existing metadata key. */
  predicate NamesCurrent(env: Env, bundle: Bundle, body: string, change: Change) {
    match change.kind
    case SectionKind =>
      && Parse(env.names, body).Some?
      && var before := TargetBefore(env.tables, env.names, Parse(env.names, body).value, change.key);
      before.Some? && change.beforeHash == Some(env.sha(CanonicalText(before.value)))
    case MetadataKind => change.key in bundle.metadata && change.beforeHash == Some(env.sha(bundle.metadata[change.key]))
    case ManualKind(_) => false
  }

  /** A section change is applied exactly when it names the current text, keeps the
      managed components and can be written, and both bundles are accepted: the body is
      printed with the one section rewritten, and the bundle gets its hash. */
  lemma SectionChangeApplies(env: Env, bundle: Bundle, body: string, change: Change)
    requires CanonicalText(body) == body && change.kind.SectionKind?
    ensures var applied := ApplyChange(env, bundle, body, change);
      if !(env.accepts(bundle) && NamesCurrent(env, bundle, body, change)) then applied.None?
      else
        var sections := Parse(env.names, body).value; var target := ParseTarget(env.names, change.key, 0).value;
        var after := Normalize(change.key, change.after);
        && ParseTarget(env.names, change.key, 0).Some?
        && var written := Write(env.tables, sections[target.section], target, after);
        var next := if written.Some? then Serialize(env.names, sections[target.section := written.value]) else "";
        var rehashed := bundle.(bodyHash := env.sha(CanonicalText(next)));
        if env.preserves(TargetBefore(env.tables, env.names, sections, change.key).value, after) && written.Some? && env.accepts(rehashed)
        then applied == Some((rehashed, next)) else applied.None?
  {
    hide Parse, Serialize, CanonicalText, Normalize, ParseTarget, Write, BeforeOf;
  }

  /** A metadata change is applied exactly when it names the current value, its text is
      JSON, and both bundles are accepted: the parsed value stands under its key, and
      nothing else of the bundle or the body changes. */
  lemma MetadataChangeApplies(env: Env, bundle: Bundle, body: string, change: Change)
    requires CanonicalText(body) == body && change.kind.MetadataKind?
    ensures var applied := ApplyChange(env, bundle, body, change); var value := env.json(change.after);
      if env.accepts(bundle) && NamesCurrent(env, bundle, body, change) && value.Some?
         && env.accepts(bundle.(metadata := bundle.metadata[change.key := value.value]))
      then applied == Some((bundle.(metadata := bundle.metadata[change.key := value.value]), body))
      else applied.None?
  {
    hide Parse, CanonicalText;
  }

  lemma ManualChangeNever(env: Env, bundle: Bundle, body: string, change: Change)
    requires change.kind.ManualKind?
    ensures ApplyChange(env, bundle, body, change).None?
  {
    hide CanonicalText;
  }

  // ----- metadata of an accepted revision -----

  predicate Sets(change: Change, key: string) {
    change.kind.MetadataKind? && change.key == key
  }

  /** No change from `i` on sets the key. */
  predicate Unset(changes: seq<Change>, key: string, i: nat) {
    forall j :: i <= j < |changes| ==> !Sets(changes[j], key)
  }

  /** The last change of a key decides its value; no other key changes, comes or goes. */
  predicate Edited(env: Env, before: Bundle, changes: seq<Change>, after: Bundle) {
    && after.context == before.context && after.metadata.Keys == before.metadata.Keys
    && (forall key :: key in before.metadata && Unset(changes, key, 0) ==> after.metadata[key] == before.metadata[key])
    && (forall i :: 0 <= i < |changes| && changes[i].kind.MetadataKind? && Unset(changes, changes[i].key, i + 1) ==>
          changes[i].key in after.metadata && env.json(changes[i].after) == Some(after.metadata[changes[i].key]))
  }

  /** What one applied change does to the bundle. */
  lemma OneEdit(env: Env, bundle: Bundle, input: string, change: Change)
    requires ApplyChange(env, bundle, input, change).Some?
    ensures var after := ApplyChange(env, bundle, input, change).value.0;
      && after.context == bundle.context
      && (change.kind.MetadataKind? ==>
            && change.key in bundle.metadata && env.json(change.after).Some?
            && after.metadata == bundle.metadata[change.key := env.json(change.after).value])
      && (!change.kind.MetadataKind? ==> after.metadata == bundle.metadata)
  {
    hide Parse, Serialize, CanonicalText, Normalize, ApplyTarget, TargetBefore;
  }

  lemma {:induction false} EachEdits(env: Env, bundle: Bundle, body: string, changes: seq<Change>)
    requires AcceptEach(env, bundle, body, changes).Some?
    ensures Edited(env, bundle, changes, AcceptEach(env, bundle, body, changes).value.0)
    decreases |changes|
  {
    if changes != [] {
      var first := Proposed(changes[0]);
      var applied := ApplyChange(env, bundle, body, first).value;
      OneEdit(env, bundle, body, first);
      EachEdits(env, applied.0, applied.1, changes[1..]);
      FirstSets(changes[0]);
      hide ApplyChange, AcceptEach, Proposed;
      var end := AcceptEach(env, bundle, body, changes).value.0;
      assert end == AcceptEach(env, applied.0, applied.1, changes[1..]).value.0 by { Unfold(env, bundle, body, changes); }
      EditedThen(env, bundle, changes, applied.0, end);
    }
  }

  lemma FirstSets(change: Change)
    ensures Proposed(change).kind == change.kind && Proposed(change).key == change.key
    ensures change.kind.MetadataKind? ==> Proposed(change) == change
  {
  }

  lemma Unfold(env: Env, bundle: Bundle, body: string, changes: seq<Change>)
    requires changes != [] && AcceptEach(env, bundle, body, changes).Some?
    ensures ApplyChange(env, bundle, body, Proposed(changes[0])).Some?
    ensures var applied := ApplyChange(env, bundle, body, Proposed(changes[0])).value;
      AcceptEach(env, bundle, body, changes) == AcceptEach(env, applied.0, applied.1, changes[1..])
  {
    hide ApplyChange, Proposed;
  }

  lemma EditedThen(env: Env, before: Bundle, changes: seq<Change>, mid: Bundle, after: Bundle)
    requires changes != [] && Edited(env, mid, changes[1..], after) && mid.context == before.context
    requires if changes[0].kind.MetadataKind? then
               && changes[0].key in before.metadata && env.json(changes[0].after).Some?
               && mid.metadata == before.metadata[changes[0].key := env.json(changes[0].after).value]
             else mid.metadata == before.metadata
    ensures Edited(env, before, changes, after)
  {
    forall key, i: nat | i < |changes|
      ensures Unset(changes, key, i + 1) <==> Unset(changes[1..], key, i)
      ensures Unset(changes, key, 0) ==> Unset(changes[1..], key, 0) && !Sets(changes[0], key)
    {
      assert forall j :: i + 1 <= j < |changes| ==> changes[j] == changes[1..][j - 1];
      assert forall j :: i <= j < |changes| - 1 ==> changes[1..][j] == changes[j + 1];
      assert forall j :: 0 <= j < |changes| - 1 ==> changes[1..][j] == changes[j + 1];
    }
    forall i | 0 <= i < |changes| && changes[i].kind.MetadataKind? && Unset(changes, changes[i].key, i + 1)
      ensures changes[i].key in after.metadata && env.json(changes[i].after) == Some(after.metadata[changes[i].key])
    {
      if i == 0 {
        assert Unset(changes[1..], changes[0].key, 0);
      } else {
        assert changes[i] == changes[1..][i - 1];
        assert Unset(changes[1..], changes[i].key, i);
      }
    }
  }

  /** An accepted revision holds the last value that the changes give to each key, and
      every other key and the context as they were. */
  lemma AcceptedMetadata(env: Env, bundle: Bundle, body: string, changes: seq<Change>)
    requires Accept(env, bundle, body, changes).Some?
    ensures Edited(env, bundle, changes, Accept(env, bundle, body, changes).value.0)
  {
    EachEdits(env, bundle, body, changes);
    hide AcceptEach, Unset, CanonicalText;
  }

  // ----- metadata of a candidate -----

  predicate SetsKept(k: Kept, key: string) {
    k.automatic && Sets(k.change, key)
  }

  /** Every kept automatic metadata change stands under its key, and nothing else has changed. */
  predicate Holds(env: Env, before: Bundle, kept: seq<Kept>, after: Bundle) {
    && after.context == before.context && after.metadata.Keys == before.metadata.Keys
    && (forall i :: 0 <= i < |kept| && kept[i].automatic && kept[i].change.kind.MetadataKind? ==>
          kept[i].change.key in after.metadata && env.json(kept[i].change.after) == Some(after.metadata[kept[i].change.key]))
    && (forall key :: key in before.metadata && (forall i :: 0 <= i < |kept| ==> !SetsKept(kept[i], key)) ==>
          after.metadata[key] == before.metadata[key])
  }

  lemma FoldOneEdits(env: Env, bundle: Bundle, sections: seq<string>, k: Kept)
    requires |sections| == |env.names| && FoldOne(env, bundle, sections, k).Some?
    ensures var after := FoldOne(env, bundle, sections, k).value.0;
      && after.context == bundle.context
      && (k.automatic && k.change.kind.MetadataKind? ==>
            && k.change.key in bundle.metadata && env.json(k.change.after).Some?
            && after.metadata == bundle.metadata[k.change.key := env.json(k.change.after).value])
      && (!(k.automatic && k.change.kind.MetadataKind?) ==> after.metadata == bundle.metadata)
  {
    if k.automatic {
      OneEdit(env, bundle, Serialize(env.names, sections), k.change);
    }
    hide ApplyChange, Serialize, Parse, BodyHash;
  }

  lemma {:induction false} FoldHolds(env: Env, bundle: Bundle, sections: seq<string>, kept: seq<Kept>)
    requires |sections| == |env.names| && FoldKept(env, bundle, sections, kept).Some? && AllApart(env, kept)
    ensures Holds(env, bundle, kept, FoldKept(env, bundle, sections, kept).value.0)
    decreases |kept|
  {
    hide FoldOne, AllApart, Holds;
    if kept != [] {
      var n := |kept| - 1;
      var before := FoldKept(env, bundle, sections, kept[..n]);
      FewerApart(env, kept);
      FoldHolds(env, bundle, sections, kept[..n]);
      FoldOneEdits(env, before.value.0, before.value.1, kept[n]);
      OthersDiffer(env, kept);
      HoldsThen(env, bundle, kept, before.value.0, FoldKept(env, bundle, sections, kept).value.0);
    } else {
      NothingHeld(env, bundle);
    }
  }

  lemma NothingHeld(env: Env, bundle: Bundle)
    ensures Holds(env, bundle, [], bundle)
  {
  }

  lemma FewerApart(env: Env, kept: seq<Kept>)
    requires AllApart(env, kept) && kept != []
    ensures AllApart(env, kept[..|kept| - 1])
  {
    hide Apart;
  }

  lemma OthersDiffer(env: Env, kept: seq<Kept>)
    requires AllApart(env, kept) && kept != []
    ensures forall i :: 0 <= i < |kept| - 1 && kept[i].change.kind == kept[|kept| - 1].change.kind ==>
      kept[i].change.key != kept[|kept| - 1].change.key
  {
    hide ParseTarget;
    forall i | 0 <= i < |kept| - 1
      ensures Apart(env, kept[i], kept[|kept| - 1])
    {
    }
  }

  lemma HoldsThen(env: Env, before: Bundle, kept: seq<Kept>, mid: Bundle, after: Bundle)
    requires kept != [] && Holds(env, before, kept[..|kept| - 1], mid) && after.context == mid.context
    requires var k := kept[|kept| - 1];
      if k.automatic && k.change.kind.MetadataKind? then
        && k.change.key in mid.metadata && env.json(k.change.after).Some?
        && after.metadata == mid.metadata[k.change.key := env.json(k.change.after).value]
      else after.metadata == mid.metadata
    requires forall i :: 0 <= i < |kept| - 1 && kept[i].change.kind == kept[|kept| - 1].change.kind ==>
      kept[i].change.key != kept[|kept| - 1].change.key
    ensures Holds(env, before, kept, after)
  {
    var n := |kept| - 1;
    assert forall i :: 0 <= i < n ==> kept[..n][i] == kept[i];
    forall key | key in before.metadata && forall i :: 0 <= i < |kept| ==> !SetsKept(kept[i], key)
      ensures after.metadata[key] == before.metadata[key]
    {
      assert forall i :: 0 <= i < n ==> !SetsKept(kept[..n][i], key);
      assert !SetsKept(kept[n], key);
    }
  }

  /** A candidate holds the parsed value of every kept automatic metadata change under
      its key, and every other key and the context as they were. */
  lemma CandidateMetadata(env: Env, bundle: Bundle, body: string, intents: seq<Intent>)
    requires Materialize(env, bundle, body, intents).Some?
    ensures var r := Materialize(env, bundle, body, intents).value; Holds(env, bundle, r.kept, r.bundle)
  {
    CandidateIsFoldOfKept(env, bundle, body, intents);
    var r := Materialize(env, bundle, body, intents).value;
    hide Materialize, FoldKept, AllApart, Parse, Serialize, BodyHash;
    FoldHolds(env, bundle, Parse(env.names, body).value, r.kept);
  }

  // ----- metadata alone -----

  predicate NoSectionKept(kept: seq<Kept>) {
    forall i :: 0 <= i < |kept| ==> !(kept[i].automatic && kept[i].change.kind.SectionKind?)
  }

  lemma FoldOneStays(env: Env, bundle: Bundle, sections: seq<string>, k: Kept, body: string)
    requires |sections| == |env.names| && FoldOne(env, bundle, sections, k).Some? && !(k.automatic && k.change.kind.SectionKind?)
    requires Parse(env.names, body) == Some(sections) && Serialize(env.names, sections) == body && CanonicalText(body) == body
    ensures FoldOne(env, bundle, sections, k).value.1 == sections
  {
    if k.automatic {
      AppliedHash(env, bundle, body, k.change);
    }
    hide ApplyChange, Serialize, Parse, BodyHash, CanonicalText;
  }

  lemma {:induction false} FoldStays(env: Env, bundle: Bundle, sections: seq<string>, kept: seq<Kept>, body: string)
    requires |sections| == |env.names| && FoldKept(env, bundle, sections, kept).Some? && NoSectionKept(kept)
    requires Parse(env.names, body) == Some(sections) && Serialize(env.names, sections) == body && CanonicalText(body) == body
    ensures FoldKept(env, bundle, sections, kept).value.1 == sections
    decreases |kept|
  {
    hide FoldOne, Parse, Serialize, CanonicalText;
    if kept != [] {
      var n := |kept| - 1;
      FoldStays(env, bundle, sections, kept[..n], body);
      FoldOneStays(env, FoldKept(env, bundle, sections, kept[..n]).value.0, sections, kept[n], body);
    }
  }

  /** Changes of metadata alone leave the body: of the candidate, and of the accepted revision. */
  lemma MetadataLeavesBody(env: Env, bundle: Bundle, body: string, intents: seq<Intent>, changes: seq<Change>)
    requires NormalForm(env, body)
    ensures Materialize(env, bundle, body, intents).Some? && NoSectionKept(Materialize(env, bundle, body, intents).value.kept) ==>
      Materialize(env, bundle, body, intents).value.body == body
    ensures Accept(env, bundle, body, changes).Some? && RC.NoSections(changes) ==>
      Accept(env, bundle, body, changes).value.1 == body
  {
    hide *;
    if Materialize(env, bundle, body, intents).Some? && NoSectionKept(Materialize(env, bundle, body, intents).value.kept) {
      CandidateBodyStays(env, bundle, body, intents);
    }
    if Accept(env, bundle, body, changes).Some? && RC.NoSections(changes) {
      AcceptedBodyStays(env, bundle, body, changes);
    }
  }

  lemma CandidateBodyStays(env: Env, bundle: Bundle, body: string, intents: seq<Intent>)
    requires NormalForm(env, body) && Materialize(env, bundle, body, intents).Some?
    requires NoSectionKept(Materialize(env, bundle, body, intents).value.kept)
    ensures Materialize(env, bundle, body, intents).value.body == body
  {
    hide Materialize, FoldKept, AllApart, Parse, Serialize, BodyHash, CanonicalText;
    NormalFormIsCanonical(env, body);
    CandidateIsFoldOfKept(env, bundle, body, intents);
    FoldStays(env, bundle, Parse(env.names, body).value, Materialize(env, bundle, body, intents).value.kept, body);
  }

  lemma AcceptedBodyStays(env: Env, bundle: Bundle, body: string, changes: seq<Change>)
    requires NormalForm(env, body) && Accept(env, bundle, body, changes).Some? && RC.NoSections(changes)
    ensures Accept(env, bundle, body, changes).value.1 == body
  {
    hide AcceptEach, Parse, Serialize, BodyHash, CanonicalText;
    NormalFormIsCanonical(env, body);
    RC.BodyStays(env, bundle, body, changes);
  }

  // ----- which intents are kept -----

  /** No kept change has this target, and a section target is separate from every kept one. */
  predicate Fits(env: Env, kept: seq<Kept>, kind: Kind, key: string) {
    && (forall i :: 0 <= i < |kept| ==> !(kept[i].change.kind == kind && kept[i].change.key == key))
    && (kind.SectionKind? ==>
          && ParseTarget(env.names, key, 0).Some?
          && forall i :: 0 <= i < |kept| && kept[i].change.kind.SectionKind? ==>
               var other := ParseTarget(env.names, kept[i].change.key, 0);
               other.Some? ==> Separate(env.tables, other.value, ParseTarget(env.names, key, 0).value))
  }

  /** The text of the target in the candidate so far, if it has one. */
  function Current(env: Env, d: Draft, kind: Kind, key: string): Option<string>
    requires |d.sections| == |env.names|
  {
    match kind
    case SectionKind =>
      var sections := Parse(env.names, Serialize(env.names, d.sections));
      if sections.None? then None else TargetBefore(env.tables, env.names, sections.value, key)
    case MetadataKind => if key in d.bundle.metadata then Some(d.bundle.metadata[key]) else None
    case ManualKind(_) => None
  }

  /** The change that the server stores for an intent. */
  function Stored(env: Env, d: Draft, intent: Intent): Change
    requires |d.sections| == |env.names|
  {
    var current := Current(env, d, intent.kind, intent.key);
    Change(intent.kind, intent.key,
           if current.None? then None
           else Some(if intent.kind.SectionKind? then env.sha(CanonicalText(current.value)) else env.sha(current.value)),
           if intent.kind.SectionKind? then Normalize(intent.key, intent.after) else intent.after)
  }

  /** Sections that can be read and publishable metadata keys that exist are edited; the
      rest is only suggested. */
  predicate Edits(env: Env, d: Draft, intent: Intent)
    requires |d.sections| == |env.names|
  {
    && !intent.kind.ManualKind? && Current(env, d, intent.kind, intent.key).Some?
    && (intent.kind.MetadataKind? ==> intent.key in env.metadataKeys)
  }

  /** An intent is kept exactly when it fits, a section target can be read, its edit
      applies and the revision that results is valid. */
  lemma KeepExact(env: Env, d: Draft, intent: Intent, position: nat)
    requires |d.sections| == |env.names|
    ensures var change := Stored(env, d, intent);
      var edited := if Edits(env, d, intent) then EditCandidate(env, d.bundle, d.sections, change) else Some((d.bundle, d.sections));
      Keep(env, d, intent, position) ==
        if !Fits(env, d.kept, intent.kind, intent.key)
           || (intent.kind.SectionKind? && Current(env, d, intent.kind, intent.key).None?) || edited.None? then None
        else
          var body := Serialize(env.names, edited.value.1);
          var rehashed := edited.value.0.(bodyHash := env.sha(CanonicalText(body)));
          if env.accepts(rehashed) && env.valid(rehashed, body)
          then Some(d.(bundle := rehashed, sections := edited.value.1,
                       kept := d.kept + [Kept(change, Edits(env, d, intent), intent.findings, position)]))
          else None
  {
    FitsMeans(env, d.kept, intent.kind, intent.key);
    hide Serialize, Parse, CanonicalText, Normalize, ParseTarget, TargetBefore, EditCandidate, Fits, Seen, SectionOverlaps;
  }

  lemma FitsMeans(env: Env, kept: seq<Kept>, kind: Kind, key: string)
    ensures Fits(env, kept, kind, key) <==>
      && !Seen(kept, kind, key)
      && (kind.SectionKind? ==> ParseTarget(env.names, key, 0).Some? && !SectionOverlaps(env, kept, key))
  {
    hide ParseTarget;
    if kind.SectionKind? && ParseTarget(env.names, key, 0).Some? {
      forall i | 0 <= i < |kept|
        ensures TargetsOverlap(env, kept[i], ParseTarget(env.names, key, 0).value) <==>
          kept[i].change.kind.SectionKind? && ParseTarget(env.names, kept[i].change.key, 0).Some?
          && !Separate(env.tables, ParseTarget(env.names, kept[i].change.key, 0).value, ParseTarget(env.names, key, 0).value)
      {
      }
      hide TargetsOverlap, Separate;
    }
  }

  /** The value that a publishable metadata change proposes: its text as JSON, or else
      as a string where the current value is one; a text that is neither ends the fold. */
  lemma ProposedValue(env: Env, bundle: Bundle, intent: Intent)
    ensures NormalizeMetadata(env, bundle, intent) ==
      if intent.kind.MetadataKind? && intent.key in env.metadataKeys && intent.key in bundle.metadata then
        if env.json(intent.after).Some? then Some(intent.(after := env.json(intent.after).value))
        else if env.isString(bundle.metadata[intent.key]) then Some(intent.(after := env.quote(intent.after))) else None
      else Some(intent)
  {
  }

  /** Of two section intents of one section, one of them for the whole of it or both for
      the same subheading or block, at most one is kept; the other is discarded. */
  lemma CollidingIsDiscarded(env: Env, bundle: Bundle, body: string, intents: seq<Intent>, p: nat, q: nat)
    requires Materialize(env, bundle, body, intents).Some? && p < q < |intents|
    requires intents[p].kind.SectionKind? && intents[q].kind.SectionKind?
    requires var s, t := ParseTarget(env.names, intents[p].key, 0), ParseTarget(env.names, intents[q].key, 0);
      s.Some? && t.Some? && !Separate(env.tables, s.value, t.value)
    ensures var r := Materialize(env, bundle, body, intents).value; p in DiscardedAt(r.discarded) || q in DiscardedAt(r.discarded)
  {
    hide *;
    IntentsConserved(env, bundle, body, intents);
    CandidateIsFoldOfKept(env, bundle, body, intents);
    var r := Materialize(env, bundle, body, intents).value;
    OneOfTwo(env, r.kept, r.discarded, intents, p, q);
  }

  lemma OneOfTwo(env: Env, kept: seq<Kept>, discarded: seq<Discarded>, intents: seq<Intent>, p: nat, q: nat)
    requires AllApart(env, kept) && Faithful(kept, discarded, intents) && p < q < |intents|
    requires Partition(KeptAt(kept), DiscardedAt(discarded), |intents|)
    requires intents[p].kind.SectionKind? && intents[q].kind.SectionKind?
    requires var s, t := ParseTarget(env.names, intents[p].key, 0), ParseTarget(env.names, intents[q].key, 0);
      s.Some? && t.Some? && !Separate(env.tables, s.value, t.value)
    ensures p in DiscardedAt(discarded) || q in DiscardedAt(discarded)
  {
    hide ParseTarget, AllApart;
    if p in KeptAt(kept) && q in KeptAt(kept) {
      var i :| 0 <= i < |kept| && kept[i].position == p;
      var j :| 0 <= j < |kept| && kept[j].position == q;
      TwoApart(env, kept, if i < j then i else j, if i < j then j else i);
    }
  }

  lemma TwoApart(env: Env, kept: seq<Kept>, i: nat, j: nat)
    requires AllApart(env, kept) && i < j < |kept|
    ensures Apart(env, kept[i], kept[j])
  {
    hide Apart;
  }

  // ----- every intent, one after the other -----

  /** What becomes of intent `p`: an ill-formed one is discarded; another, with its metadata
      value read, is kept when it can be and discarded otherwise. */
  predicate Handles(env: Env, before: Draft, intent: Intent, p: nat, after: Draft) {
    && |before.sections| == |env.names|
    && if !intent.wellFormed then after == before.(discarded := before.discarded + [Discarded(intent, p)])
       else
         var read := NormalizeMetadata(env, before.bundle, intent);
         && read.Some?
         && var kept := Keep(env, before, read.value, p);
            after == if kept.Some? then kept.value else before.(discarded := before.discarded + [Discarded(read.value, p)])
  }

  /** The drafts before, between and after the intents. */
  predicate Trail(env: Env, drafts: seq<Draft>, intents: seq<Intent>, first: nat) {
    |drafts| == |intents| + 1 && forall p :: 0 <= p < |intents| ==> Handles(env, drafts[p], intents[p], first + p, drafts[p + 1])
  }

  lemma TurnHandles(env: Env, d: Draft, intent: Intent, p: nat)
    requires |d.sections| == |env.names|
    ensures Turn(env, d, intent, p).Some? ==> Handles(env, d, intent, p, Turn(env, d, intent, p).value)
    ensures forall after :: Handles(env, d, intent, p, after) ==> Turn(env, d, intent, p) == Some(after)
  {
    hide Keep, NormalizeMetadata;
  }

  lemma {:induction false} TurnsLeaveTrail(env: Env, d: Draft, intents: seq<Intent>, first: nat) returns (drafts: seq<Draft>)
    requires |d.sections| == |env.names| && Turns(env, d, intents, first).Some?
    ensures Trail(env, drafts, intents, first) && drafts[0] == d && drafts[|intents|] == Turns(env, d, intents, first).value
    decreases |intents|
  {
    hide Turn, Handles;
    if intents == [] {
      drafts := [d];
    } else {
      TurnHandles(env, d, intents[0], first);
      var next := Turn(env, d, intents[0], first).value;
      var rest := TurnsLeaveTrail(env, next, intents[1..], first + 1);
      drafts := [d] + rest;
      forall p | 0 <= p < |intents|
        ensures Handles(env, drafts[p], intents[p], first + p, drafts[p + 1])
      {
        if p > 0 {
          assert Handles(env, rest[p - 1], intents[1..][p - 1], first + 1 + (p - 1), rest[p]);
        }
      }
    }
  }

  lemma {:induction false} TrailIsTurns(env: Env, drafts: seq<Draft>, intents: seq<Intent>, first: nat)
    requires Trail(env, drafts, intents, first) && |drafts[0].sections| == |env.names|
    ensures Turns(env, drafts[0], intents, first) == Some(drafts[|intents|])
    decreases |intents|
  {
    hide Turn, Handles;
    if intents != [] {
      assert Handles(env, drafts[0], intents[0], first + 0, drafts[1]);
      TurnHandles(env, drafts[0], intents[0], first);
      forall p | 0 <= p < |intents| - 1
        ensures Handles(env, drafts[1..][p], intents[1..][p], first + 1 + p, drafts[1..][p + 1])
      {
        assert Handles(env, drafts[p + 1], intents[p + 1], first + (p + 1), drafts[p + 2]);
      }
      TrailIsTurns(env, drafts[1..], intents[1..], first + 1);
    }
  }

  /** What the last draft gives, if its bundle and body are accepted. */
  predicate Completes(env: Env, last: Draft, r: Option<Result>) {
    |last.sections| == |env.names| &&
    var body := Serialize(env.names, last.sections);
    var bundle := last.bundle.(bodyHash := env.sha(CanonicalText(body)));
    r == if env.accepts(bundle) && env.valid(bundle, body) then Some(Result(bundle, body, last.kept, last.discarded)) else None
  }

  /** There is a candidate only when every intent was handled in turn from the input on,
      and it is then what the last draft gives. */
  lemma CandidateHandlesEach(env: Env, bundle: Bundle, body: string, intents: seq<Intent>) returns (drafts: seq<Draft>)
    requires Materialize(env, bundle, body, intents).Some?
    ensures env.accepts(bundle) && Parse(env.names, body).Some? && Trail(env, drafts, intents, 0)
    ensures drafts[0] == Draft(bundle, Parse(env.names, body).value, [], [])
    ensures Completes(env, drafts[|intents|], Materialize(env, bundle, body, intents))
  {
    hide Turns, Trail, Parse, Serialize, CanonicalText;
    drafts := TurnsLeaveTrail(env, Draft(bundle, Parse(env.names, body).value, [], []), intents, 0);
    assert |drafts| == |intents| + 1 by {
      TrailLength(env, drafts, intents);
    }
  }

  lemma TrailLength(env: Env, drafts: seq<Draft>, intents: seq<Intent>)
    requires Trail(env, drafts, intents, 0)
    ensures |drafts| == |intents| + 1
  {
    hide Handles;
  }

  /** Whenever every intent can be handled in turn, the last draft decides. */
  lemma HandledGivesCandidate(env: Env, bundle: Bundle, body: string, intents: seq<Intent>, drafts: seq<Draft>)
    requires env.accepts(bundle) && Parse(env.names, body).Some? && Trail(env, drafts, intents, 0)
    requires drafts[0] == Draft(bundle, Parse(env.names, body).value, [], [])
    ensures |drafts| == |intents| + 1 && Completes(env, drafts[|intents|], Materialize(env, bundle, body, intents))
  {
    hide Turns, Trail, Parse, Serialize, CanonicalText;
    TrailLength(env, drafts, intents);
    TrailIsTurns(env, drafts, intents, 0);
  }

  /** An intent reaches the loop exactly when all findings it refers to exist, at its place. */
  lemma FilterExact(canonical: string -> string, keys: set<string>, intents: seq<Intent>)
    ensures var f := Filter(canonical, keys, intents);
      && |f.accepted| == |f.positions|
      && (forall p: nat :: p in f.positions <==>
            p < |intents| && forall i :: 0 <= i < |intents[p].findings| ==> canonical(intents[p].findings[i]) in keys)
      && (forall k :: 0 <= k < |f.positions| ==> f.positions[k] < |intents| && f.accepted[k] == intents[f.positions[k]])
      && (forall k, l :: 0 <= k < l < |f.positions| ==> f.positions[k] < f.positions[l])
  {
    FilterAscends(canonical, keys, intents);
    FilterSplits(canonical, keys, intents);
    var f := Filter(canonical, keys, intents);
    forall p: nat
      ensures p in f.positions <==>
        p < |intents| && forall i :: 0 <= i < |intents[p].findings| ==> canonical(intents[p].findings[i]) in keys
    {
      if p in f.positions {
        var k :| 0 <= k < |f.positions| && f.positions[k] == p;
        assert Refers(canonical, keys, f.accepted[k]);
      } else if p < |intents| {
        assert p in DiscardedAt(f.discarded);
        var k :| 0 <= k < |f.discarded| && f.discarded[k].position == p;
        assert !Refers(canonical, keys, f.discarded[k].intent);
      }
    }
  }

  predicate Ascends(s: seq<nat>, n: nat) {
    (forall k :: 0 <= k < |s| ==> s[k] < n) && forall k, l :: 0 <= k < l < |s| ==> s[k] < s[l]
  }

  lemma Grows(before: seq<nat>, n: nat, after: seq<nat>)
    requires Ascends(before, n) && (after == before || after == before + [n])
    ensures Ascends(after, n + 1)
  {
  }

  lemma {:induction false} FilterAscends(canonical: string -> string, keys: set<string>, intents: seq<Intent>)
    ensures Ascends(Filter(canonical, keys, intents).positions, |intents|)
  {
    hide Refers;
    if intents != [] {
      var n := |intents| - 1;
      FilterAscends(canonical, keys, intents[..n]);
      Grows(Filter(canonical, keys, intents[..n]).positions, n, Filter(canonical, keys, intents).positions);
    }
  }
}
