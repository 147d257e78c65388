/** What a caller can look at to know whether accepting the suggestions of a review
    replays its candidate: the last section that is written decides. */
module ReplayConditions {
  import opened Common
  import opened Text
  import opened SituationText
  import opened SectionTargets
  import opened HiddenHeadings
  import opened Candidate
  import opened CandidateReplay

  /** The text that a section change writes. */
  function Replacement(change: Change): string {
    Trim(CanonicalText(Normalize(change.key, change.after)))
  }

  /** Neither the replacement nor the text behind its target puts a level-2 heading
      line into the section.  Only a named block can have such text behind it. */
  predicate Harmless(env: Env, body: string, change: Change)
    requires Parse(env.names, body).Some?
  {
    change.kind.SectionKind? ==>
      var target := ParseTarget(env.names, change.key, 0);
      && target.Some? && NoHeading(Replacement(change))
      && !HeadingAt(Behind(env.tables, Parse(env.names, body).value[target.value.section], target.value), 0)
  }

  lemma NormalHasNone(env: Env, body: string)
    requires ValidNames(env.names) && NormalForm(env, body)
    ensures NoHeadings(Parse(env.names, body).value) && Clean(Parse(env.names, body).value) && CanonicalText(body) == body
    ensures Readable(env, body)
  {
    hide Serialize, Parse, CanonicalText, NoHeadings, Clean, ValidNames;
    SerializeAfterParse(env.names, body);
    ParseIsClean(env.names, body);
    NormalFormIsCanonical(env, body);
  }

  /** A section change is the write of its replacement, printed. */
  lemma SectionChangeIs(env: Env, bundle: Bundle, body: string, change: Change)
    requires CanonicalText(body) == body && change.kind.SectionKind? && ApplyChange(env, bundle, body, change).Some?
    ensures var sections := Parse(env.names, body); var target := ParseTarget(env.names, change.key, 0);
      && sections.Some? && target.Some? && target.value.section < |sections.value|
      && var written := Write(env.tables, sections.value[target.value.section], target.value, Normalize(change.key, change.after));
         && written.Some?
         && ApplyChange(env, bundle, body, change).value.1 ==
              Serialize(env.names, sections.value[target.value.section := written.value])
  {
    hide Parse, Serialize, CanonicalText, Normalize, ParseTarget, Write, ChangeBefore;
  }

  lemma OneSection(sections: seq<string>, k: nat, written: string)
    requires k < |sections| && Clean(sections) && NoHeadings(sections) && CleanText(written)
    ensures Clean(sections[k := written]) && (NoHeadings(sections[k := written]) <==> NoHeading(written))
  {
    hide NoHeading, Trimmed, Has;
    var x := sections[k := written];
    assert x[k] == written;
  }

  /** A section change leaves a body in normal form exactly when it is harmless. */
  lemma SectionChangeExact(env: Env, bundle: Bundle, body: string, change: Change)
    requires ValidNames(env.names) && CanonicalText(body) == body
    requires Parse(env.names, body).Some? && NoHeadings(Parse(env.names, body).value)
    requires change.kind.SectionKind? && ApplyChange(env, bundle, body, change).Some?
    ensures NormalForm(env, ApplyChange(env, bundle, body, change).value.1) <==> Harmless(env, body, change)
    ensures Harmless(env, body, change) ==>
      var sections := Parse(env.names, body).value; var target := ParseTarget(env.names, change.key, 0).value;
      var written := Write(env.tables, sections[target.section], target, Normalize(change.key, change.after));
      && target.section < |sections| && written.Some?
      && Parse(env.names, ApplyChange(env, bundle, body, change).value.1) == Some(sections[target.section := written.value])
  {
    ParseIsClean(env.names, body);
    SectionChangeIs(env, bundle, body, change);
    var sections := Parse(env.names, body).value;
    var target := ParseTarget(env.names, change.key, 0).value;
    var c := sections[target.section];
    var after := Normalize(change.key, change.after);
    var written := Write(env.tables, c, target, after).value;
    assert CleanText(c) && NoHeading(c);
    var x := sections[target.section := written];
    hide Parse, Serialize, CanonicalText, Normalize, ParseTarget, Write, ApplyChange, NoHeading, NoHeadings, Clean, CleanText, ValidNames, HeadingAt, Behind, Trim;
    WrittenHeadingsExact(env.tables, c, target, after);
    OneSection(sections, target.section, written);
    PrintedIsNormalExact(env.names, x);
    if NoHeadings(x) {
      RoundTrip(env.names, x);
    }
  }

  /** Any change of a body in normal form. */
  lemma ChangeKeepsNormal(env: Env, bundle: Bundle, body: string, change: Change)
    requires ValidNames(env.names) && NormalForm(env, body) && ApplyChange(env, bundle, body, change).Some?
    ensures NormalForm(env, ApplyChange(env, bundle, body, change).value.1) <==> Harmless(env, body, change)
  {
    NormalHasNone(env, body);
    AppliedHash(env, bundle, body, change);
    hide Parse, Serialize, CanonicalText, ApplyChange, ValidNames, NoHeadings, Clean, NoHeading, Behind, ParseTarget, Replacement;
    if change.kind.SectionKind? {
      SectionChangeExact(env, bundle, body, change);
    }
  }

  // ----- every change harmless -----

  /** Every change is harmless for the body it is applied to. */
  predicate Plain(env: Env, bundle: Bundle, body: string, changes: seq<Change>)
    requires Parse(env.names, body).Some?
    decreases |changes|
  {
    changes != [] ==>
      var applied := ApplyChange(env, bundle, body, Proposed(changes[0]));
      applied.Some? ==>
        && Harmless(env, body, Proposed(changes[0]))
        && (Parse(env.names, applied.value.1).Some? ==> Plain(env, applied.value.0, applied.value.1, changes[1..]))
  }

  lemma {:induction false} PlainStaysNormal(env: Env, bundle: Bundle, body: string, changes: seq<Change>)
    requires ValidNames(env.names) && NormalForm(env, body) && Plain(env, bundle, body, changes)
    ensures Flows(env, bundle, body, changes)
    ensures var reached := AcceptEach(env, bundle, body, changes); reached.Some? ==> NormalForm(env, reached.value.1)
    decreases |changes|
  {
    if changes != [] {
      NormalHasNone(env, body);
      var applied := ApplyChange(env, bundle, body, Proposed(changes[0]));
      if applied.Some? {
        ChangeKeepsNormal(env, bundle, body, Proposed(changes[0]));
        hide ApplyChange, Parse, Harmless, ValidNames, Readable, Serialize;
        PlainStaysNormal(env, applied.value.0, applied.value.1, changes[1..]);
      }
    }
    hide ApplyChange, Parse, Harmless, NormalForm, Readable;
  }

  /** Harmless suggestions of all three kinds of target are accepted into exactly the audited candidate. */
  lemma ReplayOfPlainReplacements(env: Env, bundle: Bundle, body: string, intents: seq<Intent>)
    requires env.names == REQUIRED && NormalForm(env, body) && bundle.bodyHash == BodyHash(env, body)
    requires Materialize(env, bundle, body, intents).Some? && Parse(env.names, body).Some?
    requires var changes := Automatic(Materialize(env, bundle, body, intents).value.kept);
      Settled(changes) && Plain(env, bundle, body, changes)
    ensures var candidate := Materialize(env, bundle, body, intents).value;
      Accept(env, bundle, body, Automatic(candidate.kept)) == Some((candidate.bundle, candidate.body))
  {
    RequiredNamesAreValid();
    hide *;
    PlainStaysNormal(env, bundle, body, Automatic(Materialize(env, bundle, body, intents).value.kept));
    ReplayExact(env, bundle, body, intents);
  }

  // ----- a condition on the inputs alone -----

  predicate AllUnhidden(sections: seq<string>) {
    forall k :: 0 <= k < |sections| ==> NoHidden(sections[k])
  }

  predicate ReplacementsUnhidden(changes: seq<Change>) {
    forall i :: 0 <= i < |changes| && changes[i].kind.SectionKind? ==> NoHidden(Replacement(changes[i]))
  }

  lemma SectionAtKey(env: Env, sections: seq<string>, k: nat)
    requires k < |sections| && Clean(sections) && AllUnhidden(sections)
    ensures CleanText(sections[k]) && NoHidden(sections[k])
  {
    hide NoHidden, Trimmed, Has;
  }

  lemma OneUnhidden(sections: seq<string>, k: nat, written: string)
    requires k < |sections| && AllUnhidden(sections) && NoHidden(written)
    ensures AllUnhidden(sections[k := written])
  {
    hide NoHidden;
  }

  lemma HarmlessIs(env: Env, body: string, change: Change)
    requires Parse(env.names, body).Some? && ParseTarget(env.names, change.key, 0).Some? && NoHeading(Replacement(change))
    requires var target := ParseTarget(env.names, change.key, 0).value;
      !HeadingAt(Behind(env.tables, Parse(env.names, body).value[target.section], target), 0)
    ensures Harmless(env, body, change)
  {
    hide Parse, ParseTarget, Behind, HeadingAt, NoHeading;
  }

  lemma ReplacementIs(change: Change)
    ensures Replacement(change) == Trim(CanonicalText(Normalize(change.key, change.after)))
  {
  }

  lemma UnhiddenSection(env: Env, bundle: Bundle, body: string, change: Change)
    requires ValidNames(env.names) && NormalForm(env, body) && ApplyChange(env, bundle, body, change).Some?
    requires Parse(env.names, body).Some? && AllUnhidden(Parse(env.names, body).value)
    requires change.kind.SectionKind? && NoHidden(Replacement(change))
    ensures Harmless(env, body, change)
    ensures var next := ApplyChange(env, bundle, body, change).value.1;
      NormalForm(env, next) && Parse(env.names, next).Some? && AllUnhidden(Parse(env.names, next).value)
  {
    hide *;
    NormalHasNone(env, body);
    SectionChangeIs(env, bundle, body, change);
    var sections := Parse(env.names, body).value;
    var target := ParseTarget(env.names, change.key, 0).value;
    var after := Normalize(change.key, change.after);
    SectionAtKey(env, sections, target.section);
    ReplacementIs(change);
    WrittenHides(env.tables, sections[target.section], target, after);
    NoHiddenNoHeading(Replacement(change));
    HarmlessIs(env, body, change);
    SectionChangeExact(env, bundle, body, change);
    OneUnhidden(sections, target.section, Write(env.tables, sections[target.section], target, after).value);
  }

  lemma UnhiddenChange(env: Env, bundle: Bundle, body: string, change: Change)
    requires ValidNames(env.names) && NormalForm(env, body) && ApplyChange(env, bundle, body, change).Some?
    requires AllUnhidden(Parse(env.names, body).value) && (change.kind.SectionKind? ==> NoHidden(Replacement(change)))
    ensures Harmless(env, body, change)
    ensures var next := ApplyChange(env, bundle, body, change).value.1;
      NormalForm(env, next) && AllUnhidden(Parse(env.names, next).value)
  {
    hide Parse, Serialize, CanonicalText, ApplyChange, AllUnhidden, NoHidden, Replacement, ValidNames, Behind, HeadingAt, NoHeading, ParseTarget;
    if change.kind.SectionKind? {
      UnhiddenSection(env, bundle, body, change);
    } else {
      NormalHasNone(env, body);
      AppliedHash(env, bundle, body, change);
    }
  }

  lemma {:induction false} UnhiddenIsPlain(env: Env, bundle: Bundle, body: string, changes: seq<Change>)
    requires ValidNames(env.names) && NormalForm(env, body) && AllUnhidden(Parse(env.names, body).value)
    requires Settled(changes) && ReplacementsUnhidden(changes)
    ensures Plain(env, bundle, body, changes)
    decreases |changes|
  {
    if changes != [] {
      SettledHead(changes);
      var applied := ApplyChange(env, bundle, body, Proposed(changes[0]));
      if applied.Some? {
        hide ApplyChange, Parse, Harmless, ValidNames, Serialize, NormalForm, AllUnhidden, Replacement, NoHidden, Settled, Proposed;
        UnhiddenChange(env, bundle, body, changes[0]);
        UnhiddenIsPlain(env, applied.value.0, applied.value.1, changes[1..]);
      }
    }
    hide ApplyChange, Parse, Harmless, NormalForm;
  }

  /** A condition on the inputs alone: when no line of the input sections and of the
      stored replacements reads as a level-2 heading once its indentation is removed,
      accepting everything replays the candidate, whatever the targets are. */
  lemma ReplayOfUnhiddenReplacements(env: Env, bundle: Bundle, body: string, intents: seq<Intent>)
    requires env.names == REQUIRED && NormalForm(env, body) && bundle.bodyHash == BodyHash(env, body)
    requires Parse(env.names, body).Some? && AllUnhidden(Parse(env.names, body).value)
    requires Materialize(env, bundle, body, intents).Some?
    requires var changes := Automatic(Materialize(env, bundle, body, intents).value.kept);
      Settled(changes) && ReplacementsUnhidden(changes)
    ensures var candidate := Materialize(env, bundle, body, intents).value;
      Accept(env, bundle, body, Automatic(candidate.kept)) == Some((candidate.bundle, candidate.body))
  {
    RequiredNamesAreValid();
    hide *;
    UnhiddenIsPlain(env, bundle, body, Automatic(Materialize(env, bundle, body, intents).value.kept));
    ReplayOfPlainReplacements(env, bundle, body, intents);
  }

  // ----- no named block -----

  /** Whole sections and subheadings only, each replacement without a heading line. */
  predicate Unblocked(env: Env, changes: seq<Change>) {
    forall i :: 0 <= i < |changes| && changes[i].kind.SectionKind? ==>
      && NoHeading(Replacement(changes[i]))
      && var target := ParseTarget(env.names, changes[i].key, 0); target.Some? ==> !target.value.NamedBlock?
  }

  lemma SectionIsPlain(sections: seq<string>, k: nat)
    requires k < |sections| && Clean(sections) && NoHeadings(sections)
    ensures CleanText(sections[k]) && NoHeading(sections[k])
  {
    hide NoHeading, Trimmed, Has;
  }

  lemma UnblockedTarget(env: Env, change: Change)
    requires Unblocked(env, [change]) && change.kind.SectionKind?
    ensures NoHeading(Replacement(change))
    ensures var target := ParseTarget(env.names, change.key, 0); target.Some? ==> !target.value.NamedBlock?
  {
    assert [change][0] == change;
  }

  /** Such a change never has a heading line behind its target. */
  lemma UnblockedIsHarmless(env: Env, bundle: Bundle, body: string, change: Change)
    requires ValidNames(env.names) && NormalForm(env, body) && ApplyChange(env, bundle, body, change).Some?
    requires Parse(env.names, body).Some? && Unblocked(env, [change]) && change.kind.SectionKind?
    ensures Harmless(env, body, change)
  {
    hide *;
    NormalHasNone(env, body);
    SectionChangeIs(env, bundle, body, change);
    UnblockedTarget(env, change);
    var sections := Parse(env.names, body).value;
    var target := ParseTarget(env.names, change.key, 0).value;
    SectionIsPlain(sections, target.section);
    OnlyBlocksExpose(env.tables, sections[target.section], target);
    HarmlessIs(env, body, change);
  }

  lemma UnblockedChange(env: Env, bundle: Bundle, body: string, change: Change)
    requires ValidNames(env.names) && NormalForm(env, body) && ApplyChange(env, bundle, body, change).Some?
    requires Parse(env.names, body).Some? && Unblocked(env, [change])
    ensures Harmless(env, body, change) && NormalForm(env, ApplyChange(env, bundle, body, change).value.1)
  {
    hide Parse, ApplyChange, Unblocked, ValidNames, ParseTarget, Behind, HeadingAt, NoHeading, Replacement, Serialize;
    if change.kind.SectionKind? {
      UnblockedIsHarmless(env, bundle, body, change);
    }
    ChangeKeepsNormal(env, bundle, body, change);
  }

  lemma UnblockedHead(env: Env, changes: seq<Change>)
    requires Unblocked(env, changes) && changes != []
    ensures Unblocked(env, [changes[0]]) && Unblocked(env, changes[1..])
  {
    hide NoHeading, Replacement, ParseTarget;
  }

  lemma {:induction false} UnblockedIsPlain(env: Env, bundle: Bundle, body: string, changes: seq<Change>)
    requires ValidNames(env.names) && NormalForm(env, body) && Settled(changes) && Unblocked(env, changes)
    ensures Plain(env, bundle, body, changes)
    decreases |changes|
  {
    if changes != [] {
      SettledHead(changes);
      UnblockedHead(env, changes);
      var applied := ApplyChange(env, bundle, body, Proposed(changes[0]));
      if applied.Some? {
        hide ApplyChange, Parse, Harmless, ValidNames, Serialize, Unblocked, Settled, Proposed;
        UnblockedChange(env, bundle, body, changes[0]);
        UnblockedIsPlain(env, applied.value.0, applied.value.1, changes[1..]);
      }
    }
    hide ApplyChange, Parse, Harmless, NormalForm;
  }

  /** The same from a weaker condition on the inputs when no named block is written:
      whole sections and subheadings, whose stored replacements hold no heading line. */
  lemma ReplayWithoutNamedBlocks(env: Env, bundle: Bundle, body: string, intents: seq<Intent>)
    requires env.names == REQUIRED && NormalForm(env, body) && bundle.bodyHash == BodyHash(env, body)
    requires Materialize(env, bundle, body, intents).Some?
    requires var changes := Automatic(Materialize(env, bundle, body, intents).value.kept);
      Settled(changes) && Unblocked(env, changes)
    ensures var candidate := Materialize(env, bundle, body, intents).value;
      Accept(env, bundle, body, Automatic(candidate.kept)) == Some((candidate.bundle, candidate.body))
  {
    RequiredNamesAreValid();
    NormalHasSections(env, body);
    hide *;
    UnblockedIsPlain(env, bundle, body, Automatic(Materialize(env, bundle, body, intents).value.kept));
    ReplayOfPlainReplacements(env, bundle, body, intents);
  }

  lemma NormalHasSections(env: Env, body: string)
    requires NormalForm(env, body)
    ensures Parse(env.names, body).Some?
  {
  }

  // ----- the last section that is written decides -----

  predicate NoSections(changes: seq<Change>) {
    forall i :: 0 <= i < |changes| ==> !changes[i].kind.SectionKind?
  }

  /** Changes of metadata leave the body. */
  lemma {:induction false} BodyStays(env: Env, bundle: Bundle, body: string, changes: seq<Change>)
    requires CanonicalText(body) == body && NoSections(changes) && AcceptEach(env, bundle, body, changes).Some?
    ensures AcceptEach(env, bundle, body, changes).value.1 == body
    decreases |changes|
  {
    hide ApplyChange, CanonicalText;
    if changes != [] {
      var change := Proposed(changes[0]);
      AppliedHash(env, bundle, body, change);
      BodyStays(env, ApplyChange(env, bundle, body, change).value.0, body, changes[1..]);
    }
  }

  /** Accepting in order reaches the body before the last section change, and keeps flowing. */
  lemma {:induction false} UpToChange(env: Env, bundle: Bundle, body: string, first: seq<Change>, change: Change, rest: seq<Change>)
    requires CanonicalText(body) == body && Flows(env, bundle, body, first + [change] + rest)
    requires AcceptEach(env, bundle, body, first + [change] + rest).Some?
    ensures var before := AcceptEach(env, bundle, body, first);
      && before.Some? && CanonicalText(before.value.1) == before.value.1 && Readable(env, before.value.1)
      && var applied := ApplyChange(env, before.value.0, before.value.1, Proposed(change));
         && applied.Some? && AcceptEach(env, applied.value.0, applied.value.1, rest).Some?
         && AcceptEach(env, bundle, body, first + [change] + rest) == AcceptEach(env, applied.value.0, applied.value.1, rest)
    decreases |first|
  {
    hide ApplyChange, CanonicalText, Readable;
    var all := first + [change] + rest;
    FlowsHead(env, bundle, body, all);
    if first == [] {
      assert all[0] == change && all[1..] == rest;
    } else {
      assert all[0] == first[0] && all[1..] == first[1..] + [change] + rest;
      AppliedHash(env, bundle, body, Proposed(first[0]));
      var applied := ApplyChange(env, bundle, body, Proposed(first[0])).value;
      UpToChange(env, applied.0, applied.1, first[1..], change, rest);
    }
  }

  /** Whatever was written before: the replay gives the candidate exactly when the last
      section change is harmless for the body it is applied to. */
  lemma LastWriteDecides(env: Env, bundle: Bundle, body: string, intents: seq<Intent>, first: seq<Change>, change: Change, rest: seq<Change>)
    requires env.names == REQUIRED && NormalForm(env, body) && bundle.bodyHash == BodyHash(env, body)
    requires Materialize(env, bundle, body, intents).Some?
    requires Automatic(Materialize(env, bundle, body, intents).value.kept) == first + [change] + rest
    requires change.kind.SectionKind? && NoSections(rest)
    requires Settled(first + [change] + rest) && Flows(env, bundle, body, first + [change] + rest)
    ensures var candidate := Materialize(env, bundle, body, intents).value;
      var before := AcceptEach(env, bundle, body, first);
      && before.Some? && Parse(env.names, before.value.1).Some?
      && (Accept(env, bundle, body, first + [change] + rest) == Some((candidate.bundle, candidate.body)) <==>
            Harmless(env, before.value.1, Proposed(change)))
  {
    RequiredNamesAreValid();
    NormalFormIsCanonical(env, body);
    hide *;
    ReplayExact(env, bundle, body, intents);
    UpToChange(env, bundle, body, first, change, rest);
    var before := AcceptEach(env, bundle, body, first).value;
    ReadableMeans(env, before.1);
    ProposedKind(change);
    AppliedHash(env, before.0, before.1, Proposed(change));
    var applied := ApplyChange(env, before.0, before.1, Proposed(change)).value;
    BodyStays(env, applied.0, applied.1, rest);
    SectionChangeExact(env, before.0, before.1, Proposed(change));
  }

  lemma ReadableMeans(env: Env, body: string)
    requires Readable(env, body)
    ensures Parse(env.names, body).Some? && NoHeadings(Parse(env.names, body).value)
  {
  }

  lemma ProposedKind(change: Change)
    ensures Proposed(change).kind == change.kind && Proposed(change).key == change.key
  {
  }

  lemma OneFlows(env: Env, bundle: Bundle, body: string, change: Change)
    requires Readable(env, body)
    ensures Flows(env, bundle, body, [change]) && AcceptEach(env, bundle, body, []) == Some((bundle, body))
    ensures [] + [change] + [] == [change]
  {
    hide ApplyChange, Readable, Proposed;
    assert [change][1..] == [];
  }

  /** A review with one automatic suggestion: no other condition is left. */
  lemma OneWriteExact(env: Env, bundle: Bundle, body: string, intents: seq<Intent>, change: Change)
    requires env.names == REQUIRED && NormalForm(env, body) && bundle.bodyHash == BodyHash(env, body)
    requires Materialize(env, bundle, body, intents).Some? && Parse(env.names, body).Some?
    requires Automatic(Materialize(env, bundle, body, intents).value.kept) == [change]
    requires change.kind.SectionKind? && Settled([change])
    ensures var candidate := Materialize(env, bundle, body, intents).value;
      Accept(env, bundle, body, [change]) == Some((candidate.bundle, candidate.body)) <==> Harmless(env, body, change)
  {
    RequiredNamesAreValid();
    hide *;
    NormalHasNone(env, body);
    SettledHead([change]);
    OneFlows(env, bundle, body, change);
    NothingFollows();
    LastWriteDecides(env, bundle, body, intents, [], change, []);
  }

  lemma NothingFollows()
    ensures NoSections([])
  {
  }
}
