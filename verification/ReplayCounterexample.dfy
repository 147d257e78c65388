/** A named block with an indented heading line behind it: the suggestion is kept and
    can be accepted, but the candidate that was audited has lost the text behind it. */
module ReplayCounterexample {
  import opened Common
  import opened Text
  import opened SituationText
  import opened SectionTargets
  import opened Candidate
  import opened CandidateReplay
  import opened ReplayConditions

  const KEY: string := "The short answer#tip"
  const SECTION: string := "intro\n> **Tip:** old\n  ## X\nmore"
  const LABEL: string := "> **Tip:**"
  const NEW: string := "> **Tip:** new"

  function BlockAnchor(line: string): Option<string> {
    if LABEL <= line then Some("tip") else None
  }

  /** Everything is accepted, and hashes are lengths. */
  function Permissive(): Env {
    Env(REQUIRED, Tables(s => "", BlockAnchor), s => |s|, b => true, (b, s) => true, (a, b) => true,
        s => None, s => s, s => false, {})
  }

  // ----- the section -----

  lemma SectionText()
    ensures SECTION == "intro" + "\n" + ("> **Tip:** old" + "\n" + ("  ## X" + "\n" + "more"))
  {
  }

  lemma NoBreaks()
    ensures !Has("intro", '\n') && !Has("> **Tip:** old", '\n') && !Has("  ## X", '\n') && !Has("more", '\n')
  {
  }

  lemma SectionClean()
    ensures CleanText(SECTION)
  {
    assert SECTION[0] == 'i' && SECTION[|SECTION| - 1] == 'e';
  }

  lemma SectionLines()
    ensures Split(SECTION) == ["intro", "> **Tip:** old", "  ## X", "more"]
  {
    hide *;
    SectionText();
    NoBreaks();
    var c := "  ## X" + "\n" + "more";
    SplitTwo("  ## X", "more");
    SplitAppend("> **Tip:** old", c);
    SplitLine("> **Tip:** old");
    SplitAppend("intro", "> **Tip:** old" + "\n" + c);
    SplitLine("intro");
  }

  lemma SectionHasNoHeading()
    ensures NoHeading(SECTION)
  {
    forall i | 0 <= i < |SECTION|
      ensures !HeadingAt(SECTION, i)
    {
      assert |SECTION| == 32;
      assert SECTION[23] == '#' && SECTION[22] == ' ';
      assert i != 23 && i != 24 ==> SECTION[i] != '#' || i == 23 || i == 24;
    }
  }

  lemma BlockStands()
    ensures Locate(Permissive().tables, ["intro", "> **Tip:** old", "  ## X", "more"], NamedBlock(0, "tip")) == Some(Span(1, 2))
  {
    var lines := ["intro", "> **Tip:** old", "  ## X", "more"];
    var tables := Permissive().tables;
    assert BlockAnchor(lines[0]) == None && BlockAnchor(lines[1]) == Some("tip") by {
      assert lines[1][..|LABEL|] == LABEL;
      assert !(LABEL <= lines[0]);
    }
    assert BlockAnchor(lines[2]) == None && BlockAnchor(lines[3]) == None by {
      assert lines[2][0] != LABEL[0] && lines[3][0] != LABEL[0];
    }
    assert FirstBlock(tables, lines, "tip", 1) == 1 && FirstBlock(tables, lines, "tip", 0) == 1;
    assert FirstBlock(tables, lines, "tip", 4) == 4 && FirstBlock(tables, lines, "tip", 3) == 4 && FirstBlock(tables, lines, "tip", 2) == 4;
    assert QuoteEnd(lines, 2) == 2;
  }

  lemma BehindLines()
    ensures Join(["  ## X", "more"]) == "  " + "## X\nmore" && AllSpace("  ") && TrimStart("## X\nmore") == "## X\nmore"
  {
    assert ["  ## X", "more"][1..] == ["more"];
    JoinOne("more");
    assert "  ## X" + "\n" + "more" == "  " + "## X\nmore";
    hide Split;
  }

  lemma OpensHeading()
    ensures HeadingAt("## X\nmore", 0)
  {
  }

  lemma BehindIs(tables: Tables, c: string, target: Target, lines: seq<string>, span: Span)
    requires !target.Whole? && LinesOf(c) == lines && Locate(tables, lines, target) == Some(span)
    ensures Behind(tables, c, target) == TrimStart(Join(lines[span.end..]))
  {
    hide Locate, LinesOf, Join, TrimStart;
  }

  lemma BehindOpens()
    ensures HeadingAt(Behind(Permissive().tables, SECTION, NamedBlock(0, "tip")), 0)
  {
    hide *;
    var lines := ["intro", "> **Tip:** old", "  ## X", "more"];
    SectionClean();
    SectionLines();
    LinesOfClean(SECTION);
    BlockStands();
    BehindIs(Permissive().tables, SECTION, NamedBlock(0, "tip"), lines, Span(1, 2));
    assert lines[2..] == ["  ## X", "more"];
    BehindLines();
    TrimStartCore("  ", "## X\nmore");
    OpensHeading();
  }

  lemma KeyMeans()
    ensures ParseTarget(REQUIRED, KEY, 0) == Some(NamedBlock(0, "tip"))
  {
    assert REQUIRED[0] == "The short answer" && |REQUIRED[0]| == 16 && |KEY| == 20;
    assert !(REQUIRED[0] + "/" <= KEY) by {
      assert (REQUIRED[0] + "/")[16] == '/' && KEY[16] == '#';
    }
    assert KEY[..17] == REQUIRED[0] + "#";
    assert KEY[17..] == "tip";
  }

  // ----- the replacement -----

  lemma NewText()
    ensures CleanText(NEW) && !Has(NEW, '\n') && !Has("", '\n') && NEW + "\n" + "" == NEW + "\n"
    ensures !Has(NEW, '\r') && NEW[|NEW| - 1] != '\n' && NEW != "" && NEW[0] == '>'
    ensures BlockAnchor(NEW) == Some("tip")
  {
    assert NEW[..|LABEL|] == LABEL;
    assert NEW[0] == '>' && NEW[|NEW| - 1] == 'w';
  }

  lemma NewIsClean()
    ensures CanonicalText(NEW) == NEW + "\n" && CanonicalText(NEW + "\n") == NEW + "\n" && Trim(NEW + "\n") == NEW
    ensures Split(NEW + "\n") == [NEW, ""]
  {
    hide *;
    NewText();
    CanonicalAppends(NEW);
    CanonicalIdempotent(NEW);
    LinesOfClean(NEW);
    SplitTwo(NEW, "");
  }

  lemma NoHashes(line: string)
    requires line != "" && line[0] == '>' && Trimmed(line)
    ensures OwnHeading(Trim(line)).None?
  {
    TrimmedStays(line);
    assert Hashes(line) == 0;
    hide Trim;
  }

  lemma NewHasNoHeading()
    ensures !OpensWith(KEY, NEW + "\n")
  {
    NewText();
    NewIsClean();
    NoHashes(NEW);
    hide Split, Trim, OwnHeading, CleanText;
  }

  lemma NewIsStored()
    ensures Normalize(KEY, NEW) == NEW + "\n" && Normalize(KEY, NEW + "\n") == NEW + "\n"
  {
    NewIsClean();
    NewHasNoHeading();
    hide OpensWith, CanonicalText;
  }

  // ----- the suggestion is kept -----

  const TARGET: Target := NamedBlock(0, "tip")

  lemma BlockReads()
    ensures BeforeOf(Permissive().tables, SECTION, TARGET).Some?
  {
    hide KEY, NEW, SECTION, LABEL, REQUIRED, Locate, LinesOf, Join, Trim, CleanText, Split;
    SectionClean();
    SectionLines();
    LinesOfClean(SECTION);
    BlockStands();
  }

  lemma BlockWrites()
    ensures Write(Permissive().tables, SECTION, TARGET, NEW + "\n").Some?
  {
    hide KEY, NEW, SECTION, LABEL, REQUIRED, Locate, LinesOf, Join, Trim, CanonicalText, Split, BlockAnchor, CleanText, Has;
    SectionClean();
    SectionLines();
    LinesOfClean(SECTION);
    BlockStands();
    NewIsClean();
    NewText();
  }

  /** The eleven sections: the first holds the block, the others are any. */
  ghost predicate Input(env: Env, bundle: Bundle, body: string, sections: seq<string>) {
    && env == Permissive() && |sections| == |REQUIRED| && Clean(sections) && NoHeadings(sections) && sections[0] == SECTION
    && body == Serialize(REQUIRED, sections) && bundle.bodyHash == BodyHash(env, body)
  }

  lemma InputReads(env: Env, bundle: Bundle, body: string, sections: seq<string>)
    requires Input(env, bundle, body, sections)
    ensures env.names == REQUIRED && Parse(env.names, body) == Some(sections) && NormalForm(env, body) && CanonicalText(body) == body
    ensures ValidNames(env.names)
  {
    hide KEY, NEW, SECTION, LABEL, REQUIRED, Parse, Serialize, CanonicalText, Clean, NoHeadings, ValidNames;
    RequiredNamesAreValid();
    RoundTrip(REQUIRED, sections);
    PrintedIsCanonical(REQUIRED, sections);
  }

  const INTENT: Intent := Intent(SectionKind, KEY, NEW, [], true)

  function Suggestion(env: Env, bundle: Bundle, body: string): Change {
    var before := ChangeBefore(env, bundle, body, SectionKind, KEY);
    Change(SectionKind, KEY, if before.Some? then Some(before.value.1) else None, NEW + "\n")
  }

  lemma BeforeIs(env: Env, bundle: Bundle, body: string, sections: seq<string>)
    requires Parse(env.names, body) == Some(sections) && env.names == REQUIRED && env == Permissive() && sections[0] == SECTION
    ensures ChangeBefore(env, bundle, body, SectionKind, KEY).Some?
  {
    hide KEY, NEW, SECTION, LABEL, REQUIRED, Parse, ParseTarget, BeforeOf, BodyHash;
    KeyMeans();
    BlockReads();
  }

  lemma WriteIsApplied(env: Env, sections: seq<string>)
    requires env == Permissive() && |sections| == |REQUIRED| && Clean(sections) && sections[0] == SECTION
    ensures var x := ApplyTarget(env.tables, REQUIRED, sections, KEY, NEW + "\n"); x.Some? && Clean(x.value)
  {
    hide KEY, NEW, SECTION, LABEL, REQUIRED, ParseTarget, Write, NoHeading, Has, Trimmed;
    KeyMeans();
    BlockWrites();
    SectionClean();
    SectionHasNoHeading();
    WrittenHeadingsExact(env.tables, SECTION, TARGET, NEW + "\n");
  }

  lemma ChangeApplies(env: Env, bundle: Bundle, body: string, sections: seq<string>)
    requires Input(env, bundle, body, sections)
    ensures var applied := ApplyChange(env, bundle, body, Suggestion(env, bundle, body));
      applied.Some? && Parse(env.names, applied.value.1).Some?
  {
    hide KEY, NEW, SECTION, LABEL, REQUIRED, Parse, Serialize, CanonicalText, Normalize, ApplyTarget, ChangeBefore, Clean, NoHeadings, ValidNames, BodyHash;
    InputReads(env, bundle, body, sections);
    BeforeIs(env, bundle, body, sections);
    WriteIsApplied(env, sections);
    NewIsStored();
    ReadBack(REQUIRED, ApplyTarget(env.tables, REQUIRED, sections, KEY, NEW + "\n").value);
  }

  lemma IntentIsKept(env: Env, bundle: Bundle, body: string, sections: seq<string>)
    requires Input(env, bundle, body, sections)
    ensures var d := Draft(bundle, sections, [], []); var next := Keep(env, d, INTENT, 0);
      && |d.sections| == |env.names| && next.Some?
      && next.value.kept == [Kept(Suggestion(env, bundle, body), true, [], 0)]
  {
    hide KEY, NEW, SECTION, LABEL, REQUIRED, Parse, Serialize, CanonicalText, Normalize, ApplyChange, ChangeBefore, ParseTarget, Overlap, ValidNames, NormalForm;
    InputReads(env, bundle, body, sections);
    BeforeIs(env, bundle, body, sections);
    ChangeApplies(env, bundle, body, sections);
    NewIsStored();
    KeyMeans();
  }

  lemma Materializes(env: Env, bundle: Bundle, body: string, sections: seq<string>)
    requires Input(env, bundle, body, sections)
    ensures var candidate := Materialize(env, bundle, body, [INTENT]);
      candidate.Some? && candidate.value.kept == [Kept(Suggestion(env, bundle, body), true, [], 0)]
  {
    hide KEY, NEW, SECTION, LABEL, REQUIRED, Keep, Parse, Serialize, CanonicalText, ValidNames, NormalForm, Suggestion;
    InputReads(env, bundle, body, sections);
    IntentIsKept(env, bundle, body, sections);
    var d := Draft(bundle, sections, [], []);
    assert Turn(env, d, INTENT, 0) == Keep(env, d, INTENT, 0);
    assert [INTENT][1..] == [] && [INTENT][0] == INTENT;
    assert Turns(env, d, [INTENT], 0) == Turn(env, d, INTENT, 0);
  }

  lemma AutomaticIs(env: Env, bundle: Bundle, body: string)
    ensures var change := Suggestion(env, bundle, body);
      && Automatic([Kept(change, true, [], 0)]) == [change] && change.kind.SectionKind? && Settled([change])
  {
    hide KEY, NEW, SECTION, LABEL, REQUIRED, Normalize, ChangeBefore;
    NewIsStored();
    var change := Suggestion(env, bundle, body);
    assert [Kept(change, true, [], 0)][1..] == [] && [change] + [] == [change];
  }

  lemma NotHarmless(env: Env, bundle: Bundle, body: string, sections: seq<string>)
    requires Input(env, bundle, body, sections) && Parse(env.names, body) == Some(sections) && env.names == REQUIRED
    ensures !Harmless(env, body, Suggestion(env, bundle, body))
  {
    hide KEY, NEW, SECTION, LABEL, REQUIRED, Parse, ParseTarget, Behind, HeadingAt, Replacement, NoHeading;
    KeyMeans();
    BehindOpens();
  }

  /** Whatever the other ten sections are: the one suggestion is kept, it can be
      accepted, and acceptance does not give the candidate that was audited. */
  lemma NamedBlockBreaksReplay(env: Env, bundle: Bundle, body: string, sections: seq<string>)
    requires Input(env, bundle, body, sections)
    ensures NoHeadings(sections) && NormalForm(env, body)
    ensures var candidate := Materialize(env, bundle, body, [INTENT]);
      && candidate.Some? && candidate.value.kept == [Kept(Suggestion(env, bundle, body), true, [], 0)]
      && var accepted := Accept(env, bundle, body, Automatic(candidate.value.kept));
         accepted.Some? && accepted != Some((candidate.value.bundle, candidate.value.body))
  {
    InputReads(env, bundle, body, sections);
    Materializes(env, bundle, body, sections);
    AutomaticIs(env, bundle, body);
    NotHarmless(env, bundle, body, sections);
    var change := Suggestion(env, bundle, body);
    AllIsAccepted(env, bundle, body, [change]);
    hide Materialize, Accept, AcceptEach, Parse, Serialize, Harmless, NormalForm, Settled, Suggestion, NoHeadings, Clean;
    OneWriteExact(env, bundle, body, [INTENT], change);
    NormalHasNone(env, body);
    OneFlows(env, bundle, body, change);
    ReplayExact(env, bundle, body, [INTENT]);
  }

  lemma AllIsAccepted(env: Env, bundle: Bundle, body: string, changes: seq<Change>)
    requires env == Permissive()
    ensures AcceptEach(env, bundle, body, changes).Some? ==> Accept(env, bundle, body, changes).Some?
  {
    hide AcceptEach, BodyHash, CanonicalText;
  }
}
