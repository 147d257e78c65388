/** Accepting all automatic suggestions of a candidate on the untouched input
    revision gives exactly the audited candidate. */
module CandidateReplay {
  import opened Common
  import opened Text
  import opened SituationText
  import opened SectionTargets
  import opened Candidate

  // ----- when normalising twice is normalising once -----

  /** A stored replacement is normalised again when it is accepted.  That changes
      nothing exactly when it does not open with its own heading any more. */
  lemma NormalizeStoredExact(key: string, stored: string)
    requires CanonicalText(stored) == stored
    ensures Normalize(key, stored) == stored <==> !OpensWith(key, stored)
  {
    if OpensWith(key, stored) {
      hide OpensWith, CanonicalText;
      var rest := TrimStart(Join(Split(stored)[1..]));
      DropsHeading(key, stored);
    }
  }

  lemma {:induction false} NewlinesShorten(s: string)
    ensures |Newlines(s)| <= |s|
  {
    if s != "" {
      NewlinesShorten(s[1..]);
      if s[0] == '\r' && |s| > 1 && s[1] == '\n' {
        NewlinesShorten(s[2..]);
      }
    }
  }

  lemma CanonicalShort(s: string)
    ensures |CanonicalText(s)| <= |s| + 1
  {
    NewlinesShorten(s);
  }

  /** Dropping the heading line makes the text shorter. */
  lemma DropsHeading(key: string, stored: string)
    requires OpensWith(key, stored) && CanonicalText(stored) == stored
    ensures Normalize(key, stored) != stored
  {
    var lines := Split(stored);
    var rest := Join(lines[1..]);
    JoinSplit(stored);
    var a := TrimStartSplits(rest);
    CanonicalShort(TrimStart(rest));
    assert |lines[0]| > 1 by {
      OpeningLine(key, lines[0]);
    }
    hide *;
    DropsLine(lines, stored);
    NormalizeOpened(key, stored);
  }

  lemma OpeningLine(key: string, line: string)
    requires OwnHeading(Trim(line)) == Some(key)
    ensures |line| > 1
  {
    var a, b := TrimSplits(line);
  }

  lemma NormalizeOpened(key: string, stored: string)
    requires OpensWith(key, stored) && CanonicalText(stored) == stored
    ensures Normalize(key, stored) == CanonicalText(TrimStart(Join(Split(stored)[1..])))
  {
    hide OpensWith, CanonicalText, TrimStart, Join, Split;
  }

  lemma DropsLine(lines: seq<string>, stored: string)
    requires |lines| > 0 && |lines[0]| > 1 && Join(lines) == stored
    ensures |Join(lines[1..])| + 1 < |stored|
  {
    if |lines| == 1 {
      assert lines[1..] == [];
    }
  }

  /** The text that is stored may still open with its own heading: normalising is
      not idempotent. */
  lemma NormalizationIsNotIdempotent()
    ensures var key := "Field note"; var once := Normalize(key, "# Field note\n# Field note\ntext");
      once == "# Field note\ntext\n" && Normalize(key, once) == "text\n"
  {
    CanonicalLiterals();
    hide *;
    OpensOnce("# Field note\ntext", "# Field note\ntext\n");
    OpensOnce("text\n", "text\n");
    Literals();
  }

  lemma Literals()
    ensures "# Field note\n" + "# Field note\ntext" == "# Field note\n# Field note\ntext"
    ensures "# Field note\n" + "text\n" == "# Field note\ntext\n"
  {
  }

  lemma CanonicalLiterals()
    ensures CanonicalText("# Field note\ntext") == "# Field note\ntext\n" && CanonicalText("text\n") == "text\n"
    ensures Opening("# Field note\ntext") && Opening("text\n")
  {
    LongLiteral();
    ShortLiteral();
    hide *;
    CanonicalAppends("# Field note\ntext");
    CanonicalAppends("text");
    CanonicalIdempotent("text");
  }

  lemma LongLiteral()
    ensures "# Field note\ntext" + "\n" == "# Field note\ntext\n" && Opening("# Field note\ntext")
    ensures !Has("# Field note\ntext", '\r')
  {
  }

  lemma ShortLiteral()
    ensures "text" + "\n" == "text\n" && Opening("text\n") && !Has("text", '\r')
  {
  }

  /** CR-free and not starting with space. */
  predicate Opening(rest: string) {
    rest != "" && !IsSpace(rest[0]) && !Has(rest, '\r')
  }

  lemma OpensOnce(rest: string, canonical: string)
    requires CanonicalText(rest) == canonical && Opening(rest)
    ensures Normalize("Field note", "# Field note\n" + rest) == canonical
  {
    hide *;
    var line := "# Field note";
    assert line + "\n" == "# Field note\n";
    FieldNoteLine();
    NewlineLast(line, rest);
    SplitAppend(line, canonical);
    SplitLine(line);
    JoinSplit(canonical);
    CanonicalIdempotent(rest);
    NormalizeDrops("Field note", line + "\n" + rest, line, canonical);
  }

  lemma NormalizeDrops(key: string, text: string, line: string, canonical: string)
    requires CanonicalText(text) == line + "\n" + canonical && Split(line + "\n" + canonical) == [line] + Split(canonical)
    requires OwnHeading(Trim(line)) == Some(key) && Join(Split(canonical)) == canonical
    requires CanonicalText(canonical) == canonical && canonical != "" && !IsSpace(canonical[0])
    ensures Normalize(key, text) == canonical
  {
    assert ([line] + Split(canonical))[1..] == Split(canonical);
    assert TrimStart(canonical) == canonical;
    hide OwnHeading, Trim, TrimStart, CanonicalText, Split, Join, IsSpace;
  }

  lemma FieldNoteLine()
    ensures OwnHeading(Trim("# Field note")) == Some("Field note") && !Has("# Field note", '\n')
  {
    var line := "# Field note";
    assert Trimmed(line) && Trimmed("Field note") && AllSpace(" ") && AllSpace("");
    assert line[1..] == " " + "Field note" + "";
    assert line[0] == '#' && line[1] == ' ';
    HashesAre(line, 1);
    TrimmedStays(line);
    TrimCore(" ", "Field note", "");
    hide Trim, Hashes, AllSpace, Trimmed;
  }

  lemma NewlineLast(line: string, rest: string)
    requires line == "# Field note" && Opening(rest)
    ensures CanonicalText(line + "\n" + rest) == line + "\n" + CanonicalText(rest)
    ensures CanonicalText(rest) != "" && !IsSpace(CanonicalText(rest)[0])
  {
    DropKeepsFirst(rest);
    assert !Has(line + "\n", '\r');
    CanonicalOfTail(line + "\n", rest);
  }

  lemma {:induction false} DropKeepsFirst(rest: string)
    requires rest != "" && !IsSpace(rest[0])
    ensures DropNewlines(rest) != "" && DropNewlines(rest)[0] == rest[0]
  {
    if rest[|rest| - 1] == '\n' {
      DropKeepsFirst(rest[..|rest| - 1]);
    }
  }

  // ----- the two folds -----

  /** Printing what the body is read as gives the body again. */
  predicate NormalForm(env: Env, body: string) {
    Parse(env.names, body).Some? && Serialize(env.names, Parse(env.names, body).value) == body
  }

  lemma NormalFormIsCanonical(env: Env, body: string)
    requires NormalForm(env, body)
    ensures CanonicalText(body) == body
  {
    var sections := Parse(env.names, body).value;
    CanonicalIdempotent(Blocks(env.names, sections));
  }

  /** No stored section replacement opens with its own heading. */
  predicate Settled(changes: seq<Change>) {
    forall i :: 0 <= i < |changes| && changes[i].kind.SectionKind? ==> Normalize(changes[i].key, changes[i].after) == changes[i].after
  }

  /** A bundle is accepted whatever the value of its body hash. */
  ghost predicate Blind(env: Env) {
    forall bundle: Bundle, hash :: env.accepts(bundle.(bodyHash := hash)) == env.accepts(bundle)
  }

  /** What is read from every body to which a change is applied holds no heading line,
      and the body is in normal form unless the bundle schema is blind to its hash. */
  ghost predicate Readable(env: Env, body: string) {
    && Parse(env.names, body).Some? && NoHeadings(Parse(env.names, body).value)
    && (Blind(env) || NormalForm(env, body))
  }

  ghost predicate Flows(env: Env, bundle: Bundle, body: string, changes: seq<Change>)
    decreases |changes|
  {
    changes != [] ==>
      && Readable(env, body)
      && var applied := ApplyChange(env, bundle, body, Proposed(changes[0]));
         applied.Some? ==> Flows(env, applied.value.0, applied.value.1, changes[1..])
  }

  /** Where the fold of the review stands, and where accepting its changes so far
      stands: the same sections, and bundles that differ in the body hash at most. */
  predicate InStep(env: Env, d: Draft, bundle: Bundle, body: string) {
    && |d.sections| == |env.names| && CanonicalText(body) == body
    && Parse(env.names, body) == Some(d.sections)
    && d.bundle.bodyHash == BodyHash(env, Serialize(env.names, d.sections))
    && bundle.(bodyHash := d.bundle.bodyHash) == d.bundle
    && (Serialize(env.names, d.sections) == body ==> bundle == d.bundle)
  }

  lemma {:induction false} AutomaticAppend(kept: seq<Kept>, k: Kept)
    ensures Automatic(kept + [k]) == Automatic(kept) + if k.automatic then [k.change] else []
  {
    if kept == [] {
      assert [] + [k] == [k];
    } else {
      var first := if kept[0].automatic then [kept[0].change] else [];
      var last := if k.automatic then [k.change] else [];
      assert (kept + [k])[0] == kept[0] && (kept + [k])[1..] == kept[1..] + [k];
      AutomaticAppend(kept[1..], k);
      assert Automatic(kept + [k]) == first + (Automatic(kept[1..]) + last);
      assert first + (Automatic(kept[1..]) + last) == first + Automatic(kept[1..]) + last;
    }
  }

  lemma {:induction false} AcceptEachAppend(env: Env, bundle: Bundle, body: string, changes: seq<Change>, more: seq<Change>)
    requires AcceptEach(env, bundle, body, changes).Some?
    ensures AcceptEach(env, bundle, body, changes + more) ==
      AcceptEach(env, AcceptEach(env, bundle, body, changes).value.0, AcceptEach(env, bundle, body, changes).value.1, more)
    decreases |changes|
  {
    hide ApplyChange;
    if changes == [] {
      assert [] + more == more;
    } else {
      var applied := ApplyChange(env, bundle, body, Proposed(changes[0]));
      assert (changes + more)[1..] == changes[1..] + more;
      AcceptEachAppend(env, applied.value.0, applied.value.1, changes[1..], more);
    }
  }

  lemma PrintedIsCanonical(names: seq<string>, sections: seq<string>)
    requires |names| == |sections|
    ensures CanonicalText(Serialize(names, sections)) == Serialize(names, sections)
  {
    CanonicalIdempotent(Blocks(names, sections));
  }

  /** A change sees what is read from the body, and the bundle without its body hash. */
  lemma SameSight(env: Env, a: Bundle, x: string, b: Bundle, y: string, change: Change)
    requires CanonicalText(x) == x && CanonicalText(y) == y && Parse(env.names, x) == Parse(env.names, y)
    requires a.(bodyHash := b.bodyHash) == b && (Blind(env) || a == b)
    ensures var p, q := ApplyChange(env, a, x, change), ApplyChange(env, b, y, change);
      && (p.Some? <==> q.Some?)
      && (p.Some? && change.kind.SectionKind? ==> p == q)
      && (p.Some? && !change.kind.SectionKind? ==>
            p.value.1 == x && q.value.1 == y && p.value.0.(bodyHash := b.bodyHash) == q.value.0 && q.value.0.bodyHash == b.bodyHash)
  {
    SameBefore(env, a, x, b, y, change.kind, change.key);
    assert env.accepts(a) == env.accepts(b) by { AcceptsBoth(env, a, b); }
    hide ChangeBefore, Serialize, CanonicalText, Normalize, ApplyTarget;
    match change.kind
    case SectionKind =>
      hide Parse;
    case MetadataKind =>
      var value := env.json(change.after);
      if value.Some? {
        AcceptsBoth(env, a.(metadata := a.metadata[change.key := value.value]), b.(metadata := b.metadata[change.key := value.value]));
      }
      hide Parse;
    case ManualKind(_) =>
      hide Parse;
  }

  lemma AcceptsBoth(env: Env, a: Bundle, b: Bundle)
    requires a.(bodyHash := b.bodyHash) == b && (Blind(env) || a == b)
    ensures env.accepts(a) == env.accepts(b)
  {
  }

  lemma SameBefore(env: Env, a: Bundle, x: string, b: Bundle, y: string, kind: Kind, key: string)
    requires Parse(env.names, x) == Parse(env.names, y) && a.metadata == b.metadata
    ensures ChangeBefore(env, a, x, kind, key) == ChangeBefore(env, b, y, kind, key)
  {
    hide Parse, TargetBefore, BodyHash;
  }

  /** A change of a section prints the new body into the bundle; one of the metadata leaves the body. */
  lemma AppliedHash(env: Env, bundle: Bundle, body: string, change: Change)
    requires CanonicalText(body) == body && ApplyChange(env, bundle, body, change).Some?
    ensures var applied := ApplyChange(env, bundle, body, change).value;
      && !change.kind.ManualKind? && CanonicalText(applied.1) == applied.1
      && (change.kind.SectionKind? ==> applied.0 == bundle.(bodyHash := BodyHash(env, applied.1)))
      && (change.kind.MetadataKind? ==> applied.1 == body && applied.0.bodyHash == bundle.bodyHash)
  {
    if change.kind.SectionKind? {
      var sections := Parse(env.names, body).value;
      PrintedIsCanonical(env.names, ApplyTarget(env.tables, env.names, sections, change.key, Normalize(change.key, change.after)).value);
    }
    hide Parse, Serialize, CanonicalText, Normalize, ApplyTarget, ChangeBefore;
  }

  /** What the review keeps of an intent. */
  lemma KeepIs(env: Env, d: Draft, intent: Intent, position: nat)
    requires |d.sections| == |env.names| && Keep(env, d, intent, position).Some?
    ensures var d' := Keep(env, d, intent, position).value; var printed := Serialize(env.names, d.sections);
      && |d'.kept| == |d.kept| + 1
      && var k := d'.kept[|d.kept|];
         if k.automatic then
           var applied := ApplyChange(env, d.bundle, printed, k.change);
           && applied.Some? && Parse(env.names, applied.value.1) == Some(d'.sections)
           && d'.bundle == applied.value.0.(bodyHash := BodyHash(env, Serialize(env.names, d'.sections)))
         else d'.sections == d.sections && d'.bundle == d.bundle.(bodyHash := BodyHash(env, printed))
  {
    hide Parse, Serialize, Normalize, ApplyChange, ChangeBefore, SectionOverlaps, Seen, BodyHash;
  }

  /** One intent of the review: either nothing changes for the acceptance, or both
      folds apply the same change and stay in step. */
  lemma KeepInStep(env: Env, d: Draft, bundle: Bundle, body: string, intent: Intent, position: nat)
    requires ValidNames(env.names) && InStep(env, d, bundle, body) && Keep(env, d, intent, position).Some?
    requires var k := Keep(env, d, intent, position).value; |k.kept| == |d.kept| + 1
    requires var k := Keep(env, d, intent, position).value.kept[|d.kept|];
      k.automatic ==> Readable(env, body) && Proposed(k.change) == k.change
    ensures var d' := Keep(env, d, intent, position).value; var k := d'.kept[|d.kept|];
      if k.automatic then
        var applied := ApplyChange(env, bundle, body, Proposed(k.change));
        applied.Some? && InStep(env, d', applied.value.0, applied.value.1)
      else InStep(env, d', bundle, body)
  {
    var d' := Keep(env, d, intent, position).value;
    var k := d'.kept[|d.kept|];
    KeepIs(env, d, intent, position);
    if k.automatic {
      ParseIsClean(env.names, body);
      hide Parse, Serialize, CanonicalText, Normalize, ApplyChange, ChangeBefore, Keep, NoHeadings, Clean, ValidNames, BodyHash, Blind;
      var printed := Serialize(env.names, d.sections);
      RoundTrip(env.names, d.sections);
      PrintedIsCanonical(env.names, d.sections);
      SameSight(env, bundle, body, d.bundle, printed, k.change);
      AppliedHash(env, bundle, body, k.change);
      AppliedHash(env, d.bundle, printed, k.change);
    } else {
      hide Parse, Serialize, CanonicalText, Keep, BodyHash;
    }
  }

  lemma KeepAppends(env: Env, d: Draft, intent: Intent, position: nat)
    requires |d.sections| == |env.names| && Keep(env, d, intent, position).Some?
    ensures var d' := Keep(env, d, intent, position).value;
      |d'.kept| == |d.kept| + 1 && d'.kept[..|d.kept|] == d.kept && d'.discarded == d.discarded
      && d'.kept[|d.kept|].position == position && d'.kept[|d.kept|].findings == intent.findings
      && d'.kept[|d.kept|].change.kind == intent.kind && d'.kept[|d.kept|].change.key == intent.key
  {
    hide Serialize, Normalize, EditCandidate, ChangeBefore, SectionOverlaps, Seen, BodyHash;
  }

  lemma {:induction false} KeptGrows(env: Env, d: Draft, intents: seq<Intent>, position: nat)
    requires |d.sections| == |env.names| && Turns(env, d, intents, position).Some?
    ensures var end := Turns(env, d, intents, position).value; |d.kept| <= |end.kept| && end.kept[..|d.kept|] == d.kept
    decreases |intents|
  {
    if intents != [] {
      var next := Turn(env, d, intents[0], position).value;
      TurnGrows(env, d, intents[0], position);
      hide Turn;
      KeptGrows(env, next, intents[1..], position + 1);
      var end := Turns(env, d, intents, position).value;
      assert end.kept[..|d.kept|] == end.kept[..|next.kept|][..|d.kept|];
    }
  }

  lemma TurnGrows(env: Env, d: Draft, intent: Intent, position: nat)
    requires |d.sections| == |env.names| && Turn(env, d, intent, position).Some?
    ensures var next := Turn(env, d, intent, position).value; |d.kept| <= |next.kept| && next.kept[..|d.kept|] == d.kept
  {
    if intent.wellFormed && NormalizeMetadata(env, d.bundle, intent).Some?
       && Keep(env, d, NormalizeMetadata(env, d.bundle, intent).value, position).Some? {
      KeepAppends(env, d, NormalizeMetadata(env, d.bundle, intent).value, position);
    }
    hide Keep;
  }

  /** A turn keeps the intent, or leaves the candidate as it is. */
  lemma TurnCases(env: Env, d: Draft, intent: Intent, position: nat)
    requires |d.sections| == |env.names| && Turn(env, d, intent, position).Some?
    ensures var next := Turn(env, d, intent, position).value;
      || (exists normalized :: Keep(env, d, normalized, position) == Some(next))
      || (next.bundle == d.bundle && next.sections == d.sections && next.kept == d.kept)
  {
    hide Keep, NormalizeMetadata;
  }

  /** The suggestions that are kept from here on can be accepted from here, and the
      acceptance stays in step with the candidate. */
  lemma {:induction false} TurnsInStep(env: Env, d: Draft, bundle: Bundle, body: string, intents: seq<Intent>, position: nat)
    requires ValidNames(env.names) && InStep(env, d, bundle, body) && Turns(env, d, intents, position).Some?
    requires var end := Turns(env, d, intents, position).value;
      |d.kept| <= |end.kept| && Settled(Automatic(end.kept[|d.kept|..])) && Flows(env, bundle, body, Automatic(end.kept[|d.kept|..]))
    ensures var end := Turns(env, d, intents, position).value;
      var accepted := AcceptEach(env, bundle, body, Automatic(end.kept[|d.kept|..]));
      accepted.Some? && InStep(env, end, accepted.value.0, accepted.value.1)
    decreases |intents|, 1
  {
    var end := Turns(env, d, intents, position).value;
    if intents == [] {
      assert end.kept[|d.kept|..] == [];
    } else {
      var next := Turn(env, d, intents[0], position).value;
      TurnCases(env, d, intents[0], position);
      KeptGrows(env, next, intents[1..], position + 1);
      hide Turn, Keep, ApplyChange, InStep, Parse, Serialize, Flows, ValidNames;
      if next.kept == d.kept && next.bundle == d.bundle && next.sections == d.sections {
        SameDraft(env, d, next, bundle, body);
        TurnsInStep(env, next, bundle, body, intents[1..], position + 1);
      } else {
        var normalized :| Keep(env, d, normalized, position) == Some(next);
        KeptTurn(env, d, bundle, body, normalized, position, next, intents, end);
      }
    }
  }

  lemma SameDraft(env: Env, d: Draft, next: Draft, bundle: Bundle, body: string)
    requires InStep(env, d, bundle, body) && next.bundle == d.bundle && next.sections == d.sections
    ensures InStep(env, next, bundle, body)
  {
  }

  lemma FlowsHead(env: Env, bundle: Bundle, body: string, changes: seq<Change>)
    requires Flows(env, bundle, body, changes) && changes != []
    ensures Readable(env, body)
    ensures var applied := ApplyChange(env, bundle, body, Proposed(changes[0]));
      applied.Some? ==> Flows(env, applied.value.0, applied.value.1, changes[1..])
  {
    hide ApplyChange, Readable;
  }

  lemma SettledHead(changes: seq<Change>)
    requires Settled(changes) && changes != []
    ensures Settled(changes[1..]) && Proposed(changes[0]) == changes[0]
  {
    hide Normalize;
  }

  lemma {:induction false} KeptTurn(env: Env, d: Draft, bundle: Bundle, body: string, normalized: Intent, position: nat, next: Draft,
                                    intents: seq<Intent>, end: Draft)
    requires ValidNames(env.names) && InStep(env, d, bundle, body) && Keep(env, d, normalized, position) == Some(next)
    requires |d.sections| == |env.names|
    requires intents != [] && Turn(env, d, intents[0], position) == Some(next) && Turns(env, d, intents, position) == Some(end)
    requires |next.sections| == |env.names| && |next.kept| <= |end.kept| && end.kept[..|next.kept|] == next.kept
    requires |d.kept| <= |end.kept| && Settled(Automatic(end.kept[|d.kept|..]))
    requires Flows(env, bundle, body, Automatic(end.kept[|d.kept|..]))
    ensures var accepted := AcceptEach(env, bundle, body, Automatic(end.kept[|d.kept|..]));
      accepted.Some? && InStep(env, end, accepted.value.0, accepted.value.1)
    decreases |intents|, 0
  {
    KeepAppends(env, d, normalized, position);
    var k := next.kept[|d.kept|];
    var ahead := end.kept[|d.kept|..];
    assert ahead[0] == end.kept[..|next.kept|][|d.kept|] == k;
    assert ahead[1..] == end.kept[|next.kept|..];
    assert k.automatic ==> Automatic(ahead)[0] == k.change && Automatic(ahead)[1..] == Automatic(ahead[1..]);
    hide Turn, Keep, ApplyChange, InStep, Parse, Serialize, Normalize, Flows, Readable, Settled, Proposed, ValidNames;
    if k.automatic {
      FlowsHead(env, bundle, body, Automatic(ahead));
      SettledHead(Automatic(ahead));
      KeepInStep(env, d, bundle, body, normalized, position);
      var applied := ApplyChange(env, bundle, body, Proposed(k.change)).value;
      TurnsInStep(env, next, applied.0, applied.1, intents[1..], position + 1);
    } else {
      KeepInStep(env, d, bundle, body, normalized, position);
      assert Automatic(ahead) == Automatic(ahead[1..]);
      TurnsInStep(env, next, bundle, body, intents[1..], position + 1);
    }
  }

  // ----- exactly when the replay gives the candidate -----

  /** The candidate is what its last turn leaves. */
  lemma CandidateIs(env: Env, bundle: Bundle, body: string, intents: seq<Intent>)
    requires Materialize(env, bundle, body, intents).Some?
    ensures var start := Draft(bundle, Parse(env.names, body).value, [], []); var end := Turns(env, start, intents, 0);
      && Parse(env.names, body).Some? && end.Some?
      && var candidate := Materialize(env, bundle, body, intents).value;
         && candidate.kept == end.value.kept && candidate.body == Serialize(env.names, end.value.sections)
         && candidate.bundle == end.value.bundle.(bodyHash := BodyHash(env, candidate.body))
         && env.accepts(candidate.bundle) && env.valid(candidate.bundle, candidate.body)
  {
    hide Turns, Parse, Serialize, BodyHash;
  }

  /** Accepting from a state in step gives the candidate exactly when the body reached is in normal form. */
  lemma EndsInStep(env: Env, end: Draft, bundle: Bundle, body: string, candidate: Result)
    requires InStep(env, end, bundle, body)
    requires candidate.body == Serialize(env.names, end.sections)
    requires candidate.bundle == end.bundle.(bodyHash := BodyHash(env, candidate.body))
    requires env.accepts(candidate.bundle) && env.valid(candidate.bundle, candidate.body)
    ensures var bundle' := bundle.(bodyHash := BodyHash(env, body));
      (env.accepts(bundle') && env.valid(bundle', body) && (bundle', CanonicalText(body)) == (candidate.bundle, candidate.body))
        <==> NormalForm(env, body)
  {
    hide Parse, Serialize, CanonicalText;
  }

  lemma AcceptIs(env: Env, bundle: Bundle, body: string, changes: seq<Change>)
    requires AcceptEach(env, bundle, body, changes).Some?
    ensures var reached := AcceptEach(env, bundle, body, changes).value; var bundle' := reached.0.(bodyHash := BodyHash(env, reached.1));
      Accept(env, bundle, body, changes) ==
        if env.accepts(bundle') && env.valid(bundle', reached.1) then Some((bundle', CanonicalText(reached.1))) else None
  {
    hide AcceptEach, CanonicalText, BodyHash;
  }

  lemma StartsInStep(env: Env, bundle: Bundle, body: string)
    requires NormalForm(env, body) && bundle.bodyHash == BodyHash(env, body)
    ensures InStep(env, Draft(bundle, Parse(env.names, body).value, [], []), bundle, body)
  {
    NormalFormIsCanonical(env, body);
    hide Parse, Serialize, CanonicalText;
  }

  lemma EndReached(env: Env, bundle: Bundle, body: string, intents: seq<Intent>, end: Draft)
    requires ValidNames(env.names) && NormalForm(env, body) && bundle.bodyHash == BodyHash(env, body)
    requires Turns(env, Draft(bundle, Parse(env.names, body).value, [], []), intents, 0) == Some(end)
    requires Settled(Automatic(end.kept)) && Flows(env, bundle, body, Automatic(end.kept))
    ensures var reached := AcceptEach(env, bundle, body, Automatic(end.kept));
      reached.Some? && InStep(env, end, reached.value.0, reached.value.1)
  {
    StartsInStep(env, bundle, body);
    assert end.kept[0..] == end.kept;
    hide Turns, AcceptEach, Parse, InStep, Settled, Flows, NormalForm;
    TurnsInStep(env, Draft(bundle, Parse(env.names, body).value, [], []), bundle, body, intents, 0);
  }

  /** Replay: every kept automatic suggestion can be accepted on the untouched input
      revision, and accepting all of them gives the body and the bundle of the audited
      candidate exactly when the body that is reached is in normal form. */
  lemma ReplayExact(env: Env, bundle: Bundle, body: string, intents: seq<Intent>)
    requires ValidNames(env.names) && NormalForm(env, body) && bundle.bodyHash == BodyHash(env, body)
    requires Materialize(env, bundle, body, intents).Some?
    requires var changes := Automatic(Materialize(env, bundle, body, intents).value.kept);
      Settled(changes) && Flows(env, bundle, body, changes)
    ensures var candidate := Materialize(env, bundle, body, intents).value; var changes := Automatic(candidate.kept);
      && AcceptEach(env, bundle, body, changes).Some?
      && (Accept(env, bundle, body, changes) == Some((candidate.bundle, candidate.body)) <==>
            NormalForm(env, AcceptEach(env, bundle, body, changes).value.1))
  {
    hide *;
    CandidateIs(env, bundle, body, intents);
    var candidate := Materialize(env, bundle, body, intents).value;
    var end := Turns(env, Draft(bundle, Parse(env.names, body).value, [], []), intents, 0).value;
    EndReached(env, bundle, body, intents, end);
    var reached := AcceptEach(env, bundle, body, Automatic(candidate.kept)).value;
    EndsInStep(env, end, reached.0, reached.1, candidate);
    AcceptIs(env, bundle, body, Automatic(candidate.kept));
  }
}
