/** Targets inside the sections of a situation: a whole section, a subheading, or a
    named block (packages/domain/src/index.ts).  Writing a target and reading it
    obey the laws of a lens when the text written holds no heading line. */
module SectionTargets {
  import opened Common
  import opened Text
  import opened SituationText

  /** Unicode tables and the bold-label pattern are parameters: `labelOf` is
      normalizedStructuralLabel of a trimmed title, `blockAnchor` is the anchor of the
      bold label that opens a block quote line, if there is one. */
  datatype Tables = Tables(labelOf: string -> string, blockAnchor: string -> Option<string>)

  datatype Target =
    | Whole(section: nat)
    | Subheading(section: nat, subheading: string)
    | NamedBlock(section: nat, anchor: string)

  // ----- target keys -----

  predicate IsSubheading(s: string) {
    s != "" && Trim(s) == s && !Has(s, '/') && !Has(s, '#') && !Has(s, '\r') && !Has(s, '\n')
  }

  /** parseSituationSectionTargetKey, from section `k` on. */
  function ParseTarget(names: seq<string>, key: string, k: nat): (r: Option<Target>)
    requires k <= |names|
    ensures r.Some? ==> r.value.section < |names|
    decreases |names| - k
  {
    if k == |names| then None
    else if key == names[k] then Some(Whole(k))
    else if names[k] + "/" <= key then
      var rest := key[|names[k]| + 1..];
      if IsSubheading(rest) then Some(Subheading(k, rest)) else None
    else if names[k] + "#" <= key then
      var rest := key[|names[k]| + 1..];
      if IsSlug(rest) then Some(NamedBlock(k, rest)) else None
    else ParseTarget(names, key, k + 1)
  }

  // ----- heading lines of any level -----

  function Hashes(line: string): (n: nat)
    ensures n <= |line|
    ensures forall i :: 0 <= i < n ==> line[i] == '#'
    ensures n < |line| ==> line[n] != '#'
  {
    if line != "" && line[0] == '#' then 1 + Hashes(line[1..]) else 0
  }

  /** /^(#{1,6})[ \t]+/ */
  predicate IsHeadingLine(line: string) {
    var n := Hashes(line);
    1 <= n <= 6 && n < |line| && IsBlank(line[n])
  }

  /** The title of /^(#{3,6})[ \t]+(.+?)[ \t]*$/, trimmed. */
  predicate HasTitle(line: string) {
    var n := Hashes(line);
    3 <= n <= 6 && n + 2 <= |line| && IsBlank(line[n]) && forall i :: n <= i < |line| ==> !EndsLine(line[i])
  }

  function Title(line: string): string
    requires HasTitle(line)
  {
    Trim(line[Hashes(line)..])
  }

  predicate Matches(tables: Tables, line: string, subheading: string) {
    HasTitle(line) && tables.labelOf(Title(line)) == tables.labelOf(subheading)
  }

  function FirstMatch(tables: Tables, lines: seq<string>, subheading: string, from: nat): (m: nat)
    requires from <= |lines|
    ensures from <= m <= |lines|
    ensures m < |lines| ==> Matches(tables, lines[m], subheading)
    ensures forall i :: from <= i < m ==> !Matches(tables, lines[i], subheading)
    decreases |lines| - from
  {
    if from == |lines| || Matches(tables, lines[from], subheading) then from
    else FirstMatch(tables, lines, subheading, from + 1)
  }

  /** The only matching line; the source throws when there is none or more than one. */
  function OnlyMatch(tables: Tables, lines: seq<string>, subheading: string): (m: Option<nat>)
    ensures m.Some? ==> m.value < |lines| && Matches(tables, lines[m.value], subheading)
  {
    var m := FirstMatch(tables, lines, subheading, 0);
    if m < |lines| && FirstMatch(tables, lines, subheading, m + 1) == |lines| then Some(m) else None
  }

  /** The next heading of the same or a higher level. */
  function EndOf(lines: seq<string>, from: nat, depth: nat): (e: nat)
    requires from <= |lines|
    ensures from <= e <= |lines|
    ensures e < |lines| ==> IsHeadingLine(lines[e]) && Hashes(lines[e]) <= depth
    ensures forall i :: from <= i < e ==> !(IsHeadingLine(lines[i]) && Hashes(lines[i]) <= depth)
    decreases |lines| - from
  {
    if from == |lines| || (IsHeadingLine(lines[from]) && Hashes(lines[from]) <= depth) then from
    else EndOf(lines, from + 1, depth)
  }

  // ----- named blocks -----

  function FirstBlock(tables: Tables, lines: seq<string>, anchor: string, from: nat): (m: nat)
    requires from <= |lines|
    ensures from <= m <= |lines|
    ensures m < |lines| ==> tables.blockAnchor(lines[m]) == Some(anchor)
    ensures forall i :: from <= i < m ==> tables.blockAnchor(lines[i]) != Some(anchor)
    decreases |lines| - from
  {
    if from == |lines| || tables.blockAnchor(lines[from]) == Some(anchor) then from
    else FirstBlock(tables, lines, anchor, from + 1)
  }

  function QuoteEnd(lines: seq<string>, from: nat): (e: nat)
    requires from <= |lines|
    ensures from <= e <= |lines|
    decreases |lines| - from
  {
    if from < |lines| && lines[from] != "" && lines[from][0] == '>' then QuoteEnd(lines, from + 1) else from
  }

  // ----- reading and writing a target -----

  /** The lines a target covers. */
  datatype Span = Span(start: nat, end: nat)

  function LinesOf(section: string): seq<string> {
    Split(TrimEnd(CanonicalText(section)))
  }

  function Locate(tables: Tables, lines: seq<string>, target: Target): (r: Option<Span>)
    requires !target.Whole?
    ensures r.Some? ==> r.value.start <= r.value.end <= |lines|
  {
    match target
    case Subheading(_, subheading) =>
      var m := OnlyMatch(tables, lines, subheading);
      if m.None? then None else Some(Span(m.value + 1, EndOf(lines, m.value + 1, Hashes(lines[m.value]))))
    case NamedBlock(_, anchor) =>
      var m := FirstBlock(tables, lines, anchor, 0);
      if m == |lines| || FirstBlock(tables, lines, anchor, m + 1) < |lines| then None
      else Some(Span(m, QuoteEnd(lines, m + 1)))
  }

  /** Whether line `i` is where the target stands. */
  predicate Stands(tables: Tables, line: string, target: Target)
    requires !target.Whole?
  {
    if target.Subheading? then Matches(tables, line, target.subheading) else tables.blockAnchor(line) == Some(target.anchor)
  }

  /** The lines before `upTo` where the target stands. */
  function Found(tables: Tables, lines: seq<string>, target: Target, upTo: nat): (r: seq<nat>)
    requires !target.Whole? && upTo <= |lines|
    ensures forall i :: 0 <= i < |r| ==> r[i] < upTo && Stands(tables, lines[r[i]], target)
    ensures forall i, j :: 0 <= i < j < |r| ==> r[i] < r[j]
  {
    if upTo == 0 then []
    else Found(tables, lines, target, upTo - 1) + if Stands(tables, lines[upTo - 1], target) then [upTo - 1] else []
  }

  lemma {:induction false} FoundAll(tables: Tables, lines: seq<string>, target: Target, upTo: nat, m: nat)
    requires !target.Whole? && m < upTo <= |lines| && Stands(tables, lines[m], target)
    ensures m in Found(tables, lines, target, upTo)
  {
    if m < upTo - 1 {
      FoundAll(tables, lines, target, upTo - 1, m);
    }
  }

  function FirstStanding(tables: Tables, lines: seq<string>, target: Target, from: nat): (m: nat)
    requires !target.Whole? && from <= |lines|
    ensures from <= m <= |lines|
    ensures m < |lines| ==> Stands(tables, lines[m], target)
    ensures forall i :: from <= i < m ==> !Stands(tables, lines[i], target)
  {
    if target.Subheading? then FirstMatch(tables, lines, target.subheading, from)
    else FirstBlock(tables, lines, target.anchor, from)
  }

  /** There is one match exactly when there is a first and no second. */
  lemma OneMatch(tables: Tables, lines: seq<string>, target: Target)
    requires !target.Whole?
    ensures var found := Found(tables, lines, target, |lines|); var m := FirstStanding(tables, lines, target, 0);
      && (|found| == 1 <==> m < |lines| && FirstStanding(tables, lines, target, m + 1) == |lines|)
      && (|found| == 1 ==> found[0] == m)
  {
    var found := Found(tables, lines, target, |lines|);
    var m := FirstStanding(tables, lines, target, 0);
    if m < |lines| {
      FoundAll(tables, lines, target, |lines|, m);
      var n := FirstStanding(tables, lines, target, m + 1);
      if n < |lines| {
        FoundAll(tables, lines, target, |lines|, n);
      }
    }
    assert |found| > 0 ==> m <= found[0];
    assert |found| > 1 ==> m < found[1] && FirstStanding(tables, lines, target, m + 1) <= found[1];
    hide Stands, Found, FirstStanding;
  }

  /** The loops of resolveSituationSectionTarget: collect every match, insist on one,
      then look for the end of what it covers. */
  method ResolveSpan(tables: Tables, lines: seq<string>, target: Target) returns (span: Option<Span>)
    requires !target.Whole?
    ensures span == Locate(tables, lines, target)
  {
    hide Stands;
    LocateFound(tables, lines, target);
    var found: seq<nat> := [];
    for i := 0 to |lines|
      invariant found == Found(tables, lines, target, i)
    {
      if Stands(tables, lines[i], target) {
        found := found + [i];
      }
    }
    hide Found, Locate;
    if |found| != 1 {
      return None;
    }
    if target.Subheading? {
      var end := EndOfSubheading(lines, found[0] + 1, Hashes(lines[found[0]]));
      span := Some(Span(found[0] + 1, end));
    } else {
      var end := EndOfQuote(lines, found[0] + 1);
      span := Some(Span(found[0], end));
    }
  }

  lemma LocateFound(tables: Tables, lines: seq<string>, target: Target)
    requires !target.Whole?
    ensures var found := Found(tables, lines, target, |lines|);
      Locate(tables, lines, target) ==
        if |found| != 1 then None
        else if target.Subheading? then Some(Span(found[0] + 1, EndOf(lines, found[0] + 1, Hashes(lines[found[0]]))))
        else Some(Span(found[0], QuoteEnd(lines, found[0] + 1)))
  {
    hide Stands, Matches, HasTitle, IsHeadingLine, Found, EndOf, QuoteEnd, Hashes, FirstMatch, FirstBlock;
    OneMatch(tables, lines, target);
    var m := FirstStanding(tables, lines, target, 0);
    var n := if m < |lines| then FirstStanding(tables, lines, target, m + 1) else 0;
  }

  method EndOfSubheading(lines: seq<string>, start: nat, depth: nat) returns (end: nat)
    requires start <= |lines|
    ensures end == EndOf(lines, start, depth)
  {
    end := |lines|;
    for index := start to |lines|
      invariant end == |lines| && EndOf(lines, start, depth) == EndOf(lines, index, depth)
    {
      if IsHeadingLine(lines[index]) && Hashes(lines[index]) <= depth {
        end := index;
        break;
      }
    }
  }

  method EndOfQuote(lines: seq<string>, start: nat) returns (end: nat)
    requires start <= |lines|
    ensures end == QuoteEnd(lines, start)
  {
    end := start;
    while end < |lines| && lines[end] != "" && lines[end][0] == '>'
      invariant start <= end <= |lines| && QuoteEnd(lines, start) == QuoteEnd(lines, end)
    {
      end := end + 1;
    }
  }

  /** [a, b].filter(Boolean).join("\n\n"). */
  function Glue(a: string, b: string): string {
    if a == "" then b else if b == "" then a else a + "\n\n" + b
  }

  /** replaceSectionLines. */
  function ReplaceLines(lines: seq<string>, start: nat, end: nat, after: string): string
    requires start <= end <= |lines|
  {
    Glue(TrimEnd(Join(lines[..start])), Glue(Trim(CanonicalText(after)), TrimStart(Join(lines[end..]))))
  }

  function BeforeOf(tables: Tables, section: string, target: Target): Option<string> {
    if target.Whole? then Some(section)
    else
      var span := Locate(tables, LinesOf(section), target);
      if span.None? then None else Some(Trim(Join(LinesOf(section)[span.value.start..span.value.end])))
  }

  function Write(tables: Tables, section: string, target: Target, after: string): Option<string> {
    if target.Whole? then Some(Trim(CanonicalText(after)))
    else
      var span := Locate(tables, LinesOf(section), target);
      if span.None? then None
      else if target.NamedBlock? && tables.blockAnchor(Trim(CanonicalText(after))) != Some(target.anchor) then None
      else Some(ReplaceLines(LinesOf(section), span.value.start, span.value.end, after))
  }

  /** situationSectionTargetBefore. */
  function TargetBefore(tables: Tables, names: seq<string>, sections: seq<string>, key: string): Option<string>
    requires |names| == |sections|
  {
    var target := ParseTarget(names, key, 0);
    if target.None? then None else BeforeOf(tables, sections[target.value.section], target.value)
  }

  /** applySituationSectionTarget. */
  function ApplyTarget(tables: Tables, names: seq<string>, sections: seq<string>, key: string, after: string): (r: Option<seq<string>>)
    requires |names| == |sections|
    ensures r.Some? ==> |r.value| == |sections|
  {
    var target := ParseTarget(names, key, 0);
    if target.None? then None
    else
      var written := Write(tables, sections[target.value.section], target.value, after);
      if written.None? then None else Some(sections[target.value.section := written.value])
  }

  /** situationSectionTargetsOverlap. */
  predicate Overlap(tables: Tables, a: Target, b: Target) {
    a.section == b.section &&
    (|| a.Whole? || b.Whole?
     || (a.Subheading? && b.Subheading? && tables.labelOf(a.subheading) == tables.labelOf(b.subheading))
     || (a.NamedBlock? && b.NamedBlock? && a.anchor == b.anchor))
  }

  // ----- lines of a clean section -----

  predicate CleanText(s: string) {
    Trimmed(s) && !Has(s, '\r')
  }

  lemma LinesOfClean(c: string)
    requires CleanText(c)
    ensures LinesOf(c) == Split(c) && Trim(CanonicalText(c)) == c
  {
    assert AllSpace("\n");
    hide Split;
    TrimmedStays(c);
    TrimOfCanonical(c);
    assert c == "" || c[|c| - 1] != '\n';
    CanonicalAppends(c);
    TrimEndCore(c, "\n");
  }

  lemma TrimOfCanonicalIsClean(s: string)
    ensures CleanText(Trim(CanonicalText(s)))
  {
    var t := CanonicalText(s);
    var a, b := TrimSplits(t);
    assert forall i :: 0 <= i < |Trim(t)| ==> Trim(t)[i] == t[|a| + i];
  }

  /** The hashes, the blank, the title, and the space behind it. */
  lemma HeadingPieces(h: string) returns (a: string, b: string)
    requires HasTitle(h) && Title(h) != ""
    ensures AllSpace(a) && AllSpace(b) && a != "" && Trimmed(Title(h)) && IsBlank(a[0])
    ensures h == h[..Hashes(h)] + a + Title(h) + b
  {
    var n := Hashes(h);
    a, b := TrimSplits(h[n..]);
    var core := Title(h);
    hide Trim, Hashes, IsSpace;
    assert h[n..] == a + core + b;
    assert h == h[..n] + (a + core + b);
    assert h[n..][0] == h[n];
    BlankIsSpace(h[n]);
  }

  lemma BlankIsSpace(c: char)
    requires IsBlank(c)
    ensures IsSpace(c) && c != '#'
  {
  }

  lemma {:induction false} HashesOf(hashes: string, rest: string)
    requires (forall i :: 0 <= i < |hashes| ==> hashes[i] == '#') && rest != "" && rest[0] != '#'
    ensures Hashes(hashes + rest) == |hashes|
  {
    HashesAre(hashes + rest, |hashes|);
  }

  /** A heading whose title is not blank keeps its level and its title when the space
      behind it is trimmed. */
  lemma HeadingKeepsTitle(h: string)
    requires HasTitle(h) && Title(h) != ""
    ensures var h' := TrimEnd(h);
      && h' != "" && HasTitle(h') && Title(h') == Title(h) && Hashes(h') == Hashes(h)
  {
    var a, b := HeadingPieces(h);
    var n := Hashes(h);
    var core := Title(h);
    var hashes := h[..n];
    var h' := hashes + a + core;
    TrimHeading(hashes, a, core, b);
    BlankIsSpace(a[0]);
    assert h' == hashes + (a + core);
    HashesOf(hashes, a + core);
    assert h'[n..] == a + core + "";
    TrimCore(a, core, "");
    assert forall i :: 0 <= i < |h'| ==> h'[i] == h[i];
    hide Trim, TrimEnd, Hashes, IsSpace;
  }

  lemma TrimHeading(hashes: string, a: string, core: string, b: string)
    requires Trimmed(core) && core != "" && AllSpace(b)
    ensures TrimEnd(hashes + a + core + b) == hashes + a + core
  {
    TrimEndCore(hashes + a + core, b);
    EndStands(hashes + a, core);
  }

  lemma {:induction false} HashesAre(line: string, n: nat)
    requires n < |line| && line[n] != '#' && forall i :: 0 <= i < n ==> line[i] == '#'
    ensures Hashes(line) == n
  {
    if n > 0 {
      HashesAre(line[1..], n - 1);
    }
  }

  // ----- cutting a clean section at a line -----

  lemma CutAt(c: string, k: nat)
    requires 0 < k < |Split(c)|
    ensures c == Join(Split(c)[..k]) + "\n" + Join(Split(c)[k..])
  {
    hide *;
    JoinSplit(c);
    JoinAppend(Split(c)[..k], Split(c)[k..]);
    assert Split(c) == Split(c)[..k] + Split(c)[k..];
  }

  /** The lines up to `k` are an initial segment of the text. */
  lemma UpTo(c: string, k: nat) returns (rest: string)
    requires 0 < k <= |Split(c)|
    ensures c == Join(Split(c)[..k]) + rest
  {
    if k == |Split(c)| {
      rest := "";
      assert Split(c)[..k] == Split(c);
      JoinSplit(c);
    } else {
      CutAt(c, k);
      rest := "\n" + Join(Split(c)[k..]);
    }
  }

  /** An initial segment of a clean text, trimmed at its end, is clean. */
  lemma SegmentClean(c: string, x: string, rest: string)
    requires CleanText(c) && c == x + rest
    ensures CleanText(TrimEnd(x))
    ensures NoHeading(c) ==> NoHeading(TrimEnd(x))
  {
    var b := TrimEndSplits(x);
    var p := TrimEnd(x);
    assert c == p + (b + rest);
    assert forall i :: 0 <= i < |p| ==> p[i] == c[i];
    if NoHeading(c) {
      forall i | 0 <= i < |p|
        ensures !HeadingAt(p, i)
      {
        assert !HeadingAt(c, i);
        assert i + 3 < |p| ==> c[i] == p[i] && c[i + 1] == p[i + 1] && c[i + 2] == p[i + 2] && c[i + 3] == p[i + 3];
        assert i > 0 ==> c[i - 1] == p[i - 1];
      }
    }
  }

  /** A clean text from a line on that does not start with space is clean. */
  lemma RestClean(c: string, pre: string, y: string)
    requires CleanText(c) && c == pre + y && (pre == "" || pre[|pre| - 1] == '\n') && y != "" && !IsSpace(y[0])
    ensures CleanText(y)
    ensures NoHeading(c) ==> NoHeading(y)
  {
    assert forall i :: 0 <= i < |y| ==> y[i] == c[|pre| + i];
    if NoHeading(c) {
      forall i | 0 <= i < |y|
        ensures !HeadingAt(y, i)
      {
        HeadingShift(pre, y, i);
        assert !HeadingAt(c, |pre| + i);
      }
    }
  }

  lemma GlueClean(a: string, b: string)
    requires CleanText(a) && CleanText(b)
    ensures CleanText(Glue(a, b))
    ensures NoHeading(a) && NoHeading(b) ==> NoHeading(Glue(a, b))
  {
    if a != "" && b != "" {
      var t := a + "\n\n" + b;
      assert t[0] == a[0] && t[|t| - 1] == b[|b| - 1];
      assert forall i :: 0 <= i < |t| ==> t[i] == if i < |a| then a[i] else if i < |a| + 2 then '\n' else b[i - |a| - 2];
      if NoHeading(a) && NoHeading(b) {
        forall i | 0 <= i < |t|
          ensures !HeadingAt(t, i)
        {
          GluedHeading(a, b, i);
        }
      }
    }
  }

  lemma GluedHeading(a: string, b: string, i: nat)
    requires NoHeading(a) && NoHeading(b) && i < |a| + 2 + |b|
    ensures !HeadingAt(a + "\n\n" + b, i)
  {
    var t := a + "\n\n" + b;
    if i >= |a| + 2 {
      assert t == (a + "\n\n") + b;
      HeadingShift(a + "\n\n", b, i - |a| - 2);
    } else if i < |a| {
      assert "\n\n" + a + "\n\n" + b == "\n\n" + t;
      NoHeadingInside("\n\n", a, b, i + 2);
      HeadingShift("\n\n", t, i);
    } else {
      assert t[i] == '\n';
    }
  }

  // ----- the lens laws -----

  /** A replacement that opens no heading of any level. */
  predicate NoHeadingLines(r: string) {
    NoHeading(r) && forall i :: 0 <= i < |Split(r)| ==> !IsHeadingLine(Split(r)[i])
  }

  /** The one matching subheading of a clean section. */
  predicate Located(tables: Tables, c: string, subheading: string, m: nat) {
    && CleanText(c) && OnlyMatch(tables, Split(c), subheading) == Some(m)
    && m < |Split(c)| && HasTitle(Split(c)[m])
  }

  /** It stands there with a title. */
  predicate Standing(tables: Tables, c: string, subheading: string, m: nat) {
    Located(tables, c, subheading, m) && Title(Split(c)[m]) != ""
  }

  function Below(tables: Tables, c: string, m: nat): (e: nat)
    requires m < |Split(c)|
    ensures m < e <= |Split(c)|
  {
    EndOf(Split(c), m + 1, Hashes(Split(c)[m]))
  }

  /** The lines of the section after writing `r`. */
  function Rewritten(before: seq<string>, h: string, r: string, after: seq<string>): seq<string> {
    before + [TrimEnd(h)] + (if r == "" then [] else [""] + Split(r)) + (if after == [] then [] else [""] + after)
  }

  /** A blank line and more lines. */
  lemma JoinAfterBlank(head: seq<string>, lines: seq<string>)
    requires head != [] && lines != []
    ensures Join(head + ([""] + lines)) == Join(head) + "\n\n" + Join(lines)
  {
    JoinAppend([""], lines);
    JoinAppend(head, [""] + lines);
    hide *;
    assert Join([""]) == "" by {
      JoinOne("");
    }
    assert Join(head) + "\n" + ("" + "\n" + Join(lines)) == Join(head) + "\n\n" + Join(lines);
  }

  lemma JoinOne(s: string)
    ensures Join([s]) == s
  {
  }

  lemma RewrittenParts(before: seq<string>, h: string, r: string, after: seq<string>)
    ensures var head := before + [TrimEnd(h)]; var middle := if r == "" then head else head + ([""] + Split(r));
      Rewritten(before, h, r, after) == if after == [] then middle else middle + ([""] + after)
  {
    hide Split, TrimEnd;
  }

  /** Writing gives exactly these lines. */
  lemma RewrittenJoins(before: seq<string>, h: string, r: string, after: seq<string>)
    ensures Join(Rewritten(before, h, r, after)) ==
            Join(before + [TrimEnd(h)]) + (if r == "" then "" else "\n\n" + r) + (if after == [] then "" else "\n\n" + Join(after))
  {
    hide *;
    RewrittenParts(before, h, r, after);
    var head := before + [TrimEnd(h)];
    var middle := if r == "" then head else head + ([""] + Split(r));
    if r != "" {
      JoinSplit(r);
      JoinAfterBlank(head, Split(r));
    }
    if after != [] {
      JoinAfterBlank(middle, after);
    }
    JoinedParts(Join(head), r, after);
  }

  lemma JoinedParts(x: string, r: string, after: seq<string>)
    ensures x + "" == x && (r != "" ==> x + ("\n\n" + r) == x + "\n\n" + r)
    ensures after != [] ==> (x + "\n\n" + r) + ("\n\n" + Join(after)) == x + "\n\n" + r + "\n\n" + Join(after)
    ensures after != [] ==> x + ("\n\n" + Join(after)) == x + "\n\n" + Join(after)
  {
    hide Join;
  }

  lemma TrimLastLine(before: seq<string>, h: string, h': string, b: string)
    requires h == h' + b && h' == TrimEnd(h) && AllSpace(b) && h' != "" && !IsSpace(h'[|h'| - 1])
    ensures TrimEnd(Join(before + [h])) == Join(before + [h'])
  {
    hide *;
    JoinOne(h);
    JoinOne(h');
    if before == [] {
      assert before + [h'] == [h'] && before + [h] == [h];
      assert "" + h == h && "" + h' == h';
      EndOfLine("", h, h', b);
    } else {
      JoinAppend(before, [h]);
      JoinAppend(before, [h']);
      EndOfLine(Join(before) + "\n", h, h', b);
    }
  }

  /** A heading line is not blank. */
  lemma HeadingStays(h: string)
    requires HasTitle(h)
    ensures TrimEnd(h) != ""
  {
    var b := TrimEndSplits(h);
    assert h[0] == '#' && !AllSpace(h);
    assert TrimEnd(h) == "" ==> b == h;
  }

  /** The text in front of a written target: up to its heading, without the space behind it. */
  lemma PrefixOf(lines: seq<string>, m: nat)
    requires m < |lines| && HasTitle(lines[m])
    ensures TrimEnd(Join(lines[..m + 1])) == Join(lines[..m] + [TrimEnd(lines[m])])
    ensures TrimEnd(Join(lines[..m + 1])) != ""
  {
    var h := lines[m];
    HeadingStays(h);
    var b := TrimEndSplits(h);
    hide *;
    assert lines[..m + 1] == lines[..m] + [h];
    TrimLastLine(lines[..m], h, TrimEnd(h), b);
    NotEmptyLine(lines[..m], TrimEnd(h));
  }

  lemma NotEmptyLine(before: seq<string>, h: string)
    requires h != ""
    ensures Join(before + [h]) != ""
  {
    JoinOne(h);
    if before == [] {
      assert before + [h] == [h];
    } else {
      JoinAppend(before, [h]);
    }
  }

  lemma EndOfLine(x: string, h: string, h': string, b: string)
    requires h == h' + b && h' == TrimEnd(h) && AllSpace(b) && h' != "" && !IsSpace(h'[|h'| - 1])
    ensures TrimEnd(x + h) == x + h'
  {
    assert x + h == (x + h') + b;
    TrimEndCore(x + h', b);
    assert (x + h')[|x + h'| - 1] == h'[|h'| - 1];
  }

  lemma LocateIs(tables: Tables, lines: seq<string>, section: nat, subheading: string, m: nat)
    requires OnlyMatch(tables, lines, subheading) == Some(m)
    ensures m < |lines|
    ensures Locate(tables, lines, Subheading(section, subheading)) == Some(Span(m + 1, EndOf(lines, m + 1, Hashes(lines[m]))))
  {
    hide OnlyMatch, EndOf, Hashes, Matches;
  }

  lemma WriteAt(tables: Tables, c: string, target: Target, span: Span, after: string)
    requires target.Subheading? && Locate(tables, LinesOf(c), target) == Some(span)
    ensures Write(tables, c, target, after) ==
      Some(Glue(TrimEnd(Join(LinesOf(c)[..span.start])), Glue(Trim(CanonicalText(after)), TrimStart(Join(LinesOf(c)[span.end..])))))
  {
    hide Locate, LinesOf, Trim, CanonicalText, TrimEnd, TrimStart, Join, Glue;
  }

  lemma WriteIs(tables: Tables, c: string, section: nat, subheading: string, m: nat, after: string)
    requires Located(tables, c, subheading, m)
    ensures var lines := Split(c);
      Write(tables, c, Subheading(section, subheading), after) ==
        Some(Glue(TrimEnd(Join(lines[..m + 1])), Glue(Trim(CanonicalText(after)), TrimStart(Join(lines[Below(tables, c, m)..])))))
  {
    var e := Below(tables, c, m);
    assert e == EndOf(Split(c), m + 1, Hashes(Split(c)[m]));
    hide *;
    LinesOfClean(c);
    LocateIs(tables, Split(c), section, subheading, m);
    WriteAt(tables, c, Subheading(section, subheading), Span(m + 1, e), after);
  }

  /** The three pieces of a written section. */
  lemma Pieces(tables: Tables, c: string, subheading: string, m: nat, after: string)
    requires Located(tables, c, subheading, m)
    ensures var lines := Split(c); var e := Below(tables, c, m); var r := Trim(CanonicalText(after));
      var prefix := TrimEnd(Join(lines[..m + 1])); var suffix := Join(lines[e..]);
      && CleanText(prefix) && CleanText(r) && CleanText(suffix) && TrimStart(suffix) == suffix
      && prefix == Join(lines[..m] + [TrimEnd(lines[m])]) && prefix != "" && (lines[e..] != [] ==> suffix != "")
      && (NoHeading(c) ==> NoHeading(prefix) && NoHeading(suffix))
  {
    var lines := Split(c);
    var e := Below(tables, c, m);
    PrefixOf(lines, m);
    hide Join, Split, TrimEnd, TrimStart, Trim, CanonicalText, NoHeading, HasTitle, OnlyMatch;
    SuffixOf(c, e);
    var rest := UpTo(c, m + 1);
    SegmentClean(c, Join(lines[..m + 1]), rest);
    TrimOfCanonicalIsClean(after);
  }

  /** What writing to a standing subheading gives, line by line and as a text. */
  lemma WrittenLines(tables: Tables, c: string, section: nat, subheading: string, m: nat, after: string)
    requires Located(tables, c, subheading, m)
    ensures var lines := Split(c); var e := Below(tables, c, m); var r := Trim(CanonicalText(after));
      var written := Write(tables, c, Subheading(section, subheading), after);
      && written.Some? && CleanText(written.value)
      && Split(written.value) == Rewritten(lines[..m], lines[m], r, lines[e..])
      && (NoHeading(c) && NoHeading(r) ==> NoHeading(written.value))
  {
    var lines := Split(c);
    assert m < |lines|;
    hide *;
    var e := Below(tables, c, m);
    var r := Trim(CanonicalText(after));
    var prefix := TrimEnd(Join(lines[..m + 1]));
    var suffix := Join(lines[e..]);
    WriteIs(tables, c, section, subheading, m, after);
    Pieces(tables, c, subheading, m, after);
    GlueClean(r, suffix);
    GlueClean(prefix, Glue(r, suffix));
    RewrittenJoins(lines[..m], lines[m], r, lines[e..]);
    GluedIsJoined(prefix, r, lines[e..]);
    RewrittenLines(lines[..m], lines[m], r, lines[e..]);
    SplitJoin(Rewritten(lines[..m], lines[m], r, lines[e..]));
  }

  lemma GluedIsJoined(prefix: string, r: string, after: seq<string>)
    requires prefix != "" && (after != [] ==> Join(after) != "")
    ensures Glue(prefix, Glue(r, Join(after))) ==
            prefix + (if r == "" then "" else "\n\n" + r) + (if after == [] then "" else "\n\n" + Join(after))
  {
  }

  lemma RewrittenLines(before: seq<string>, h: string, r: string, after: seq<string>)
    requires forall i :: 0 <= i < |before| ==> !Has(before[i], '\n')
    requires forall i :: 0 <= i < |after| ==> !Has(after[i], '\n')
    requires !Has(h, '\n')
    ensures |Rewritten(before, h, r, after)| > 0
    ensures forall i :: 0 <= i < |Rewritten(before, h, r, after)| ==> !Has(Rewritten(before, h, r, after)[i], '\n')
  {
    var b := TrimEndSplits(h);
    assert forall i :: 0 <= i < |TrimEnd(h)| ==> TrimEnd(h)[i] == h[i];
    assert !Has(TrimEnd(h), '\n');
    hide Split, TrimEnd;
  }

  /** What stands below a written target begins with its heading, or is nothing. */
  lemma SuffixOf(c: string, e: nat)
    requires CleanText(c) && 0 < e <= |Split(c)| && (e < |Split(c)| ==> IsHeadingLine(Split(c)[e]))
    ensures var y := Join(Split(c)[e..]);
      && TrimStart(y) == y && CleanText(y) && (Split(c)[e..] != [] ==> y != "")
      && (NoHeading(c) ==> NoHeading(y))
  {
    var lines := Split(c);
    if e < |lines| {
      CutAt(c, e);
      var y := Join(lines[e..]);
      HashFirst(lines, e);
      var pre := Join(lines[..e]) + "\n";
      RestClean(c, pre, y);
    } else {
      assert lines[e..] == [];
    }
  }

  lemma HashFirst(lines: seq<string>, e: nat)
    requires e < |lines| && IsHeadingLine(lines[e])
    ensures Join(lines[e..]) != "" && Join(lines[e..])[0] == '#'
  {
    assert lines[e] != "" && lines[e][0] == '#';
    if e + 1 < |lines| {
      assert lines[e..] == [lines[e]] + lines[e + 1..];
    } else {
      assert lines[e..] == [lines[e]];
    }
  }

  // ----- reading what was written -----

  lemma {:induction false} FirstMatchIs(tables: Tables, lines: seq<string>, subheading: string, from: nat, m: nat)
    requires from <= m <= |lines| && (m < |lines| ==> Matches(tables, lines[m], subheading))
    requires forall i :: from <= i < m ==> !Matches(tables, lines[i], subheading)
    ensures FirstMatch(tables, lines, subheading, from) == m
    decreases m - from
  {
    hide Matches;
    if from < m {
      FirstMatchIs(tables, lines, subheading, from + 1, m);
    }
  }

  lemma {:induction false} EndIs(lines: seq<string>, from: nat, depth: nat, e: nat)
    requires from <= e <= |lines| && (e < |lines| ==> IsHeadingLine(lines[e]) && Hashes(lines[e]) <= depth)
    requires forall i :: from <= i < e ==> !(IsHeadingLine(lines[i]) && Hashes(lines[i]) <= depth)
    ensures EndOf(lines, from, depth) == e
    decreases e - from
  {
    hide IsHeadingLine, Hashes;
    if from < e {
      EndIs(lines, from + 1, depth, e);
    }
  }

  lemma MatchIsHeading(tables: Tables, line: string, subheading: string)
    requires !IsHeadingLine(line)
    ensures !Matches(tables, line, subheading)
  {
  }

  /** Line by line: before, heading, a blank, the replacement, a blank, after. */
  lemma RewrittenAt(before: seq<string>, h: string, r: string, after: seq<string>, i: nat)
    requires i < |Rewritten(before, h, r, after)|
    ensures var lines := Rewritten(before, h, r, after); var tail := |lines| - |after|;
      && |before| < tail <= |lines|
      && (i < |before| ==> lines[i] == before[i])
      && (i == |before| ==> lines[i] == TrimEnd(h))
      && (|before| < i < tail ==> lines[i] == "" || lines[i] in Split(r))
      && (i >= tail ==> lines[i] == after[i - tail])
  {
    hide Split, TrimEnd;
  }

  /** Where the rewritten lines hold headings. */
  lemma RewrittenHeadings(lines: seq<string>, m: nat, e: nat, r: string, lines': seq<string>)
    requires m < e <= |lines| && NoHeadingLines(r)
    requires lines' == Rewritten(lines[..m], lines[m], r, lines[e..])
    ensures var tail := |lines'| - (|lines| - e);
      && m < tail <= |lines'| && lines'[m] == TrimEnd(lines[m])
      && (forall i :: 0 <= i < m ==> lines'[i] == lines[i])
      && (forall i :: m < i < tail ==> !IsHeadingLine(lines'[i]))
      && (forall i :: tail <= i < |lines'| ==> lines'[i] == lines[e + i - tail])
  {
    BlankIsNoHeading();
    assert forall x :: x in Split(r) ==> !IsHeadingLine(x);
    hide Split, TrimEnd, IsHeadingLine, Rewritten, NoHeading;
    forall i | 0 <= i < |lines'|
      ensures var tail := |lines'| - (|lines| - e);
        && m < tail <= |lines'|
        && (i < m ==> lines'[i] == lines[i])
        && (m < i < tail ==> !IsHeadingLine(lines'[i]))
        && (i >= tail ==> lines'[i] == lines[e + i - tail])
    {
      RewrittenAt(lines[..m], lines[m], r, lines[e..], i);
    }
    RewrittenLong(lines[..m], lines[m], r, lines[e..]);
    RewrittenAt(lines[..m], lines[m], r, lines[e..], m);
  }

  lemma RewrittenLong(before: seq<string>, h: string, r: string, after: seq<string>)
    ensures |Rewritten(before, h, r, after)| > |before|
  {
  }

  /** The same subheading stands where it stood, and what follows it is below the replacement. */
  lemma StandsAgain(tables: Tables, c: string, subheading: string, m: nat, r: string, v: string)
    requires Standing(tables, c, subheading, m) && NoHeadingLines(r) && CleanText(v)
    requires Split(v) == Rewritten(Split(c)[..m], Split(c)[m], r, Split(c)[Below(tables, c, m)..])
    ensures Standing(tables, v, subheading, m)
    ensures Below(tables, v, m) == |Split(v)| - |Split(c)[Below(tables, c, m)..]|
  {
    var lines := Split(c);
    var e := Below(tables, c, m);
    var lines' := Split(v);
    var tail := |lines'| - (|lines| - e);
    RewrittenHeadings(lines, m, e, r, lines');
    HeadingKeepsTitle(lines[m]);
    OnlyMatchMeans(tables, lines, subheading, m);
    hide Split, Rewritten, CleanText, TrimEnd, NoHeadingLines;
    forall i | 0 <= i < |lines'| && i != m
      ensures !Matches(tables, lines'[i], subheading)
    {
      if m < i < tail {
        MatchIsHeading(tables, lines'[i], subheading);
      }
    }
    assert Matches(tables, lines'[m], subheading);
    assert tail < |lines'| ==> lines'[tail] == lines[e];
    hide HasTitle, Title, IsHeadingLine, Hashes, Matches;
    FirstMatchIs(tables, lines', subheading, 0, m);
    FirstMatchIs(tables, lines', subheading, m + 1, |lines'|);
    EndIs(lines', m + 1, Hashes(lines'[m]), tail);
  }

  lemma BlankIsNoHeading()
    ensures !IsHeadingLine("")
  {
  }

  lemma OnlyMatchMeans(tables: Tables, lines: seq<string>, subheading: string, m: nat)
    requires OnlyMatch(tables, lines, subheading) == Some(m)
    ensures m < |lines| && Matches(tables, lines[m], subheading)
    ensures forall i :: 0 <= i < |lines| && i != m ==> !Matches(tables, lines[i], subheading)
  {
    hide Matches;
  }

  lemma ReadIs(tables: Tables, v: string, section: nat, subheading: string, m: nat)
    requires Located(tables, v, subheading, m)
    ensures BeforeOf(tables, v, Subheading(section, subheading)) == Some(Trim(Join(Split(v)[m + 1..Below(tables, v, m)])))
  {
    LinesOfClean(v);
    LocateIs(tables, Split(v), section, subheading, m);
    hide Locate, Split, Join, Trim, CleanText, HasTitle, OnlyMatch, Hashes, LinesOf;
  }

  /** The lines between the heading and what follows. */
  lemma MiddleIs(before: seq<string>, h: string, r: string, after: seq<string>)
    ensures var lines := Rewritten(before, h, r, after);
      && |before| + 1 <= |lines| - |after|
      && lines[|before| + 1..|lines| - |after|] ==
           (if r == "" then [] else [""] + Split(r)) + (if after == [] then [] else [""])
  {
    hide Split, TrimEnd;
    var body := if r == "" then [] else [""] + Split(r);
    var gap := if after == [] then [] else [""];
    assert Rewritten(before, h, r, after) == (before + [TrimEnd(h)]) + (body + gap) + after;
  }

  /** They are the replacement and blank lines. */
  lemma MiddleLines(before: seq<string>, h: string, r: string, after: seq<string>)
    requires CleanText(r)
    ensures var lines := Rewritten(before, h, r, after);
      && |before| + 1 <= |lines| - |after|
      && Trim(Join(lines[|before| + 1..|lines| - |after|])) == r
  {
    assert AllSpace("\n") && AllSpace("") && Trimmed(r);
    hide *;
    MiddleIs(before, h, r, after);
    JoinOne("");
    JoinNone();
    TrimmedEmpty();
    if r != "" {
      JoinSplit(r);
      JoinAppend([""], Split(r));
      assert ([""] + Split(r)) + [] == [""] + Split(r);
      if after == [] {
        assert "" + "\n" + r == "\n" + r + "";
        TrimCore("\n", r, "");
      } else {
        JoinAppend([""] + Split(r), [""]);
        assert "" + "\n" + r + "\n" + "" == "\n" + r + "\n";
        TrimCore("\n", r, "\n");
      }
    } else {
      assert [] + [""] == [""];
    }
  }

  lemma JoinNone()
    ensures Join([]) == ""
  {
  }

  lemma TrimmedEmpty()
    ensures Trim("") == ""
  {
  }

  lemma ReadRewritten(tables: Tables, v: string, section: nat, subheading: string, before: seq<string>, h: string, r: string, after: seq<string>)
    requires Located(tables, v, subheading, |before|) && CleanText(r)
    requires Split(v) == Rewritten(before, h, r, after) && Below(tables, v, |before|) == |Split(v)| - |after|
    ensures BeforeOf(tables, v, Subheading(section, subheading)) == Some(r)
  {
    hide *;
    ReadIs(tables, v, section, subheading, |before|);
    MiddleLines(before, h, r, after);
  }

  /** The lines of a section around the target, as they are after `r` was written. */
  predicate Framed(tables: Tables, v: string, subheading: string, before: seq<string>, h: string, r: string, after: seq<string>) {
    && Standing(tables, v, subheading, |before|)
    && Split(v) == Rewritten(before, h, r, after) && Below(tables, v, |before|) == |Split(v)| - |after|
  }

  /** Writing frames the replacement with the lines that were there. */
  lemma WriteFrames(tables: Tables, c: string, section: nat, subheading: string, m: nat, replacement: string)
    requires Standing(tables, c, subheading, m) && NoHeadingLines(Trim(CanonicalText(replacement)))
    ensures var lines := Split(c); var written := Write(tables, c, Subheading(section, subheading), replacement);
      && m < |lines| && written.Some? && CleanText(written.value)
      && Framed(tables, written.value, subheading, lines[..m], lines[m], Trim(CanonicalText(replacement)), lines[Below(tables, c, m)..])
  {
    WrittenLines(tables, c, section, subheading, m, replacement);
    var v := Write(tables, c, Subheading(section, subheading), replacement).value;
    StandsAgain(tables, c, subheading, m, Trim(CanonicalText(replacement)), v);
    hide Split, Standing, Below, Rewritten, Write, CleanText, Trim, CanonicalText, NoHeadingLines;
  }

  /** Reading a subheading after writing it gives the trimmed replacement. */
  lemma ReadAfterWrite(tables: Tables, c: string, section: nat, subheading: string, m: nat, after: string)
    requires Standing(tables, c, subheading, m) && NoHeadingLines(Trim(CanonicalText(after)))
    ensures var written := Write(tables, c, Subheading(section, subheading), after);
      && written.Some? && CleanText(written.value)
      && BeforeOf(tables, written.value, Subheading(section, subheading)) == Some(Trim(CanonicalText(after)))
  {
    WriteFrames(tables, c, section, subheading, m, after);
    TrimOfCanonicalIsClean(after);
    hide Split, Located, Below, Rewritten, Write, CleanText, Trim, CanonicalText, NoHeadingLines, BeforeOf;
    var lines := Split(c);
    ReadRewritten(tables, Write(tables, c, Subheading(section, subheading), after).value, section, subheading,
                  lines[..m], lines[m], Trim(CanonicalText(after)), lines[Below(tables, c, m)..]);
  }

  lemma TrimEndTwice(h: string)
    ensures TrimEnd(TrimEnd(h)) == TrimEnd(h)
  {
    var b := TrimEndSplits(h);
  }

  /** The frame alone decides what a write gives. */
  lemma WriteFromFrame(tables: Tables, v: string, section: nat, subheading: string, before: seq<string>, h: string, r: string,
                       after: seq<string>, last: string)
    requires Framed(tables, v, subheading, before, h, r, after)
    ensures Write(tables, v, Subheading(section, subheading), last) ==
            Some(Join(Rewritten(before, h, Trim(CanonicalText(last)), after)))
  {
    var m := |before|;
    var r' := Trim(CanonicalText(last));
    var lines := Split(v);
    WrittenLines(tables, v, section, subheading, m, last);
    JoinSplit(Write(tables, v, Subheading(section, subheading), last).value);
    FrameOf(before, h, r, after);
    TrimEndTwice(h);
    assert m < |lines|;
    hide *;
    SameRewritten(lines[..m], lines[m], lines[Below(tables, v, m)..], before, h, after, r');
  }

  lemma SameRewritten(p: seq<string>, h: string, s: seq<string>, p': seq<string>, h': string, s': seq<string>, r: string)
    requires p == p' && TrimEnd(h) == TrimEnd(h') && s == s'
    ensures Rewritten(p, h, r, s) == Rewritten(p', h', r, s')
  {
    hide Split, TrimEnd;
  }

  lemma FrameOf(before: seq<string>, h: string, r: string, after: seq<string>)
    ensures var lines := Rewritten(before, h, r, after);
      && |lines| >= |after| && |before| < |lines|
      && lines[..|before|] == before && lines[|before|] == TrimEnd(h) && lines[|lines| - |after|..] == after
  {
    hide Split, TrimEnd;
  }

  /** Writing a subheading twice equals writing it the last time. */
  lemma WriteTwice(tables: Tables, c: string, section: nat, subheading: string, m: nat, first: string, last: string)
    requires Standing(tables, c, subheading, m) && NoHeadingLines(Trim(CanonicalText(first)))
    ensures var target := Subheading(section, subheading); var once := Write(tables, c, target, first);
      once.Some? && Write(tables, once.value, target, last) == Write(tables, c, target, last)
  {
    var target := Subheading(section, subheading);
    WriteFrames(tables, c, section, subheading, m, first);
    WrittenLines(tables, c, section, subheading, m, last);
    JoinSplit(Write(tables, c, target, last).value);
    hide Split, Standing, Below, Rewritten, Write, CleanText, Trim, CanonicalText, NoHeadingLines, Join, Framed;
    var lines := Split(c);
    WriteFromFrame(tables, Write(tables, c, target, first).value, section, subheading, lines[..m], lines[m],
                   Trim(CanonicalText(first)), lines[Below(tables, c, m)..], last);
  }

  // ----- exactly when the laws of a subheading hold -----

  /** A heading with a blank title stops being one when the space behind it is trimmed. */
  lemma BlankTitleVanishes(h: string)
    requires HasTitle(h) && Title(h) == ""
    ensures !HasTitle(TrimEnd(h))
  {
    var n := Hashes(h);
    var a, b := TrimSplits(h[n..]);
    AllSpaceAppend(a, b);
    assert h[n..] == a + b && h == h[..n] + h[n..];
    assert h[n - 1] == '#' && Trimmed(h[..n]);
    hide Trim, Hashes, IsSpace, Trimmed;
    TrimEndCore(h[..n], h[n..]);
    TrimmedStays(h[..n]);
    assert TrimEnd(h) == h[..n];
    AllHashes(h[..n]);
  }

  lemma {:induction false} AllHashes(s: string)
    requires forall i :: 0 <= i < |s| ==> s[i] == '#'
    ensures Hashes(s) == |s|
  {
    if s != "" {
      AllHashes(s[1..]);
    }
  }

  /** After a write that leaves no match, the subheading cannot be found. */
  lemma NothingMatches(tables: Tables, c: string, subheading: string, m: nat, r: string, v: string)
    requires Located(tables, c, subheading, m) && Title(Split(c)[m]) == "" && NoHeadingLines(r) && CleanText(v)
    requires Split(v) == Rewritten(Split(c)[..m], Split(c)[m], r, Split(c)[Below(tables, c, m)..])
    ensures OnlyMatch(tables, Split(v), subheading).None?
  {
    var lines := Split(c);
    var e := Below(tables, c, m);
    var lines' := Split(v);
    var tail := |lines'| - (|lines| - e);
    RewrittenHeadings(lines, m, e, r, lines');
    BlankTitleVanishes(lines[m]);
    OnlyMatchMeans(tables, lines, subheading, m);
    hide Split, Rewritten, CleanText, TrimEnd, NoHeadingLines;
    forall i | 0 <= i < |lines'|
      ensures !Matches(tables, lines'[i], subheading)
    {
      if m < i < tail {
        MatchIsHeading(tables, lines'[i], subheading);
      }
    }
    hide HasTitle, Title, IsHeadingLine, Hashes, Matches;
    FirstMatchIs(tables, lines', subheading, 0, |lines'|);
  }

  lemma Unreadable(tables: Tables, v: string, section: nat, subheading: string, last: string)
    requires CleanText(v) && OnlyMatch(tables, Split(v), subheading).None?
    ensures BeforeOf(tables, v, Subheading(section, subheading)).None?
    ensures Write(tables, v, Subheading(section, subheading), last).None?
  {
    LinesOfClean(v);
    hide Split, OnlyMatch, LinesOf, CleanText;
  }

  /** For every clean section, matching subheading and replacement without heading
      lines: reading after writing gives the trimmed replacement exactly when the
      heading has a title; otherwise the target is gone. */
  lemma ReadAfterWriteExact(tables: Tables, c: string, section: nat, subheading: string, m: nat, after: string)
    requires Located(tables, c, subheading, m) && NoHeadingLines(Trim(CanonicalText(after)))
    ensures var target := Subheading(section, subheading); var written := Write(tables, c, target, after);
      && written.Some?
      && (BeforeOf(tables, written.value, target) == Some(Trim(CanonicalText(after))) <==> Title(Split(c)[m]) != "")
      && (BeforeOf(tables, written.value, target).None? <==> Title(Split(c)[m]) == "")
  {
    if Title(Split(c)[m]) != "" {
      ReadAfterWrite(tables, c, section, subheading, m, after);
    } else {
      WrittenLines(tables, c, section, subheading, m, after);
      var v := Write(tables, c, Subheading(section, subheading), after).value;
      hide Write, Trim, CanonicalText, Title, HasTitle, NoHeadingLines, OnlyMatch;
      NothingMatches(tables, c, subheading, m, Trim(CanonicalText(after)), v);
      Unreadable(tables, v, section, subheading, after);
    }
  }

  /** Likewise, writing twice equals writing last exactly when the heading has a title. */
  lemma WriteTwiceExact(tables: Tables, c: string, section: nat, subheading: string, m: nat, first: string, last: string)
    requires Located(tables, c, subheading, m) && NoHeadingLines(Trim(CanonicalText(first)))
    ensures var target := Subheading(section, subheading); var once := Write(tables, c, target, first);
      && once.Some?
      && (Write(tables, once.value, target, last) == Write(tables, c, target, last) <==> Title(Split(c)[m]) != "")
  {
    WrittenLines(tables, c, section, subheading, m, last);
    if Title(Split(c)[m]) != "" {
      WriteTwice(tables, c, section, subheading, m, first, last);
    } else {
      WrittenLines(tables, c, section, subheading, m, first);
      var v := Write(tables, c, Subheading(section, subheading), first).value;
      hide Write, Trim, CanonicalText, Title, HasTitle, NoHeadingLines, OnlyMatch;
      NothingMatches(tables, c, subheading, m, Trim(CanonicalText(first)), v);
      Unreadable(tables, v, section, subheading, last);
    }
  }

  // ----- the laws for target keys -----

  /** The target of a key and the section it lies in; a subheading must stand there. */
  ghost predicate Writable(tables: Tables, names: seq<string>, sections: seq<string>, key: string)
    requires |names| == |sections|
  {
    var target := ParseTarget(names, key, 0);
    target.Some? && !target.value.NamedBlock? &&
    (target.value.Subheading? ==>
       exists m :: Standing(tables, sections[target.value.section], target.value.subheading, m))
  }

  /** For SECTION and SUBHEADING targets and a replacement without heading lines:
      reading after writing gives the trimmed replacement, writing twice equals
      writing last, no other section changes, and all of them survive being printed
      and read again. */
  lemma LensLaws(tables: Tables, names: seq<string>, sections: seq<string>, key: string, first: string, last: string)
    requires |names| == |sections| && ValidNames(names) && Clean(sections) && NoHeadings(sections)
    requires Writable(tables, names, sections, key) && NoHeadingLines(Trim(CanonicalText(first)))
    ensures var k := ParseTarget(names, key, 0).value.section; var once := ApplyTarget(tables, names, sections, key, first);
      && once.Some? && Clean(once.value) && NoHeadings(once.value)
      && TargetBefore(tables, names, once.value, key) == Some(Trim(CanonicalText(first)))
      && ApplyTarget(tables, names, once.value, key, last) == ApplyTarget(tables, names, sections, key, last)
      && (forall j :: 0 <= j < |sections| && j != k ==> once.value[j] == sections[j])
      && Parse(names, Serialize(names, once.value)) == once
  {
    var target := ParseTarget(names, key, 0).value;
    var k := target.section;
    var c := sections[k];
    assert CleanText(c) && NoHeading(c);
    if target.Whole? {
      TrimOfCanonicalIsClean(first);
    } else {
      var m :| Standing(tables, c, target.subheading, m);
      ReadAfterWrite(tables, c, k, target.subheading, m, first);
      WriteTwice(tables, c, k, target.subheading, m, first, last);
      WrittenLines(tables, c, k, target.subheading, m, first);
    }
    LawsFromSection(tables, names, sections, key, first, last);
  }

  /** The laws of one section are the laws of the record of sections. */
  lemma LawsFromSection(tables: Tables, names: seq<string>, sections: seq<string>, key: string, first: string, last: string)
    requires |names| == |sections| && ValidNames(names) && Clean(sections) && NoHeadings(sections)
    requires ParseTarget(names, key, 0).Some?
    requires var target := ParseTarget(names, key, 0).value; var once := Write(tables, sections[target.section], target, first);
      && once.Some? && CleanText(once.value) && NoHeading(once.value)
      && BeforeOf(tables, once.value, target) == Some(Trim(CanonicalText(first)))
      && Write(tables, once.value, target, last) == Write(tables, sections[target.section], target, last)
    ensures var k := ParseTarget(names, key, 0).value.section; var once := ApplyTarget(tables, names, sections, key, first);
      && once.Some? && Clean(once.value) && NoHeadings(once.value)
      && TargetBefore(tables, names, once.value, key) == Some(Trim(CanonicalText(first)))
      && ApplyTarget(tables, names, once.value, key, last) == ApplyTarget(tables, names, sections, key, last)
      && (forall j :: 0 <= j < |sections| && j != k ==> once.value[j] == sections[j])
      && Parse(names, Serialize(names, once.value)) == once
  {
    hide ParseTarget, Write, BeforeOf, NoHeading, Trimmed, Has, Trim, CanonicalText, ValidNames, Parse, Serialize;
    var once := ApplyTarget(tables, names, sections, key, first).value;
    assert forall j :: 0 <= j < |once| ==> CleanText(once[j]) && NoHeading(once[j]);
    RoundTrip(names, once);
    var written := Write(tables, once[ParseTarget(names, key, 0).value.section], ParseTarget(names, key, 0).value, last);
    if written.Some? {
      assert once[ParseTarget(names, key, 0).value.section := written.value] ==
             sections[ParseTarget(names, key, 0).value.section := written.value];
    }
  }

  // ----- when a write leaves a heading line behind -----

  /** What follows the lines a target covers, as the write keeps it. */
  function Behind(tables: Tables, c: string, target: Target): string {
    if target.Whole? then ""
    else
      var span := Locate(tables, LinesOf(c), target);
      if span.None? then "" else TrimStart(Join(LinesOf(c)[span.value.end..]))
  }

  lemma GlueHolds(a: string, b: string, i: nat)
    ensures HeadingAt(a, i) && b != "" ==> HeadingAt(a + "\n\n" + b, i)
    ensures HeadingAt(b, i) ==> HeadingAt(a + "\n\n" + b, |a| + 2 + i)
  {
    var t := a + "\n\n" + b;
    if HeadingAt(a, i) {
      assert t[i] == a[i] && t[i + 1] == a[i + 1] && t[i + 2] == a[i + 2] && t[i + 3] == a[i + 3];
      assert i > 0 ==> t[i - 1] == a[i - 1];
    }
    assert t == (a + "\n\n") + b;
    HeadingShift(a + "\n\n", b, i);
  }

  /** Glueing keeps every heading line and makes none. */
  lemma GlueExact(a: string, b: string)
    requires CleanText(a) && CleanText(b)
    ensures CleanText(Glue(a, b))
    ensures NoHeading(Glue(a, b)) <==> NoHeading(a) && NoHeading(b)
  {
    GlueClean(a, b);
    hide HeadingAt, CleanText;
    if a != "" && b != "" {
      forall i | 0 <= i < |a| && HeadingAt(a, i)
        ensures !NoHeading(Glue(a, b))
      {
        GlueHolds(a, b, i);
        assert HeadingAt(a + "\n\n" + b, i);
      }
      forall i | 0 <= i < |b| && HeadingAt(b, i)
        ensures !NoHeading(Glue(a, b))
      {
        GlueHolds(a, b, i);
        assert HeadingAt(a + "\n\n" + b, |a| + 2 + i);
      }
    }
  }

  lemma TailClean(c: string, pre: string, y: string)
    requires CleanText(c) && c == pre + y
    ensures CleanText(TrimStart(y))
  {
    var a := TrimStartSplits(y);
    var t := TrimStart(y);
    hide IsSpace, TrimStart;
    assert forall i :: 0 <= i < |t| ==> t[i] == c[|pre| + |a| + i];
    assert t != "" ==> t[|t| - 1] == c[|c| - 1];
  }

  /** A heading line inside a rest of a text is one of the text. */
  lemma InnerHeading(c: string, pre: string, t: string, i: nat)
    requires c == pre + t && 0 < i && HeadingAt(t, i)
    ensures HeadingAt(c, |pre| + i)
  {
    assert c[|pre| + i] == t[i] && c[|pre| + i + 1] == t[i + 1] && c[|pre| + i + 2] == t[i + 2] && c[|pre| + i + 3] == t[i + 3];
    assert c[|pre| + i - 1] == t[i - 1];
  }

  /** Trimming the start of a rest of lines can make a heading of its first line only. */
  lemma TailExact(c: string, pre: string, y: string)
    requires CleanText(c) && NoHeading(c) && c == pre + y
    ensures CleanText(TrimStart(y))
    ensures NoHeading(TrimStart(y)) <==> !HeadingAt(TrimStart(y), 0)
  {
    TailClean(c, pre, y);
    var a := TrimStartSplits(y);
    var t := TrimStart(y);
    assert c == (pre + a) + t;
    hide HeadingAt, TrimStart, CleanText;
    forall i | 0 < i < |t|
      ensures !HeadingAt(t, i)
    {
      if HeadingAt(t, i) {
        InnerHeading(c, pre + a, t, i);
      }
    }
    HeadNeedsText(t);
  }

  lemma HeadNeedsText(t: string)
    ensures HeadingAt(t, 0) ==> t != ""
  {
  }

  /** The rest of a text from a line on, and the text before it. */
  lemma FromLine(c: string, e: nat) returns (pre: string)
    requires e <= |Split(c)|
    ensures e < |Split(c)| ==> c == pre + Join(Split(c)[e..]) && (pre == "" || pre[|pre| - 1] == '\n')
    ensures e == |Split(c)| ==> Join(Split(c)[e..]) == ""
  {
    if e == 0 {
      pre := "";
      JoinSplit(c);
      assert Split(c)[0..] == Split(c);
    } else if e < |Split(c)| {
      CutAt(c, e);
      pre := Join(Split(c)[..e]) + "\n";
      hide Split, Join;
    } else {
      pre := "";
      assert Split(c)[e..] == [];
    }
  }

  lemma HeadPiece(c: string, k: nat)
    requires CleanText(c) && NoHeading(c) && k <= |Split(c)|
    ensures CleanText(TrimEnd(Join(Split(c)[..k]))) && NoHeading(TrimEnd(Join(Split(c)[..k])))
  {
    if k == 0 {
      assert Split(c)[..0] == [];
      JoinNone();
    } else {
      var rest := UpTo(c, k);
      SegmentClean(c, Join(Split(c)[..k]), rest);
    }
  }

  lemma TailPiece(c: string, e: nat)
    requires CleanText(c) && NoHeading(c) && e <= |Split(c)|
    ensures var t := TrimStart(Join(Split(c)[e..])); CleanText(t) && (NoHeading(t) <==> !HeadingAt(t, 0))
  {
    var pre := FromLine(c, e);
    hide Split, Join, HeadingAt, NoHeading;
    if e < |Split(c)| {
      TailExact(c, pre, Join(Split(c)[e..]));
    } else {
      TrimStartNone();
      assert NoHeading("") && !HeadingAt("", 0) by { NothingHeads(); }
    }
  }

  lemma NothingHeads()
    ensures NoHeading("") && !HeadingAt("", 0)
  {
  }

  /** A write of lines, in its three pieces. */
  lemma WritePieces(tables: Tables, c: string, target: Target, after: string)
    requires CleanText(c) && !target.Whole? && Write(tables, c, target, after).Some?
    ensures var span := Locate(tables, Split(c), target);
      && span.Some? && Behind(tables, c, target) == TrimStart(Join(Split(c)[span.value.end..]))
      && Write(tables, c, target, after).value ==
           Glue(TrimEnd(Join(Split(c)[..span.value.start])), Glue(Trim(CanonicalText(after)), Behind(tables, c, target)))
  {
    LinesOfClean(c);
    hide Locate, LinesOf, Trim, CanonicalText, TrimEnd, TrimStart, Join, Glue, Split, CleanText;
  }

  /** For every target of a clean section without heading lines: what is written holds
      no heading line exactly when the replacement holds none and the text behind the
      target does not open with one. */
  lemma WrittenHeadingsExact(tables: Tables, c: string, target: Target, after: string)
    requires CleanText(c) && NoHeading(c) && Write(tables, c, target, after).Some?
    ensures var written := Write(tables, c, target, after).value;
      && CleanText(written)
      && (NoHeading(written) <==> NoHeading(Trim(CanonicalText(after))) && !HeadingAt(Behind(tables, c, target), 0))
  {
    TrimOfCanonicalIsClean(after);
    if target.Whole? {
      NothingHeads();
    } else {
      WritePieces(tables, c, target, after);
      var span := Locate(tables, Split(c), target).value;
      hide *;
      HeadPiece(c, span.start);
      TailPiece(c, span.end);
      GlueExact(Trim(CanonicalText(after)), Behind(tables, c, target));
      GlueExact(TrimEnd(Join(Split(c)[..span.start])), Glue(Trim(CanonicalText(after)), Behind(tables, c, target)));
    }
  }

  /** Behind a subheading stands another heading, not indented: only a named block can
      have an indented heading line behind it. */
  lemma OnlyBlocksExpose(tables: Tables, c: string, target: Target)
    requires CleanText(c) && NoHeading(c) && !target.NamedBlock?
    ensures !HeadingAt(Behind(tables, c, target), 0)
  {
    NothingHeads();
    if target.Subheading? && Locate(tables, LinesOf(c), target).Some? {
      LinesOfClean(c);
      var span := Locate(tables, Split(c), target).value;
      SuffixOf(c, span.end);
      hide Split, Join, Locate, LinesOf;
    }
  }

  // ----- where the laws stop -----

  lemma NoTables() returns (tables: Tables)
    ensures forall s :: tables.labelOf(s) == ""
  {
    tables := Tables(s => "", s => None);
  }

  lemma LineFacts()
    ensures Hashes("###  ") == 3 && HasTitle("###  ") && Title("###  ") == ""
    ensures Hashes("text") == 0 && Hashes("###") == 3 && Hashes("new") == 0 && Hashes("") == 0
    ensures !HasTitle("text") && !HasTitle("###") && !HasTitle("new") && !HasTitle("")
    ensures !IsHeadingLine("text")
  {
    HashesAre("###  ", 3);
    assert "###  "[3..] == "  " && AllSpace("  ");
    AllSpaceTrims("  ");
    assert Hashes("") == 0;
    assert "###"[1..] == "##" && "##"[1..] == "#" && "#"[1..] == "";
    assert Hashes("#") == 1 && Hashes("##") == 2;
  }

  lemma SplitTwo(a: string, b: string)
    requires !Has(a, '\n') && !Has(b, '\n')
    ensures Split(a + "\n" + b) == [a, b]
  {
    SplitAppend(a, b);
    SplitLine(a);
    SplitLine(b);
    hide Split;
  }

  lemma SplitFacts()
    ensures Split("###  \ntext") == ["###  ", "text"] && Split("###\n\nnew") == ["###", "", "new"]
    ensures CleanText("###  \ntext") && CleanText("###\n\nnew") && CleanText("new")
  {
    hide Split;
    SplitTwo("###  ", "text");
    assert "###  " + "\n" + "text" == "###  \ntext";
    SplitTwo("", "new");
    SplitAppend("###", "\nnew");
    SplitLine("###");
    assert "" + "\n" + "new" == "\nnew";
    assert "###" + "\n" + "\nnew" == "###\n\nnew";
  }

  /** A heading whose title is only blanks vanishes with the space behind it: after
      writing, the target cannot be found any more.  So the laws ask for a title. */
  lemma BlankTitleIsLost() returns (tables: Tables)
    ensures var c := "###  \ntext"; var target := Subheading(0, "…");
      && BeforeOf(tables, c, target) == Some("text")
      && Write(tables, c, target, "new") == Some("###\n\nnew")
      && BeforeOf(tables, "###\n\nnew", target).None?
  {
    tables := NoTables();
    SplitFacts();
    LineFacts();
    LinesOfClean("###  \ntext");
    LinesOfClean("###\n\nnew");
    LinesOfClean("new");
    BlankTitleLocated(tables);
    hide *;
    ReadPiece(tables, "###  \ntext", ["###  ", "text"]);
    WritePiece(tables, "###  \ntext", ["###  ", "text"]);
    GonePiece(tables, "###\n\nnew");
  }

  lemma BlankTitleLocated(tables: Tables)
    requires forall s :: tables.labelOf(s) == ""
    ensures Locate(tables, ["###  ", "text"], Subheading(0, "…")) == Some(Span(1, 2))
    ensures Locate(tables, ["###", "", "new"], Subheading(0, "…")) == None
  {
    LineFacts();
    hide Hashes, HasTitle, Title, IsHeadingLine;
    FirstMatchIs(tables, ["###  ", "text"], "…", 0, 0);
    FirstMatchIs(tables, ["###  ", "text"], "…", 1, 2);
    EndIs(["###  ", "text"], 1, 3, 2);
    FirstMatchIs(tables, ["###", "", "new"], "…", 0, 3);
  }

  lemma ReadPiece(tables: Tables, c: string, lines: seq<string>)
    requires LinesOf(c) == lines && |lines| == 2 && lines[1] == "text"
    requires Locate(tables, lines, Subheading(0, "…")) == Some(Span(1, 2))
    ensures BeforeOf(tables, c, Subheading(0, "…")) == Some("text")
  {
    assert Trimmed("text");
    TrimmedStays("text");
    JoinOne("text");
    assert lines[1..2] == ["text"];
    hide Locate, LinesOf, Trim, Join;
  }

  lemma BlankTrimmed()
    ensures TrimEnd("###  ") == "###"
  {
    assert Trimmed("###") && AllSpace("  ") && "###  " == "###" + "  ";
    hide *;
    TrimmedStays("###");
    TrimEndCore("###", "  ");
  }

  lemma WritePiece(tables: Tables, c: string, lines: seq<string>)
    requires LinesOf(c) == lines && |lines| == 2 && lines[0] == "###  "
    requires Trim(CanonicalText("new")) == "new"
    requires Locate(tables, lines, Subheading(0, "…")) == Some(Span(1, 2))
    ensures Write(tables, c, Subheading(0, "…"), "new") == Some("###\n\nnew")
  {
    var head, tail := lines[..1], lines[2..];
    assert head == [lines[0]] && tail == [];
    hide *;
    BlankTrimmed();
    JoinOne(lines[0]);
    JoinNone();
    TrimStartNone();
    GlueNew();
    WriteAt(tables, c, Subheading(0, "…"), Span(1, 2), "new");
  }

  lemma GlueNew()
    ensures Glue("###", Glue("new", "")) == "###\n\nnew"
  {
  }

  lemma GonePiece(tables: Tables, c: string)
    requires Locate(tables, LinesOf(c), Subheading(0, "…")) == None
    ensures BeforeOf(tables, c, Subheading(0, "…")).None?
  {
    hide Locate, LinesOf;
  }

  lemma TrimStartNone()
    ensures TrimStart("") == ""
  {
  }
}
