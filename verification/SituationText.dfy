/** The body of a situation: level-2 headings with one section of text under each
    (packages/domain/src/index.ts, apps/web/src/workspace-source-state.ts). */
module SituationText {
  import opened Common
  import opened Text

  // ----- headings: /^##[ \t]+(.+?)[ \t]*$/gmu -----

  /** What `^`, `$` and `.` of a regular expression take for the end of a line; a
      canonical text holds no CR. */
  predicate EndsLine(c: char) {
    c == '\n' || c == '\U{2028}' || c == '\U{2029}'
  }

  predicate LineStart(t: string, i: nat)
    requires i <= |t|
  {
    i == 0 || EndsLine(t[i - 1])
  }

  /** A match starts here: two hashes, a blank, and one more character on the line. */
  predicate HeadingAt(t: string, i: nat) {
    && i + 3 < |t| && LineStart(t, i)
    && t[i] == '#' && t[i + 1] == '#' && IsBlank(t[i + 2]) && !EndsLine(t[i + 3])
  }

  predicate NoHeading(t: string) {
    forall i :: 0 <= i < |t| ==> !HeadingAt(t, i)
  }

  function LineEnd(t: string, i: nat): (e: nat)
    requires i <= |t|
    ensures i <= e <= |t|
    decreases |t| - i
  {
    if i == |t| || EndsLine(t[i]) then i else LineEnd(t, i + 1)
  }

  function NextHeading(t: string, i: nat): (h: nat)
    requires i <= |t|
    ensures i <= h <= |t|
    ensures h < |t| ==> HeadingAt(t, h)
    decreases |t| - i
  {
    if i == |t| || HeadingAt(t, i) then i else NextHeading(t, i + 1)
  }

  lemma {:induction false} LineEndIsIt(t: string, i: nat, e: nat)
    requires i <= e <= |t| && (e < |t| ==> EndsLine(t[e]))
    requires forall j :: i <= j < e ==> !EndsLine(t[j])
    ensures LineEnd(t, i) == e
    decreases e - i
  {
    if i < e {
      LineEndIsIt(t, i + 1, e);
    }
  }

  lemma {:induction false} HeadingIsIt(t: string, i: nat, h: nat)
    requires i <= h <= |t| && (h < |t| ==> HeadingAt(t, h))
    requires forall j :: i <= j < h ==> !HeadingAt(t, j)
    ensures NextHeading(t, i) == h
    decreases h - i
  {
    hide HeadingAt;
    if i < h {
      HeadingIsIt(t, i + 1, h);
    }
  }

  /** One match: match[1].trim(), the text up to the next match, and where that is. */
  datatype Section = Section(name: string, content: string, next: nat)

  function SectionAt(t: string, h: nat): (s: Section)
    requires h < |t| && HeadingAt(t, h)
    ensures h < s.next <= |t|
  {
    HeadingIsLong(t, h);
    var e := LineEnd(t, h);
    var n := NextHeading(t, e);
    Section(Trim(t[h + 2..e]), Trim(t[e..n]), n)
  }

  // ----- parsing -----

  /** The map that parseSituationSections fills: a later heading overwrites an earlier one. */
  function Parsed(t: string, i: nat): map<string, string>
    requires i <= |t|
    decreases |t| - i
  {
    var h := NextHeading(t, i);
    if h == |t| then map[]
    else
      var s := SectionAt(t, h);
      map[s.name := s.content] + Parsed(t, s.next)
  }

  /** parseSituationSections: None when a required section is missing. */
  function Parse(names: seq<string>, body: string): (r: Option<seq<string>>)
    ensures r.Some? ==> |r.value| == |names|
  {
    var parsed := Parsed(CanonicalText(body), 0);
    if forall k :: 0 <= k < |names| ==> names[k] in parsed
    then Some(seq(|names|, k requires 0 <= k < |names| && names[k] in parsed => parsed[names[k]]))
    else None
  }

  lemma Overwrite(before: map<string, string>, name: string, content: string, rest: map<string, string>)
    ensures before + (map[name := content] + rest) == before[name := content] + rest
  {
  }

  lemma NextHeadingStays(t: string, i: nat)
    requires i <= |t|
    ensures var h := NextHeading(t, i); NextHeading(t, h) == h && Parsed(t, h) == Parsed(t, i)
  {
    hide HeadingAt;
  }

  /** The loops of parseSituationSections. */
  method ParseSituationSections(names: seq<string>, body: string) returns (sections: Option<seq<string>>)
    ensures sections == Parse(names, body)
  {
    hide HeadingAt, SectionAt, NextHeading;
    var canonical := CanonicalText(body);
    var parsed: map<string, string> := map[];
    var h := NextHeading(canonical, 0);
    NextHeadingStays(canonical, 0);
    while h < |canonical|
      invariant h <= |canonical| && h == NextHeading(canonical, h)
      invariant parsed + Parsed(canonical, h) == Parsed(canonical, 0)
      decreases |canonical| - h
    {
      var section := SectionAt(canonical, h);
      Overwrite(parsed, section.name, section.content, Parsed(canonical, section.next));
      parsed := parsed[section.name := section.content];
      h := NextHeading(canonical, section.next);
      NextHeadingStays(canonical, section.next);
    }
    assert parsed == Parsed(canonical, 0);
    var values: seq<string> := [];
    for k := 0 to |names|
      invariant |values| == k
      invariant forall i :: 0 <= i < k ==> names[i] in parsed && values[i] == parsed[names[i]]
    {
      if names[k] !in parsed {
        return None;
      }
      values := values + [parsed[names[k]]];
    }
    var result := Parse(names, body);
    assert result.Some? && values == result.value;
    return Some(values);
  }

  // ----- printing -----

  /** The sections joined by a blank line, before canonicalText. */
  function Blocks(names: seq<string>, sections: seq<string>): string
    requires |names| == |sections|
  {
    if names == [] then ""
    else
      var block := "## " + names[0] + "\n\n" + Trim(sections[0]);
      if |names| == 1 then block else block + "\n\n" + Blocks(names[1..], sections[1..])
  }

  /** serializeSituationSections. */
  function Serialize(names: seq<string>, sections: seq<string>): string
    requires |names| == |sections|
  {
    CanonicalText(Blocks(names, sections))
  }

  /** A heading name that the pattern reads back as it is. */
  predicate ValidName(n: string) {
    n != "" && Trimmed(n) && forall i :: 0 <= i < |n| ==> !EndsLine(n[i]) && n[i] != '\r'
  }

  predicate ValidNames(names: seq<string>) {
    && names != []
    && (forall k :: 0 <= k < |names| ==> ValidName(names[k]))
    && (forall k, m :: 0 <= k < m < |names| ==> names[k] != names[m])
  }

  predicate Clean(sections: seq<string>) {
    forall k :: 0 <= k < |sections| ==> Trimmed(sections[k]) && !Has(sections[k], '\r')
  }

  predicate NoHeadings(sections: seq<string>) {
    forall k :: 0 <= k < |sections| ==> NoHeading(sections[k])
  }

  // ----- a heading, a text, and the rest -----

  /** Nothing but the line before decides whether a suffix holds a heading. */
  lemma HeadingShift(pre: string, rest: string, i: nat)
    requires pre == "" || EndsLine(pre[|pre| - 1])
    ensures HeadingAt(pre + rest, |pre| + i) <==> HeadingAt(rest, i)
  {
    var t := pre + rest;
    if |pre| + i + 3 < |t| {
      assert t[|pre| + i] == rest[i] && t[|pre| + i + 1] == rest[i + 1] && t[|pre| + i + 2] == rest[i + 2];
      assert t[|pre| + i + 3] == rest[i + 3];
      assert i > 0 ==> t[|pre| + i - 1] == rest[i - 1];
    }
  }

  lemma {:induction false} LineEndShift(pre: string, rest: string, i: nat)
    requires i <= |rest|
    ensures LineEnd(pre + rest, |pre| + i) == |pre| + LineEnd(rest, i)
    decreases |rest| - i
  {
    if i < |rest| && !EndsLine(rest[i]) {
      LineEndShift(pre, rest, i + 1);
    }
  }

  lemma {:induction false} NextHeadingShift(pre: string, rest: string, i: nat)
    requires i <= |rest| && (pre == "" || EndsLine(pre[|pre| - 1]))
    ensures NextHeading(pre + rest, |pre| + i) == |pre| + NextHeading(rest, i)
    decreases |rest| - i
  {
    HeadingShift(pre, rest, i);
    if i < |rest| && !HeadingAt(rest, i) {
      NextHeadingShift(pre, rest, i + 1);
    }
  }

  lemma SliceShift(pre: string, rest: string, a: nat, b: nat)
    requires a <= b <= |rest|
    ensures (pre + rest)[|pre| + a..|pre| + b] == rest[a..b]
  {
  }

  /** Two headings with the same lines below them give the same section. */
  lemma SameSection(t: string, u: string, p: nat, h: nat, e: nat, n: nat)
    requires h < |u| && HeadingAt(u, h) && p + h < |t| && HeadingAt(t, p + h)
    requires e == LineEnd(u, h) && h + 2 <= e && n == NextHeading(u, e)
    requires LineEnd(t, p + h) == p + e && NextHeading(t, p + e) == p + n
    requires t[p + h + 2..p + e] == u[h + 2..e] && t[p + e..p + n] == u[e..n]
    ensures SectionAt(t, p + h) == SectionAt(u, h).(next := p + SectionAt(u, h).next)
  {
    hide HeadingAt, LineEnd, NextHeading, Trim;
  }

  lemma HeadingInside(t: string, h: nat)
    requires HeadingAt(t, h)
    ensures h < |t|
  {
  }

  lemma SectionShift(pre: string, rest: string, h: nat)
    requires h < |rest| && HeadingAt(rest, h) && (pre == "" || EndsLine(pre[|pre| - 1]))
    ensures HeadingAt(pre + rest, |pre| + h)
    ensures SectionAt(pre + rest, |pre| + h) == SectionAt(rest, h).(next := |pre| + SectionAt(rest, h).next)
  {
    hide *;
    HeadingShift(pre, rest, h);
    HeadingIsLong(rest, h);
    LineEndShift(pre, rest, h);
    HeadingInside(pre + rest, |pre| + h);
    var e := LineEnd(rest, h);
    NextHeadingShift(pre, rest, e);
    var n := NextHeading(rest, e);
    SliceShift(pre, rest, h + 2, e);
    SliceShift(pre, rest, e, n);
    SameSection(pre + rest, rest, |pre|, h, e, n);
  }

  lemma HeadingIsLong(t: string, h: nat)
    requires h < |t| && HeadingAt(t, h)
    ensures h + 4 <= LineEnd(t, h)
  {
    assert LineEnd(t, h) == LineEnd(t, h + 1) == LineEnd(t, h + 2) == LineEnd(t, h + 3) == LineEnd(t, h + 4);
  }

  lemma {:induction false} ParsedShift(pre: string, rest: string, i: nat)
    requires i <= |rest| && (pre == "" || EndsLine(pre[|pre| - 1]))
    ensures Parsed(pre + rest, |pre| + i) == Parsed(rest, i)
    decreases |rest| - i
  {
    hide HeadingAt, NextHeading, SectionAt;
    NextHeadingShift(pre, rest, i);
    var h := NextHeading(rest, i);
    if h < |rest| {
      SectionShift(pre, rest, h);
      ParsedShift(pre, rest, SectionAt(rest, h).next);
    }
  }

  // ----- round trip -----

  /** Text from one heading on: the heading, two newlines, `raw`, two newlines, `rest`. */
  function Block(name: string, raw: string, rest: string): string {
    "## " + name + "\n\n" + raw + "\n\n" + rest
  }

  lemma NameLine(name: string, tail: string)
    requires ValidName(name)
    ensures var t := "## " + name + "\n" + tail;
      HeadingAt(t, 0) && LineEnd(t, 0) == |name| + 3 && Trim(t[2..|name| + 3]) == name
  {
    var t := "## " + name + "\n" + tail;
    assert t[3] == name[0];
    assert forall i :: 3 <= i < |name| + 3 ==> t[i] == name[i - 3];
    assert t[|name| + 3] == '\n';
    LineEndIsIt(t, 0, |name| + 3);
    assert t[2..|name| + 3] == " " + name + "";
    TrimCore(" ", name, "");
  }

  /** A heading of the whole text that lies in `raw` is a heading of `raw`. */
  lemma NoHeadingInside(pre: string, raw: string, rest: string, i: nat)
    requires |pre| > 0 && pre[|pre| - 1] == '\n' && NoHeading(raw)
    requires |pre| - 2 <= i < |pre| + |raw| + 2 && |pre| >= 2 && pre[|pre| - 2] == '\n'
    ensures !HeadingAt(pre + raw + "\n\n" + rest, i)
  {
    var t := pre + raw + "\n\n" + rest;
    if |pre| <= i < |pre| + |raw| {
      var q := i - |pre|;
      assert t[i] == raw[q];
      assert q + 1 < |raw| ==> t[i + 1] == raw[q + 1];
      assert q + 1 == |raw| ==> t[i + 1] == '\n';
      assert q + 2 < |raw| ==> t[i + 2] == raw[q + 2];
      assert q + 2 == |raw| ==> t[i + 2] == '\n';
      assert q + 3 < |raw| ==> t[i + 3] == raw[q + 3];
      assert q + 3 == |raw| ==> t[i + 3] == '\n';
      assert q > 0 ==> t[i - 1] == raw[q - 1];
      assert !HeadingAt(raw, q);
    } else {
      assert t[i] == '\n';
    }
  }

  lemma BlockTexts(name: string, raw: string, rest: string)
    ensures var t := Block(name, raw, rest); var n := |name| + |raw| + 7;
      && t == "## " + name + "\n" + ("\n" + raw + "\n\n" + rest)
      && |t| == n + |rest| && t[|name| + 3..n] == "\n\n" + raw + "\n\n"
  {
  }

  lemma SectionFrom(t: string, e: nat, n: nat)
    requires t != "" && HeadingAt(t, 0) && LineEnd(t, 0) == e && 2 <= e <= n <= |t| && NextHeading(t, e) == n
    ensures SectionAt(t, 0) == Section(Trim(t[2..e]), Trim(t[e..n]), n)
  {
    hide HeadingAt, LineEnd, NextHeading, Trim;
  }

  /** Where the heading of a block and its text end. */
  lemma BlockSection(name: string, raw: string, rest: string)
    requires ValidName(name) && NoHeading(raw) && HeadingAt(rest, 0)
    ensures var t := Block(name, raw, rest);
      HeadingAt(t, 0) && SectionAt(t, 0) == Section(name, Trim(raw), |name| + |raw| + 7)
  {
    hide *;
    var t := Block(name, raw, rest);
    var n := |name| + |raw| + 7;
    BlockTexts(name, raw, rest);
    NameLine(name, "\n" + raw + "\n\n" + rest);
    QuietBlock(name, raw, rest);
    var pre := BlockSplits(name, raw, rest);
    HeadingShift(pre, rest, 0);
    HeadingIsIt(t, |name| + 3, n);
    SectionFrom(t, |name| + 3, n);
    TrimSurround(raw);
  }

  lemma BlockSplits(name: string, raw: string, rest: string) returns (pre: string)
    ensures Block(name, raw, rest) == pre + rest && |pre| == |name| + |raw| + 7 && EndsLine(pre[|pre| - 1])
  {
    pre := "## " + name + "\n\n" + raw + "\n\n";
  }

  lemma FirstSection(t: string)
    requires t != "" && HeadingAt(t, 0)
    ensures Parsed(t, 0) == map[SectionAt(t, 0).name := SectionAt(t, 0).content] + Parsed(t, SectionAt(t, 0).next)
  {
    HeadingIsIt(t, 0, 0);
    hide HeadingAt, NextHeading, SectionAt;
  }

  /** One block is read as its heading with the trimmed raw text, then the rest is read. */
  lemma BlockParsed(name: string, raw: string, rest: string)
    requires ValidName(name) && NoHeading(raw) && HeadingAt(rest, 0)
    ensures Parsed(Block(name, raw, rest), 0) == map[name := Trim(raw)] + Parsed(rest, 0)
  {
    hide *;
    BlockSection(name, raw, rest);
    var t := Block(name, raw, rest);
    var pre := BlockSplits(name, raw, rest);
    assert |t| == |pre| + |rest|;
    FirstSection(t);
    ParsedShift(pre, rest, 0);
  }

  lemma TrimSurround(raw: string)
    ensures Trim("\n\n" + raw + "\n\n") == Trim(raw)
  {
    var a, b := TrimSplits(raw);
    assert AllSpace("\n\n");
    AllSpaceAppend("\n\n", a);
    AllSpaceAppend(b, "\n\n");
    TrimCore("\n\n" + a, Trim(raw), b + "\n\n");
    assert "\n\n" + raw + "\n\n" == "\n\n" + a + Trim(raw) + (b + "\n\n");
  }

  lemma LastQuiet(name: string, c: string, j: nat)
    requires ValidName(name) && NoHeading(c) && |name| + 3 <= j < |Last(name, c)|
    ensures !HeadingAt(Last(name, c), j)
  {
    var t := Last(name, c);
    if c == "" {
      assert t[j] == '\n';
    } else {
      var head := "## " + name + "\n\n";
      NoHeadingInside(head, c, "", j);
      var u := head + c + "\n\n" + "";
      assert !HeadingAt(u, j);
      assert u == t + "\n";
      LastNewline(t, j);
    }
  }

  lemma LastSection(name: string, c: string)
    requires ValidName(name) && NoHeading(c) && Trimmed(c)
    ensures HeadingAt(Last(name, c), 0)
    ensures SectionAt(Last(name, c), 0) == Section(name, c, |Last(name, c)|)
  {
    var t := Last(name, c);
    var tail := if c == "" then "" else "\n" + c + "\n";
    assert t == "## " + name + "\n" + tail;
    NameLine(name, tail);
    forall j | |name| + 3 <= j < |t|
      ensures !HeadingAt(t, j)
    {
      LastQuiet(name, c, j);
    }
    HeadingIsIt(t, |name| + 3, |t|);
    if c == "" {
      assert t[|name| + 3..|t|] == "\n";
    } else {
      assert t == "## " + name + ("\n\n" + c + "\n");
      assert t[|name| + 3..|t|] == "\n\n" + c + "\n";
    }
    LastTrim(c);
    hide HeadingAt, NextHeading, LineEnd, Trim;
  }

  lemma LastTrim(c: string)
    requires Trimmed(c)
    ensures Trim(if c == "" then "\n" else "\n\n" + c + "\n") == c
  {
    assert AllSpace("\n") && AllSpace("\n\n");
    if c == "" {
      AllSpaceTrims("\n");
    } else {
      TrimCore("\n\n", c, "\n");
    }
  }

  /** The last block ends with the text. */
  lemma LastParsed(name: string, c: string)
    requires ValidName(name) && NoHeading(c) && Trimmed(c)
    ensures Parsed(Last(name, c), 0) == map[name := c]
  {
    var t := Last(name, c);
    LastSection(name, c);
    HeadingIsIt(t, 0, 0);
    HeadingIsIt(t, |t|, |t|);
    assert map[name := c] + map[] == map[name := c];
    hide HeadingAt, NextHeading, SectionAt, Last;
  }

  lemma LastNewline(t: string, j: nat)
    ensures HeadingAt(t, j) ==> HeadingAt(t + "\n", j)
  {
    if HeadingAt(t, j) {
      var u := t + "\n";
      assert u[j] == t[j] && u[j + 1] == t[j + 1] && u[j + 2] == t[j + 2] && u[j + 3] == t[j + 3];
      assert j > 0 ==> u[j - 1] == t[j - 1];
    }
  }

  /** The canonical form of the last block. */
  function Last(name: string, c: string): string {
    if c == "" then "## " + name + "\n" else "## " + name + "\n\n" + c + "\n"
  }

  /** What Serialize prints, from its last block back to its first. */
  function Printed(names: seq<string>, sections: seq<string>): string
    requires |names| == |sections| > 0
  {
    if |names| == 1 then Last(names[0], sections[0])
    else Block(names[0], sections[0], Printed(names[1..], sections[1..]))
  }

  lemma PrintedStarts(names: seq<string>, sections: seq<string>)
    requires |names| == |sections| > 0 && ValidNames(names)
    ensures HeadingAt(Printed(names, sections), 0)
  {
    var tail := FirstLine(names, sections);
    NameLine(names[0], tail);
  }

  lemma TailNames(names: seq<string>)
    requires ValidNames(names) && |names| > 1
    ensures ValidNames(names[1..])
  {
  }

  /** The map of a printed text with no inner headings is exactly its sections. */
  lemma {:induction false} PrintedParsed(names: seq<string>, sections: seq<string>)
    requires |names| == |sections| && ValidNames(names) && Clean(sections) && NoHeadings(sections)
    ensures var m := Parsed(Printed(names, sections), 0);
      (forall x :: x in m <==> x in names) && (forall k :: 0 <= k < |names| ==> m[names[k]] == sections[k])
  {
    if |names| == 1 {
      LastParsed(names[0], sections[0]);
    } else {
      TailNames(names);
      PrintedParsed(names[1..], sections[1..]);
      PrintedStarts(names[1..], sections[1..]);
      var rest := Printed(names[1..], sections[1..]);
      BlockParsed(names[0], sections[0], rest);
      TrimmedStays(sections[0]);
      var m := map[names[0] := sections[0]] + Parsed(rest, 0);
      assert names[0] !in names[1..];
      forall k | 0 <= k < |names|
        ensures names[k] in m && m[names[k]] == sections[k]
      {
        if k > 0 {
          assert names[k] == names[1..][k - 1] && sections[k] == sections[1..][k - 1];
        }
      }
      assert forall x :: x in names <==> x == names[0] || x in names[1..];
    }
  }

  // ----- printing, and the round trip -----

  lemma {:induction false} BlocksArePrinted(names: seq<string>, sections: seq<string>)
    requires |names| == |sections| > 0 && ValidNames(names) && Clean(sections)
    ensures !Has(Blocks(names, sections), '\r')
    ensures CanonicalText(Blocks(names, sections)) == Printed(names, sections)
  {
    hide IsSpace, Newlines, DropNewlines;
    TrimmedStays(sections[0]);
    var block := "## " + names[0] + "\n\n" + sections[0];
    assert ValidName(names[0]);
    assert !Has(block, '\r');
    if |names| == 1 {
      LastBlock(names[0], sections[0]);
    } else {
      TailNames(names);
      BlocksArePrinted(names[1..], sections[1..]);
      var rest := Blocks(names[1..], sections[1..]);
      NoReturn(block + "\n\n", rest);
      CanonicalOfTail(block + "\n\n", rest);
    }
  }

  lemma NoReturn(a: string, b: string)
    requires !Has(a, '\r') && !Has(b, '\r')
    ensures !Has(a + b, '\r')
  {
  }

  lemma LastBlock(name: string, c: string)
    requires ValidName(name) && Trimmed(c) && !Has(c, '\r')
    ensures CanonicalText("## " + name + "\n\n" + c) == Last(name, c)
  {
    var block := "## " + name + "\n\n" + c;
    assert !Has(block, '\r');
    if c == "" {
      var line := "## " + name;
      assert block == line + "\n\n";
      assert line[|line| - 1] == name[|name| - 1];
      assert block[..|block| - 1] == line + "\n" && (line + "\n")[..|line| + 1 - 1] == line;
      assert DropNewlines(block) == DropNewlines(line + "\n") == DropNewlines(line) == line;
    } else {
      assert block[|block| - 1] == c[|c| - 1];
      CanonicalAppends(block);
    }
  }

  /** canonicalText looks at the end of a text that holds something else than newlines. */
  lemma {:induction false} CanonicalOfTail(pre: string, rest: string)
    requires !Has(pre, '\r') && !Has(rest, '\r') && |CanonicalText(rest)| > 1
    ensures CanonicalText(pre + rest) == pre + CanonicalText(rest)
  {
    NoReturn(pre, rest);
    DropOfTail(pre, rest);
  }

  lemma {:induction false} DropOfTail(pre: string, rest: string)
    requires DropNewlines(rest) != ""
    ensures DropNewlines(pre + rest) == pre + DropNewlines(rest)
    decreases |rest|
  {
    if rest[|rest| - 1] == '\n' {
      assert (pre + rest)[..|pre + rest| - 1] == pre + rest[..|rest| - 1];
      DropOfTail(pre, rest[..|rest| - 1]);
    } else {
      assert (pre + rest)[|pre + rest| - 1] == rest[|rest| - 1];
    }
  }

  lemma SerializeIsPrinted(names: seq<string>, sections: seq<string>)
    requires |names| == |sections| && ValidNames(names) && Clean(sections)
    ensures Serialize(names, sections) == Printed(names, sections)
    ensures CanonicalText(Serialize(names, sections)) == Printed(names, sections)
  {
    BlocksArePrinted(names, sections);
    CanonicalIdempotent(Blocks(names, sections));
  }

  /** Trimmed, CR-free sections without a heading line are read back as they were printed. */
  lemma RoundTrip(names: seq<string>, sections: seq<string>)
    requires |names| == |sections| && ValidNames(names) && Clean(sections) && NoHeadings(sections)
    ensures Parse(names, Serialize(names, sections)) == Some(sections)
  {
    hide *;
    SerializeIsPrinted(names, sections);
    PrintedParsed(names, sections);
    ParsedAll(names, Serialize(names, sections), sections);
  }

  lemma ParsedAll(names: seq<string>, body: string, sections: seq<string>)
    requires |names| == |sections|
    requires var m := Parsed(CanonicalText(body), 0);
      forall k :: 0 <= k < |names| ==> names[k] in names && (names[k] in m) && m[names[k]] == sections[k]
    ensures Parse(names, body) == Some(sections)
  {
    hide Parsed, CanonicalText;
    var r := Parse(names, body);
    assert r.Some? && r.value == sections;
  }

  // ----- exactly when sections survive -----

  lemma TrimShort(s: string, keep: nat)
    requires keep <= |s| && AllSpace(s[keep..])
    ensures |Trim(s)| <= keep
  {
    var a, b := TrimSplits(s[..keep]);
    assert s == s[..keep] + s[keep..];
    TrimAppend(s[..keep], s[keep..]);
  }

  lemma ParsedFrom(t: string, i: nat)
    requires i <= |t|
    ensures var h := NextHeading(t, i);
      && (h == |t| ==> Parsed(t, i) == map[])
      && (h < |t| ==> h < SectionAt(t, h).next
                      && Parsed(t, i) == map[SectionAt(t, h).name := SectionAt(t, h).content] + Parsed(t, SectionAt(t, h).next))
      && Parsed(t, h) == Parsed(t, i)
  {
    NextHeadingStays(t, i);
  }

  /** The sections below a heading at `k` are read the same from any point before it. */
  lemma {:induction false} LaterWins(t: string, i: nat, k: nat)
    requires i <= k < |t| && HeadingAt(t, k)
    ensures forall x :: x in Parsed(t, k) ==> x in Parsed(t, i) && Parsed(t, i)[x] == Parsed(t, k)[x]
    decreases k - i
  {
    hide *;
    ParsedFrom(t, i);
    FirstFrom(t, i, k);
    var h := NextHeading(t, i);
    if h < k {
      NextByThen(t, h, k);
      LaterWins(t, SectionAt(t, h).next, k);
    }
  }

  lemma {:induction false} FirstFrom(t: string, i: nat, k: nat)
    requires i <= k < |t| && HeadingAt(t, k)
    ensures NextHeading(t, i) <= k
    decreases k - i
  {
    hide HeadingAt;
    if i < k && !HeadingAt(t, i) {
      FirstFrom(t, i + 1, k);
    }
  }

  lemma {:induction false} LineEndBy(t: string, i: nat, j: nat)
    requires i <= j < |t| && EndsLine(t[j])
    ensures LineEnd(t, i) <= j
    decreases j - i
  {
    if i < j && !EndsLine(t[i]) {
      LineEndBy(t, i + 1, j);
    }
  }

  /** A later heading bounds the section of an earlier one. */
  lemma NextByThen(t: string, h: nat, k: nat)
    requires h < k < |t| && HeadingAt(t, h) && HeadingAt(t, k)
    ensures SectionAt(t, h).next <= k
  {
    LineEndBy(t, h, k - 1);
    HeadingIsLong(t, h);
    FirstFrom(t, LineEnd(t, h), k);
  }

  /** No section read from the stretch up to `k` is longer than the stretch without
      its heading line and the space at its end. */
  lemma {:induction false} InnerShort(t: string, i: nat, end: nat, k: nat, x: string)
    requires i <= end <= k <= |t| && AllSpace(t[end..k]) && (k < |t| ==> HeadingAt(t, k))
    requires x !in Parsed(t, k) && x in Parsed(t, i)
    ensures |Parsed(t, i)[x]| + 4 <= end - i || Parsed(t, i)[x] == ""
    decreases k - i
  {
    hide *;
    ParsedFrom(t, i);
    ParsedFrom(t, k);
    var h := NextHeading(t, i);
    if k < |t| {
      FirstFrom(t, i, k);
    }
    if h < k {
      var s := SectionAt(t, h);
      if k < |t| {
        NextByThen(t, h, k);
      }
      OnlySpaceLeft(t, h, end, k);
      SectionShort(t, h, end, k);
      if x in Parsed(t, s.next) {
        assert s.next < k;
        InnerShort(t, s.next, end, k, x);
      }
    }
  }

  /** One section of the stretch: its text is short, and the next one starts within the stretch. */
  lemma SectionShort(t: string, h: nat, end: nat, k: nat)
    requires h < |t| && HeadingAt(t, h) && h < end <= k <= |t| && AllSpace(t[end..k]) && SectionAt(t, h).next <= k
    ensures var s := SectionAt(t, h);
      && (|s.content| + 4 <= end - h || s.content == "")
      && (s.next < k ==> s.next <= end)
  {
    HeadingIsLong(t, h);
    var e := LineEnd(t, h);
    var n := NextHeading(t, e);
    if n == k {
      StretchShort(t, e, end, k);
    } else {
      OnlySpaceLeft(t, n, end, k);
      TrimShort(t[e..n], n - e);
    }
    hide HeadingAt, LineEnd, NextHeading, Trim;
  }

  lemma StretchShort(t: string, e: nat, end: nat, k: nat)
    requires e <= k <= |t| && end <= k && AllSpace(t[end..k])
    ensures |Trim(t[e..k])| <= if e <= end then end - e else 0
  {
    var keep := if e <= end then end - e else 0;
    assert forall j :: 0 <= j < |t[e..k]| - keep ==> t[e..k][keep..][j] == t[end..k][e + keep - end + j];
    TrimShort(t[e..k], keep);
  }

  /** A heading does not start with space, so none lies in the gap. */
  lemma OnlySpaceLeft(t: string, n: nat, end: nat, k: nat)
    requires n < k <= |t| && end <= k && AllSpace(t[end..k]) && HeadingAt(t, n)
    ensures n < end
  {
    forall m | end <= m < k
      ensures IsSpace(t[m])
    {
      assert t[m] == t[end..k][m - end];
    }
  }

  /** A heading of `raw` is a heading of the whole text. */
  lemma HeadingInsideText(head: string, raw: string, tail: string, q: nat)
    requires HeadingAt(raw, q) && head != "" && head[|head| - 1] == '\n'
    ensures HeadingAt(head + raw + tail, |head| + q)
  {
    var t := head + raw + tail;
    assert t[|head| + q] == raw[q] && t[|head| + q + 1] == raw[q + 1] && t[|head| + q + 2] == raw[q + 2];
    assert t[|head| + q + 3] == raw[q + 3];
    assert t[|head| + q - 1] == if q == 0 then '\n' else raw[q - 1];
  }

  /** `end` is where the text of the first heading ends and `k` where the next printed heading is. */
  lemma CutSection(t: string, name: string, size: nat, end: nat, k: nat)
    requires t != "" && HeadingAt(t, 0) && size <= end <= k <= |t| && AllSpace(t[end..k]) && (k < |t| ==> HeadingAt(t, k))
    requires var s := SectionAt(t, 0); end - size <= s.next <= end && |s.content| < size
    requires name !in Parsed(t, k) && name in Parsed(t, 0)
    ensures |Parsed(t, 0)[name]| < size
  {
    hide *;
    FirstSection(t);
    var s := SectionAt(t, 0);
    if name in Parsed(t, s.next) {
      InnerShort(t, s.next, end, k, name);
    }
  }

  lemma GapFacts(head: string, c: string, gap: string)
    requires gap == "\n" || gap == "\n\n"
    ensures var pre := head + c + gap;
      pre != "" && EndsLine(pre[|pre| - 1]) && AllSpace(gap) && |pre| == |head| + |c| + |gap|
  {
  }

  lemma StretchIs(head: string, c: string, gap: string, rest: string)
    ensures var t := head + c + gap + rest;
      && t == (head + c + gap) + rest && t == head + c + (gap + rest)
      && t[|head| + |c|..|head| + |c| + |gap|] == gap
  {
    var t := head + c + gap + rest;
    assert t == (head + c) + (gap + rest);
  }

  /** A text with a heading line in it comes back shorter. */
  lemma HeadingCutsSection(name: string, c: string, gap: string, rest: string, q: nat)
    requires ValidName(name) && HeadingAt(c, q) && (gap == "\n" || gap == "\n\n")
    requires rest == "" || HeadingAt(rest, 0)
    requires name !in Parsed(rest, 0)
    ensures var t := "## " + name + "\n\n" + c + gap + rest;
      name in Parsed(t, 0) ==> |Parsed(t, 0)[name]| < |c|
  {
    hide *;
    var head := "## " + name + "\n\n";
    var pre := head + c + gap;
    var t := head + c + gap + rest;
    var end := |head| + |c|;
    GapFacts(head, c, gap);
    StretchIs(head, c, gap, rest);
    ParsedShift(pre, rest, 0);
    HeadingShift(pre, rest, 0);
    FirstCut(name, c, gap + rest, q);
    if name in Parsed(t, 0) {
      CutSection(t, name, |c|, end, end + |gap|);
    }
  }

  lemma FirstCut(name: string, c: string, tail: string, q: nat)
    requires ValidName(name) && HeadingAt(c, q)
    ensures var t := "## " + name + "\n\n" + c + tail;
      && NextHeading(t, 0) == 0 && HeadingAt(t, 0)
      && |name| + 5 <= SectionAt(t, 0).next <= |name| + 5 + q
      && |SectionAt(t, 0).content| <= q && q + 4 <= |c| && |t| > 0
  {
    var head := "## " + name + "\n\n";
    var t := head + c + tail;
    HeadingInsideText(head, c, tail, q);
    assert t == "## " + name + "\n" + ("\n" + c + tail);
    NameLine(name, "\n" + c + tail);
    HeadingIsIt(t, 0, 0);
    var e := |name| + 3;
    FirstFrom(t, e, |head| + q);
    var n := NextHeading(t, e);
    assert n >= |head| by {
      assert t[e] == '\n' && t[e + 1] == '\n';
    }
    var body := t[e..n];
    assert body == "\n\n" + body[2..] && |body[2..]| <= q;
    LeadingNewlines(body[2..]);
  }

  lemma LeadingNewlines(s: string)
    ensures |Trim("\n\n" + s)| <= |s|
  {
    var a, b := TrimSplits(s);
    assert AllSpace("\n\n");
    AllSpaceAppend("\n\n", a);
    TrimCore("\n\n" + a, Trim(s), b);
    assert "\n\n" + s == "\n\n" + a + Trim(s) + b;
  }

  /** The first block of a printed text, and the rest. */
  lemma PrintedSplits(names: seq<string>, sections: seq<string>) returns (pre: string)
    requires |names| == |sections| > 1 && ValidNames(names)
    ensures var t := Printed(names, sections); var rest := Printed(names[1..], sections[1..]);
      && t == pre + rest && pre != "" && |pre| < |t| && HeadingAt(t, |pre|)
      && Parsed(t, |pre|) == Parsed(rest, 0)
  {
    hide *;
    var rest := Printed(names[1..], sections[1..]);
    PrintedIsBlock(names, sections);
    TailNames(names);
    PrintedStarts(names[1..], sections[1..]);
    pre := BlockSplits(names[0], sections[0], rest);
    HeadingShift(pre, rest, 0);
    ParsedShift(pre, rest, 0);
    HeadingInside(rest, 0);
  }

  lemma PrintedIsBlock(names: seq<string>, sections: seq<string>)
    requires |names| == |sections| > 1
    ensures Printed(names, sections) == Block(names[0], sections[0], Printed(names[1..], sections[1..]))
  {
  }

  /** A printed text opens with the line of its first heading. */
  lemma FirstLine(names: seq<string>, sections: seq<string>) returns (tail: string)
    requires |names| == |sections| > 0
    ensures Printed(names, sections) == "## " + names[0] + "\n" + tail
  {
    tail := if |names| == 1 then (if sections[0] == "" then "" else "\n" + sections[0] + "\n")
            else "\n" + sections[0] + "\n\n" + Printed(names[1..], sections[1..]);
  }

  lemma NameOfFirst(names: seq<string>, sections: seq<string>)
    requires |names| == |sections| > 0 && ValidNames(names)
    ensures var t := Printed(names, sections); t != "" && HeadingAt(t, 0) && SectionAt(t, 0).name == names[0]
  {
    assert ValidName(names[0]);
    var tail := FirstLine(names, sections);
    hide Printed, HeadingAt, LineEnd, ValidName, Trim, NextHeading;
    NameLine(names[0], tail);
  }

  /** Every name is read from the printed text, whatever the sections hold. */
  lemma {:induction false} NamesPresent(names: seq<string>, sections: seq<string>)
    requires |names| == |sections| && ValidNames(names)
    ensures forall k :: 0 <= k < |names| ==> names[k] in Parsed(Printed(names, sections), 0)
  {
    var t := Printed(names, sections);
    NameOfFirst(names, sections);
    if |names| > 1 {
      TailNames(names);
      NamesPresent(names[1..], sections[1..]);
      var pre := PrintedSplits(names, sections);
      hide *;
      FirstSection(t);
      LaterWins(t, 0, |pre|);
      forall k | 0 <= k < |names|
        ensures names[k] in Parsed(t, 0)
      {
        if k > 0 {
          assert names[k] == names[1..][k - 1];
        }
      }
    } else {
      hide *;
      FirstSection(t);
    }
  }

  lemma TailSurvives(names: seq<string>, sections: seq<string>)
    requires |names| == |sections| > 1 && ValidNames(names)
    requires var m := Parsed(Printed(names, sections), 0);
      forall k :: 0 <= k < |names| ==> names[k] in m && m[names[k]] == sections[k]
    ensures var m := Parsed(Printed(names[1..], sections[1..]), 0);
      forall k :: 0 <= k < |names[1..]| ==> names[1..][k] in m && m[names[1..][k]] == sections[1..][k]
  {
    TailNames(names);
    NamesPresent(names[1..], sections[1..]);
    var pre := PrintedSplits(names, sections);
    hide *;
    LaterWins(Printed(names, sections), 0, |pre|);
    forall k | 0 <= k < |names[1..]|
      ensures Parsed(Printed(names[1..], sections[1..]), 0)[names[1..][k]] == sections[1..][k]
    {
      assert names[1..][k] == names[k + 1];
    }
  }

  /** If every section of a printed text comes back, none holds a heading line. */
  lemma {:induction false} SurvivorsHoldNoHeading(names: seq<string>, sections: seq<string>)
    requires |names| == |sections| && ValidNames(names) && Clean(sections)
    requires var m := Parsed(Printed(names, sections), 0);
      forall k :: 0 <= k < |names| ==> names[k] in m && m[names[k]] == sections[k]
    ensures NoHeadings(sections)
  {
    if |names| == 1 {
      LastSurvives(names[0], sections[0]);
    } else {
      TailNames(names);
      TailSurvives(names, sections);
      SurvivorsHoldNoHeading(names[1..], sections[1..]);
      FirstSurvives(names, sections);
      assert forall k :: 0 < k < |sections| ==> sections[k] == sections[1..][k - 1];
    }
  }

  lemma LastSurvives(name: string, c: string)
    requires ValidName(name) && name in Parsed(Last(name, c), 0) && Parsed(Last(name, c), 0)[name] == c
    ensures NoHeading(c)
  {
    forall q | 0 <= q < |c|
      ensures !HeadingAt(c, q)
    {
      if HeadingAt(c, q) {
        assert Last(name, c) == "## " + name + "\n\n" + c + "\n" + "";
        HeadingCutsSection(name, c, "\n", "", q);
      }
    }
  }

  lemma FirstSurvives(names: seq<string>, sections: seq<string>)
    requires |names| == |sections| > 1 && ValidNames(names) && Clean(sections) && NoHeadings(sections[1..])
    requires var m := Parsed(Printed(names, sections), 0); names[0] in m && m[names[0]] == sections[0]
    ensures NoHeading(sections[0])
  {
    var rest := Printed(names[1..], sections[1..]);
    var c := sections[0];
    assert Printed(names, sections) == "## " + names[0] + "\n\n" + c + "\n\n" + rest;
    TailNames(names);
    PrintedStarts(names[1..], sections[1..]);
    PrintedParsed(names[1..], sections[1..]);
    assert names[0] !in names[1..] && ValidName(names[0]);
    hide Parsed, Printed, HeadingAt, ValidName, ValidNames, Clean;
    forall q | 0 <= q < |c|
      ensures !HeadingAt(c, q)
    {
      if HeadingAt(c, q) {
        HeadingCutsSection(names[0], c, "\n\n", rest, q);
      }
    }
  }

  /** Trimmed, CR-free sections come back from their printed text exactly when no
      section holds a heading line. */
  lemma RoundTripExact(names: seq<string>, sections: seq<string>)
    requires |names| == |sections| && ValidNames(names) && Clean(sections)
    ensures Parse(names, Serialize(names, sections)) == Some(sections) <==> NoHeadings(sections)
  {
    if NoHeadings(sections) {
      RoundTrip(names, sections);
    }
    if Parse(names, Serialize(names, sections)) == Some(sections) {
      SerializeIsPrinted(names, sections);
      Values(names, Serialize(names, sections), sections);
      SurvivorsHoldNoHeading(names, sections);
    }
  }

  lemma Values(names: seq<string>, body: string, sections: seq<string>)
    requires Parse(names, body) == Some(sections)
    ensures |sections| == |names|
    ensures var m := Parsed(CanonicalText(body), 0);
      forall k :: 0 <= k < |names| ==> names[k] in m && m[names[k]] == sections[k]
  {
  }

  // ----- bodies -----

  lemma {:induction false} ParsedIsClean(t: string, i: nat)
    requires i <= |t| && !Has(t, '\r')
    ensures forall x :: x in Parsed(t, i) ==> Trimmed(Parsed(t, i)[x]) && !Has(Parsed(t, i)[x], '\r')
    decreases |t| - i
  {
    var h := NextHeading(t, i);
    if h < |t| {
      SectionIsClean(t, h);
      hide *;
      ParsedFrom(t, i);
      ParsedIsClean(t, SectionAt(t, h).next);
    }
  }

  lemma PieceIsClean(t: string, from: nat, to: nat)
    requires from <= to <= |t| && !Has(t, '\r')
    ensures Trimmed(Trim(t[from..to])) && !Has(Trim(t[from..to]), '\r')
  {
    var raw := t[from..to];
    var a, b := TrimSplits(raw);
    hide Trim, IsSpace;
    assert forall i :: 0 <= i < |Trim(raw)| ==> Trim(raw)[i] == raw[|a| + i] == t[from + |a| + i];
  }

  lemma SectionIsClean(t: string, h: nat)
    requires h < |t| && HeadingAt(t, h) && !Has(t, '\r')
    ensures Trimmed(SectionAt(t, h).content) && !Has(SectionAt(t, h).content, '\r')
  {
    HeadingIsLong(t, h);
    hide HeadingAt, LineEnd, NextHeading, Trim, Trimmed, Has;
    PieceIsClean(t, LineEnd(t, h), NextHeading(t, LineEnd(t, h)));
  }

  /** What is read from any body is trimmed and free of CR. */
  lemma ParseIsClean(names: seq<string>, body: string)
    requires Parse(names, body).Some?
    ensures Clean(Parse(names, body).value)
  {
    ParsedIsClean(CanonicalText(body), 0);
    Values(names, body, Parse(names, body).value);
    hide Parsed, CanonicalText, Trimmed;
  }

  /** Printing what was read gives a body that is read the same, and printing that
      again changes nothing, exactly when the sections that were read hold no heading. */
  lemma SerializeAfterParse(names: seq<string>, body: string)
    requires ValidNames(names) && Parse(names, body).Some?
    ensures var sections := Parse(names, body).value; var printed := Serialize(names, sections);
      && (Parse(names, printed) == Some(sections) <==> NoHeadings(sections))
      && (NoHeadings(sections) ==> Serialize(names, Parse(names, printed).value) == printed)
  {
    ParseIsClean(names, body);
    RoundTripExact(names, Parse(names, body).value);
    hide *;
  }

  // ----- exactly when a printed body is in normal form -----

  function HeadingsFrom(t: string, i: nat): nat
    requires i <= |t|
    decreases |t| - i
  {
    if i == |t| then 0 else (if HeadingAt(t, i) then 1 else 0) + HeadingsFrom(t, i + 1)
  }

  lemma {:induction false} HeadingsShift(pre: string, rest: string, i: nat)
    requires i <= |rest| && (pre == "" || EndsLine(pre[|pre| - 1]))
    ensures HeadingsFrom(pre + rest, |pre| + i) == HeadingsFrom(rest, i)
    decreases |rest| - i
  {
    hide HeadingAt;
    HeadingShift(pre, rest, i);
    if i < |rest| {
      HeadingsShift(pre, rest, i + 1);
    }
  }

  lemma {:induction false} HeadingsBetween(t: string, i: nat, j: nat)
    requires i <= j <= |t|
    ensures HeadingsFrom(t, i) >= HeadingsFrom(t, j)
    ensures (forall k :: i <= k < j ==> !HeadingAt(t, k)) ==> HeadingsFrom(t, i) == HeadingsFrom(t, j)
    ensures i < j && HeadingAt(t, i) ==> HeadingsFrom(t, i) > HeadingsFrom(t, j)
    decreases j - i
  {
    hide HeadingAt;
    if i < j {
      HeadingsBetween(t, i + 1, j);
    }
  }

  /** A block has one heading line of its own, and those of its text. */
  lemma BlockHeadings(name: string, raw: string, rest: string)
    requires ValidName(name) && HeadingAt(rest, 0)
    ensures HeadingsFrom(Block(name, raw, rest), 0) >= 1 + HeadingsFrom(rest, 0)
    ensures NoHeading(raw) ==> HeadingsFrom(Block(name, raw, rest), 0) == 1 + HeadingsFrom(rest, 0)
    ensures !NoHeading(raw) ==> HeadingsFrom(Block(name, raw, rest), 0) >= 2 + HeadingsFrom(rest, 0)
  {
    var t := Block(name, raw, rest);
    var head := "## " + name + "\n\n";
    var pre := BlockSplits(name, raw, rest);
    assert t == "## " + name + "\n" + ("\n" + raw + "\n\n" + rest);
    NameLine(name, "\n" + raw + "\n\n" + rest);
    HeadingsShift(pre, rest, 0);
    HeadingsBetween(t, 1, |pre|);
    assert t == head + raw + ("\n\n" + rest) && t == head + raw + "\n\n" + rest;
    if NoHeading(raw) {
      QuietBlock(name, raw, rest);
    } else {
      var q :| 0 <= q < |raw| && HeadingAt(raw, q);
      HeadingInsideText(head, raw, "\n\n" + rest, q);
      HeadingsBetween(t, 1, |head| + q);
      HeadingsBetween(t, |head| + q, |pre|);
    }
    hide HeadingAt, NoHeading, Block;
  }

  lemma QuietBlock(name: string, raw: string, rest: string)
    requires ValidName(name) && NoHeading(raw)
    ensures forall j :: 1 <= j < |name| + |raw| + 7 ==> !HeadingAt(Block(name, raw, rest), j)
  {
    var t := Block(name, raw, rest);
    var head := "## " + name + "\n\n";
    assert t == head + raw + "\n\n" + rest;
    forall j | 1 <= j < |name| + |raw| + 7
      ensures !HeadingAt(t, j)
    {
      if j <= |name| + 2 {
        InsideName(name, "\n" + raw + "\n\n" + rest, j);
        assert t == "## " + name + "\n" + ("\n" + raw + "\n\n" + rest);
      } else {
        NoHeadingInside(head, raw, rest, j);
      }
    }
  }

  /** No heading starts inside the heading line. */
  lemma InsideName(name: string, tail: string, j: nat)
    requires ValidName(name) && 1 <= j <= |name| + 2
    ensures !HeadingAt("## " + name + "\n" + tail, j)
  {
    var t := "## " + name + "\n" + tail;
    assert t[j - 1] == if j - 1 < 2 then '#' else if j - 1 == 2 then ' ' else name[j - 4];
  }

  lemma LastHeadings(name: string, c: string)
    requires ValidName(name)
    ensures HeadingsFrom(Last(name, c), 0) >= 1
    ensures NoHeading(c) ==> HeadingsFrom(Last(name, c), 0) == 1
    ensures !NoHeading(c) ==> HeadingsFrom(Last(name, c), 0) >= 2
  {
    var t := Last(name, c);
    var tail := if c == "" then "" else "\n" + c + "\n";
    assert t == "## " + name + "\n" + tail;
    NameLine(name, tail);
    HeadingsBetween(t, 1, |t|);
    if NoHeading(c) {
      forall j | 1 <= j < |t|
        ensures !HeadingAt(t, j)
      {
        if j <= |name| + 2 {
          InsideName(name, tail, j);
        } else {
          LastQuiet(name, c, j);
        }
      }
    } else {
      var q :| 0 <= q < |c| && HeadingAt(c, q);
      var head := "## " + name + "\n\n";
      assert t == head + c + "\n";
      HeadingInsideText(head, c, "\n", q);
      HeadingsBetween(t, 1, |head| + q);
      HeadingsBetween(t, |head| + q, |t|);
    }
    hide HeadingAt, NoHeading, Last;
  }

  /** A printed body has as many heading lines as names exactly when its sections hold none. */
  lemma {:induction false} PrintedHeadings(names: seq<string>, sections: seq<string>)
    requires |names| == |sections| && ValidNames(names)
    ensures HeadingsFrom(Printed(names, sections), 0) >= |names|
    ensures HeadingsFrom(Printed(names, sections), 0) == |names| <==> NoHeadings(sections)
  {
    assert ValidName(names[0]);
    if |names| == 1 {
      LastHeadings(names[0], sections[0]);
    } else {
      TailNames(names);
      PrintedHeadings(names[1..], sections[1..]);
      PrintedStarts(names[1..], sections[1..]);
      BlockHeadings(names[0], sections[0], Printed(names[1..], sections[1..]));
      assert NoHeadings(sections) <==> NoHeading(sections[0]) && NoHeadings(sections[1..]) by {
        hide NoHeading;
        assert forall k :: 0 < k < |sections| ==> sections[k] == sections[1..][k - 1];
      }
    }
    hide HeadingAt, NoHeading;
  }

  lemma ReadBack(names: seq<string>, sections: seq<string>)
    requires |names| == |sections| && ValidNames(names) && Clean(sections)
    ensures Parse(names, Serialize(names, sections)).Some?
  {
    SerializeIsPrinted(names, sections);
    NamesPresent(names, sections);
  }

  /** Reading a printed body and printing it again gives the same body exactly when no
      section that was printed holds a heading line. */
  lemma PrintedIsNormalExact(names: seq<string>, sections: seq<string>)
    requires |names| == |sections| && ValidNames(names) && Clean(sections)
    ensures var body := Serialize(names, sections);
      && Parse(names, body).Some?
      && (Serialize(names, Parse(names, body).value) == body <==> NoHeadings(sections))
  {
    hide *;
    ReadBack(names, sections);
    RoundTripExact(names, sections);
    var body := Serialize(names, sections);
    var read := Parse(names, body).value;
    ParseIsClean(names, body);
    if Serialize(names, read) == body {
      RoundTripExact(names, read);
      SerializeIsPrinted(names, sections);
      SerializeIsPrinted(names, read);
      PrintedHeadings(names, sections);
      PrintedHeadings(names, read);
    }
  }

  /** An indented heading as the first line of a section is text while it is
      indented; trimming makes it a heading, so the section does not survive. */
  lemma IndentedHeadingIsLost(names: seq<string>, sections: seq<string>) returns (body: string)
    requires |names| == |sections| > 1 && ValidNames(names) && Clean(sections) && NoHeadings(sections)
    ensures Parse(names, body).Some? && Parse(names, body).value == ["## Inner"] + sections[1..]
    ensures Parse(names, Serialize(names, Parse(names, body).value)) != Some(Parse(names, body).value)
  {
    var raw := "  ## Inner";
    var rest := Printed(names[1..], sections[1..]);
    var read := ["## Inner"] + sections[1..];
    body := Block(names[0], raw, rest);
    InnerFacts(raw);
    assert ValidName(names[0]) && ValidNames(names[1..]) && Clean(sections[1..]) && NoHeadings(sections[1..]);
    hide *;
    PrintedStarts(names[1..], sections[1..]);
    BlockParsed(names[0], raw, rest);
    PrintedParsed(names[1..], sections[1..]);
    BlockIsCanonical(names, sections, raw);
    InnerValues(names, sections, Parsed(rest, 0));
    ParsedAll(names, body, read);
    NotWithout(read);
    SerializeAfterParse(names, body);
  }

  lemma InnerText()
    ensures "  ## Inner" == "  " + "## Inner" + "" && AllSpace("  ") && AllSpace("") && Trimmed("## Inner")
    ensures !Has("  ## Inner", '\r')
  {
  }

  lemma InnerFacts(raw: string)
    requires raw == "  ## Inner"
    ensures NoHeading(raw) && !Has(raw, '\r') && Trim(raw) == "## Inner"
  {
    assert NoHeading(raw) by { hide IsSpace; }
    InnerText();
    hide *;
    TrimCore("  ", "## Inner", "");
  }

  lemma NotWithout(read: seq<string>)
    requires |read| > 0 && read[0] == "## Inner"
    ensures !NoHeadings(read)
  {
    assert HeadingAt("## Inner", 0);
    assert !NoHeading(read[0]);
  }

  lemma InnerValues(names: seq<string>, sections: seq<string>, rest: map<string, string>)
    requires |names| == |sections| > 1 && ValidNames(names)
    requires (forall x :: x in rest <==> x in names[1..]) && forall k :: 0 <= k < |names[1..]| ==> rest[names[1..][k]] == sections[1..][k]
    ensures var m := map[names[0] := "## Inner"] + rest; var read := ["## Inner"] + sections[1..];
      forall k :: 0 <= k < |names| ==> names[k] in names && names[k] in m && m[names[k]] == read[k]
  {
    assert names[0] !in names[1..];
    forall k | 0 < k < |names|
      ensures names[k] == names[1..][k - 1]
    {
    }
  }

  lemma BlockIsCanonical(names: seq<string>, sections: seq<string>, raw: string)
    requires |names| == |sections| > 1 && ValidNames(names) && Clean(sections) && !Has(raw, '\r')
    ensures CanonicalText(Block(names[0], raw, Printed(names[1..], sections[1..]))) == Block(names[0], raw, Printed(names[1..], sections[1..]))
  {
    assert ValidName(names[0]) && ValidNames(names[1..]) && Clean(sections[1..]);
    var rest := Printed(names[1..], sections[1..]);
    var pre := "## " + names[0] + "\n\n" + raw + "\n\n";
    assert !Has(pre, '\r');
    assert Block(names[0], raw, rest) == pre + rest;
    hide *;
    BlocksArePrinted(names[1..], sections[1..]);
    CanonicalIdempotent(Blocks(names[1..], sections[1..]));
    PrintedStarts(names[1..], sections[1..]);
    HeadingInside(rest, 0);
    HeadingFour(rest);
    CanonicalOfTail(pre, rest);
  }

  lemma HeadingFour(t: string)
    requires HeadingAt(t, 0)
    ensures |t| > 1
  {
  }

  // ----- the editor's own parser and printer -----

  /** All matches of the heading pattern, first to last. */
  function Matches(t: string, i: nat): seq<Section>
    requires i <= |t|
    decreases |t| - i
  {
    var h := NextHeading(t, i);
    if h == |t| then [] else [SectionAt(t, h)] + Matches(t, SectionAt(t, h).next)
  }

  /** The value that the last assignment to `parsed[name]` left behind. */
  function LastAssigned(matches: seq<Section>, name: string): Option<string> {
    if matches == [] then None
    else
      var later := LastAssigned(matches[1..], name);
      if later.Some? then later else if matches[0].name == name then Some(matches[0].content) else None
  }

  /** parseWorkspaceSections: an object takes the assignments in order; it throws when
      a requested name was never assigned. */
  function ParseWorkspace(names: seq<string>, body: string): Option<seq<string>> {
    var matches := Matches(CanonicalText(body), 0);
    if exists k :: 0 <= k < |names| && LastAssigned(matches, names[k]).None? then None
    else Some(seq(|names|, k requires 0 <= k < |names| =>
      var value := LastAssigned(matches, names[k]); if value.Some? then value.value else ""))
  }

  /** serializeWorkspaceSections: the blocks are mapped first and joined afterwards. */
  function WorkspaceBlocks(names: seq<string>, sections: seq<string>): seq<string>
    requires |names| == |sections|
  {
    seq(|names|, k requires 0 <= k < |names| => "## " + names[k] + "\n\n" + Trim(sections[k]))
  }

  function JoinBlocks(blocks: seq<string>): string {
    if blocks == [] then "" else if |blocks| == 1 then blocks[0] else blocks[0] + "\n\n" + JoinBlocks(blocks[1..])
  }

  function SerializeWorkspace(names: seq<string>, sections: seq<string>): string
    requires |names| == |sections|
  {
    CanonicalText(JoinBlocks(WorkspaceBlocks(names, sections)))
  }

  lemma {:induction false} LastAssignedIsParsed(t: string, i: nat, name: string)
    requires i <= |t|
    ensures LastAssigned(Matches(t, i), name) == if name in Parsed(t, i) then Some(Parsed(t, i)[name]) else None
    decreases |t| - i
  {
    var h := NextHeading(t, i);
    if h < |t| {
      hide HeadingAt, NextHeading, SectionAt;
      LastAssignedIsParsed(t, SectionAt(t, h).next, name);
      assert Matches(t, i)[1..] == Matches(t, SectionAt(t, h).next);
    }
  }

  lemma {:induction false} BlocksJoined(names: seq<string>, sections: seq<string>)
    requires |names| == |sections|
    ensures JoinBlocks(WorkspaceBlocks(names, sections)) == Blocks(names, sections)
  {
    hide Trim;
    if |names| > 1 {
      BlocksJoined(names[1..], sections[1..]);
      assert WorkspaceBlocks(names, sections)[1..] == WorkspaceBlocks(names[1..], sections[1..]);
    }
  }

  /** A name is found in the object that the editor fills exactly when it was assigned;
      the names that every object has from the start are none of the required ones. */
  lemma AgreesOnNames(names: seq<string>, body: string, sections: seq<string>)
    requires |names| == |sections|
    ensures ParseWorkspace(names, body) == Parse(names, body)
    ensures SerializeWorkspace(names, sections) == Serialize(names, sections)
  {
    BlocksJoined(names, sections);
    var t := CanonicalText(body);
    forall k | 0 <= k < |names|
      ensures LastAssigned(Matches(t, 0), names[k]) == if names[k] in Parsed(t, 0) then Some(Parsed(t, 0)[names[k]]) else None
    {
      LastAssignedIsParsed(t, 0, names[k]);
    }
    hide Matches, Parsed, LastAssigned, CanonicalText;
    if Parse(names, body).Some? {
      assert ParseWorkspace(names, body).value == Parse(names, body).value;
    }
  }

  // ----- the eleven sections -----

  const REQUIRED: seq<string> := [
    "The short answer",
    "When this guidance fits",
    "1 — See",
    "2 — Choose",
    "3 — Say",
    "If they respond with…",
    "4 — Sustain",
    "Two-minute practice",
    "I have my next move",
    "Field note",
    "Sources and next moves"]

  /** The characters the required names are written in. */
  predicate PlainChar(c: char) {
    'a' <= c <= 'z' || 'A' <= c <= 'Z' || '0' <= c <= '9' || c == ' ' || c == '-' || c == '—' || c == '…'
  }

  predicate PlainName(n: string) {
    n != "" && n[0] != ' ' && n[|n| - 1] != ' ' && forall i :: 0 <= i < |n| ==> PlainChar(n[i])
  }

  lemma PlainNameIsValid(n: string)
    requires PlainName(n)
    ensures ValidName(n)
  {
    assert PlainChar(n[0]) && PlainChar(n[|n| - 1]);
  }

  lemma FirstNamesArePlain()
    ensures forall k :: 0 <= k < 4 ==> PlainName(REQUIRED[k])
  {
    assert PlainName("The short answer");
    assert PlainName("When this guidance fits");
    assert PlainName("1 — See");
    assert PlainName("2 — Choose");
  }

  lemma MiddleNamesArePlain()
    ensures forall k :: 4 <= k < 8 ==> PlainName(REQUIRED[k])
  {
    assert PlainName("3 — Say");
    assert PlainName("If they respond with…");
    assert PlainName("4 — Sustain");
    assert PlainName("Two-minute practice");
  }

  lemma LastNamesArePlain()
    ensures forall k :: 8 <= k < 11 ==> PlainName(REQUIRED[k])
  {
    assert PlainName("I have my next move");
    assert PlainName("Field note");
    assert PlainName("Sources and next moves");
  }

  /** No two required names have the same length and the same first letter. */
  lemma RequiredNamesDiffer()
    ensures forall k, m :: 0 <= k < m < |REQUIRED| ==> REQUIRED[k] != REQUIRED[m]
  {
    var lengths := [16, 23, 7, 10, 7, 21, 11, 19, 19, 10, 22];
    var letters := ['T', 'W', '1', '2', '3', 'I', '4', 'T', 'I', 'F', 'S'];
    assert forall k :: 0 <= k < 11 ==> |REQUIRED[k]| == lengths[k] && REQUIRED[k][0] == letters[k];
    assert forall k, m :: 0 <= k < m < 11 ==> lengths[k] != lengths[m] || letters[k] != letters[m];
  }

  /** The editor reads and prints every body of the eleven sections as the domain does. */
  lemma EditorAgrees(body: string, sections: seq<string>)
    requires |sections| == |REQUIRED|
    ensures ParseWorkspace(REQUIRED, body) == Parse(REQUIRED, body)
    ensures SerializeWorkspace(REQUIRED, sections) == Serialize(REQUIRED, sections)
  {
    hide *;
    AgreesOnNames(REQUIRED, body, sections);
  }

  /** The eleven required names are distinct and read back as they are. */
  lemma RequiredNamesAreValid()
    ensures ValidNames(REQUIRED) && |REQUIRED| == 11
  {
    FirstNamesArePlain();
    MiddleNamesArePlain();
    LastNamesArePlain();
    RequiredNamesDiffer();
    hide PlainName, ValidName;
    forall k | 0 <= k < |REQUIRED|
      ensures ValidName(REQUIRED[k])
    {
      PlainNameIsValid(REQUIRED[k]);
    }
  }
}
