/** Exactly when a named block obeys the laws of a lens. */
module NamedBlocks {
  import opened Common
  import opened Text
  import opened SituationText
  import opened SectionTargets

  /** The pattern of a bold label looks at the first line only, and finds none in an empty one. */
  ghost predicate ByLine(tables: Tables) {
    tables.blockAnchor("").None? && forall s :: tables.blockAnchor(s) == tables.blockAnchor(Split(s)[0])
  }

  /** What precedes the lines of the block, as a write keeps it. */
  function Ahead(tables: Tables, c: string, target: Target): string
    requires target.NamedBlock?
  {
    var span := Locate(tables, LinesOf(c), target);
    if span.None? then "" else TrimEnd(Join(LinesOf(c)[..span.value.start]))
  }

  predicate Unlabelled(tables: Tables, lines: seq<string>, anchor: string) {
    forall i :: 0 <= i < |lines| ==> tables.blockAnchor(lines[i]) != Some(anchor)
  }

  predicate Quoted(lines: seq<string>) {
    forall i :: 0 <= i < |lines| ==> lines[i] != "" && lines[i][0] == '>'
  }

  /** The replacement `r` is one block quote with its label, and no line around it has the label. */
  predicate OneBlock(tables: Tables, ahead: string, r: string, behind: string, anchor: string) {
    && Unlabelled(tables, Split(ahead), anchor) && Unlabelled(tables, Split(behind), anchor)
    && Unlabelled(tables, Split(r)[1..], anchor) && Quoted(Split(r)[1..])
  }

  // ----- the lines of what is written -----

  function Above(ahead: string): seq<string> {
    if ahead == "" then [] else Split(ahead) + [""]
  }

  function Under(behind: string): seq<string> {
    if behind == "" then [] else [""] + Split(behind)
  }

  lemma GapLines(a: string, b: string)
    ensures Split(a + "\n\n" + b) == Split(a) + [""] + Split(b)
  {
    hide *;
    assert a + "\n\n" + b == a + "\n" + ("" + "\n" + b);
    SplitAppend(a, "" + "\n" + b);
    SplitAppend("", b);
    EmptyLine();
  }

  lemma EmptyLine()
    ensures Split("") == [""]
  {
  }

  lemma GluedLines(ahead: string, r: string, behind: string)
    requires r != ""
    ensures Split(Glue(ahead, Glue(r, behind))) == Above(ahead) + Split(r) + Under(behind)
  {
    var tail := Glue(r, behind);
    assert Split(tail) == Split(r) + Under(behind) by {
      hide Split;
      if behind != "" {
        GapLines(r, behind);
      }
    }
    hide Split;
    if ahead != "" {
      GapLines(ahead, tail);
    }
  }

  lemma {:induction false} FirstBlockIs(tables: Tables, lines: seq<string>, anchor: string, from: nat, m: nat)
    requires from <= m <= |lines| && (m < |lines| ==> tables.blockAnchor(lines[m]) == Some(anchor))
    requires forall i :: from <= i < m ==> tables.blockAnchor(lines[i]) != Some(anchor)
    ensures FirstBlock(tables, lines, anchor, from) == m
    decreases m - from
  {
    if from < m {
      FirstBlockIs(tables, lines, anchor, from + 1, m);
    }
  }

  lemma {:induction false} QuoteEndIs(lines: seq<string>, from: nat, e: nat)
    requires from <= e <= |lines| && Quoted(lines[from..e]) && (e < |lines| ==> lines[e] == "")
    ensures QuoteEnd(lines, from) == e
    decreases e - from
  {
    if from < e {
      assert lines[from] == lines[from..e][0];
      assert lines[from..e][1..] == lines[from + 1..e];
      QuoteEndIs(lines, from + 1, e);
    }
  }

  lemma {:induction false} QuoteEndMeans(lines: seq<string>, from: nat, gap: nat)
    requires from <= gap <= |lines| && (gap < |lines| ==> lines[gap] == "")
    ensures from <= QuoteEnd(lines, from) <= gap && Quoted(lines[from..QuoteEnd(lines, from)])
    decreases gap - from
  {
    if from < |lines| && lines[from] != "" && lines[from][0] == '>' {
      QuoteEndMeans(lines, from + 1, gap);
      var e := QuoteEnd(lines, from);
      assert lines[from..e] == [lines[from]] + lines[from + 1..e];
    }
  }

  /** Lines in three parts, the middle one opening with the only label. */
  lemma MiddleIsLocated(tables: Tables, p: seq<string>, r: seq<string>, t: seq<string>, section: nat, anchor: string)
    requires r != [] && tables.blockAnchor(r[0]) == Some(anchor) && (t != [] ==> t[0] == "")
    requires Unlabelled(tables, p, anchor) && Unlabelled(tables, r[1..], anchor) && Unlabelled(tables, t, anchor) && Quoted(r[1..])
    ensures Locate(tables, p + r + t, NamedBlock(section, anchor)) == Some(Span(|p|, |p| + |r|))
  {
    var lines := p + r + t;
    forall i | |p| < i < |lines|
      ensures tables.blockAnchor(lines[i]) != Some(anchor)
    {
      if i < |p| + |r| {
        assert lines[i] == r[1..][i - |p| - 1];
      } else {
        assert lines[i] == t[i - |p| - |r|];
      }
    }
    FirstBlockIs(tables, lines, anchor, 0, |p|);
    FirstBlockIs(tables, lines, anchor, |p| + 1, |lines|);
    assert lines[|p| + 1..|p| + |r|] == r[1..];
    QuoteEndIs(lines, |p| + 1, |p| + |r|);
  }

  lemma LocatedIsMiddle(tables: Tables, p: seq<string>, r: seq<string>, t: seq<string>, section: nat, anchor: string)
    requires r != [] && tables.blockAnchor(r[0]) == Some(anchor) && (t != [] ==> t[0] == "")
    requires Locate(tables, p + r + t, NamedBlock(section, anchor)).Some?
    ensures var span := Locate(tables, p + r + t, NamedBlock(section, anchor)).value;
      && span.start == |p| < span.end <= |p| + |r|
      && Unlabelled(tables, p, anchor) && Unlabelled(tables, r[1..], anchor) && Unlabelled(tables, t, anchor)
      && Quoted(r[1..span.end - |p|])
  {
    var lines := p + r + t;
    var m := FirstBlock(tables, lines, anchor, 0);
    assert lines[|p|] == r[0];
    assert m == |p|;
    assert forall i :: 0 <= i < |p| ==> lines[i] == p[i];
    assert forall i :: 0 <= i < |r[1..]| ==> lines[|p| + 1 + i] == r[1..][i];
    assert forall i :: 0 <= i < |t| ==> lines[|p| + |r| + i] == t[i];
    QuoteEndMeans(lines, |p| + 1, |p| + |r|);
    var e := QuoteEnd(lines, |p| + 1);
    assert lines[|p| + 1..e] == r[1..e - |p|];
  }

  // ----- reading what was written -----

  lemma PartUnlabelled(tables: Tables, text: string, anchor: string)
    requires tables.blockAnchor("").None?
    ensures Unlabelled(tables, Above(text), anchor) <==> Unlabelled(tables, Split(text), anchor)
    ensures Unlabelled(tables, Under(text), anchor) <==> Unlabelled(tables, Split(text), anchor)
  {
    EmptyLine();
    hide Split;
    var lines := Split(text);
    assert forall i :: 0 <= i < |lines| ==> (lines + [""])[i] == lines[i] && ([""] + lines)[i + 1] == lines[i];
  }

  /** Fewer lines are a shorter text. */
  lemma FewerLines(r: string, q: nat)
    requires 0 < q < |Split(r)|
    ensures |Trim(Join(Split(r)[..q]))| < |r|
  {
    JoinSplit(r);
    JoinAppend(Split(r)[..q], Split(r)[q..]);
    assert Split(r) == Split(r)[..q] + Split(r)[q..];
    var a, b := TrimSplits(Join(Split(r)[..q]));
    hide Split, Join, Trim;
  }

  lemma ReadSpan(tables: Tables, v: string, target: Target)
    requires CleanText(v) && target.NamedBlock?
    ensures BeforeOf(tables, v, target) ==
      var span := Locate(tables, Split(v), target);
      if span.None? then None else Some(Trim(Join(Split(v)[span.value.start..span.value.end])))
  {
    LinesOfClean(v);
    hide Locate, Split, Join, Trim, CleanText, LinesOf;
  }

  lemma SplitsSome(r: string)
    ensures Split(r) != []
  {
  }

  lemma UnderOpens(behind: string)
    ensures Under(behind) != [] ==> Under(behind)[0] == ""
  {
  }

  lemma PartsOf(tables: Tables, ahead: string, r: string, behind: string, anchor: string)
    requires tables.blockAnchor("").None? && OneBlock(tables, ahead, r, behind, anchor)
    ensures Unlabelled(tables, Above(ahead), anchor) && Unlabelled(tables, Under(behind), anchor)
    ensures Unlabelled(tables, Split(r)[1..], anchor) && Quoted(Split(r)[1..])
  {
    PartUnlabelled(tables, ahead, anchor);
    PartUnlabelled(tables, behind, anchor);
    hide Split, Above, Under;
  }

  lemma OneBlockFrom(tables: Tables, ahead: string, r: string, behind: string, anchor: string)
    requires tables.blockAnchor("").None? && Unlabelled(tables, Above(ahead), anchor) && Unlabelled(tables, Under(behind), anchor)
    requires Unlabelled(tables, Split(r)[1..], anchor) && Quoted(Split(r)[1..])
    ensures OneBlock(tables, ahead, r, behind, anchor)
  {
    PartUnlabelled(tables, ahead, anchor);
    PartUnlabelled(tables, behind, anchor);
    hide Split, Above, Under;
  }

  lemma OneBlockReads(tables: Tables, v: string, ahead: string, r: string, behind: string, section: nat, anchor: string)
    requires CleanText(v) && CleanText(r) && tables.blockAnchor("").None?
    requires Split(v) == Above(ahead) + Split(r) + Under(behind) && tables.blockAnchor(Split(r)[0]) == Some(anchor)
    requires OneBlock(tables, ahead, r, behind, anchor)
    ensures BeforeOf(tables, v, NamedBlock(section, anchor)) == Some(r)
  {
    var p, m, t := Above(ahead), Split(r), Under(behind);
    UnderOpens(behind);
    SplitsSome(r);
    TrimmedStays(r);
    hide *;
    ReadSpan(tables, v, NamedBlock(section, anchor));
    PartsOf(tables, ahead, r, behind, anchor);
    MiddleIsLocated(tables, p, m, t, section, anchor);
    JoinSplit(r);
    assert (p + m + t)[|p|..|p| + |m|] == m;
  }

  lemma ReadIsOneBlock(tables: Tables, v: string, ahead: string, r: string, behind: string, section: nat, anchor: string)
    requires CleanText(v) && CleanText(r) && tables.blockAnchor("").None?
    requires Split(v) == Above(ahead) + Split(r) + Under(behind) && tables.blockAnchor(Split(r)[0]) == Some(anchor)
    requires BeforeOf(tables, v, NamedBlock(section, anchor)) == Some(r)
    ensures OneBlock(tables, ahead, r, behind, anchor)
  {
    var p, m, t := Above(ahead), Split(r), Under(behind);
    UnderOpens(behind);
    SplitsSome(r);
    hide *;
    ReadSpan(tables, v, NamedBlock(section, anchor));
    LocatedIsMiddle(tables, p, m, t, section, anchor);
    var q := Locate(tables, p + m + t, NamedBlock(section, anchor)).value.end - |p|;
    assert (p + m + t)[|p|..|p| + q] == m[..q];
    if q < |m| {
      FewerLines(r, q);
    }
    assert q == |m| && m[1..q] == m[1..];
    OneBlockFrom(tables, ahead, r, behind, anchor);
  }

  lemma BlockReads(tables: Tables, v: string, ahead: string, r: string, behind: string, section: nat, anchor: string)
    requires CleanText(v) && CleanText(r) && tables.blockAnchor("").None?
    requires Split(v) == Above(ahead) + Split(r) + Under(behind) && tables.blockAnchor(Split(r)[0]) == Some(anchor)
    ensures BeforeOf(tables, v, NamedBlock(section, anchor)) == Some(r) <==> OneBlock(tables, ahead, r, behind, anchor)
  {
    hide *;
    if OneBlock(tables, ahead, r, behind, anchor) {
      OneBlockReads(tables, v, ahead, r, behind, section, anchor);
    }
    if BeforeOf(tables, v, NamedBlock(section, anchor)) == Some(r) {
      ReadIsOneBlock(tables, v, ahead, r, behind, section, anchor);
    }
  }

  lemma BlockPieces(tables: Tables, c: string, target: Target, after: string)
    requires CleanText(c) && target.NamedBlock? && Write(tables, c, target, after).Some?
    ensures CleanText(Ahead(tables, c, target)) && CleanText(Behind(tables, c, target))
    ensures Write(tables, c, target, after).value == Glue(Ahead(tables, c, target), Glue(Trim(CanonicalText(after)), Behind(tables, c, target)))
    ensures tables.blockAnchor(Trim(CanonicalText(after))) == Some(target.anchor)
    ensures Locate(tables, LinesOf(c), target).Some?
  {
    WritePieces(tables, c, target, after);
    LinesOfClean(c);
    var span := Locate(tables, Split(c), target).value;
    AheadClean(c, span.start);
    var pre := FromLine(c, span.end);
    if span.end < |Split(c)| {
      TailClean(c, pre, Join(Split(c)[span.end..]));
    } else {
      TrimStartNone();
    }
    hide Locate, LinesOf, Split, Join, Trim, CanonicalText, TrimEnd, TrimStart, Glue;
  }

  lemma AheadClean(c: string, k: nat)
    requires CleanText(c) && k <= |Split(c)|
    ensures CleanText(TrimEnd(Join(Split(c)[..k])))
  {
    if k == 0 {
      assert Split(c)[..0] == [];
      JoinNone();
    } else {
      var rest := UpTo(c, k);
      SegmentClean(c, Join(Split(c)[..k]), rest);
    }
  }

  lemma LabelOfFirst(tables: Tables, r: string)
    requires ByLine(tables) && tables.blockAnchor(r).Some?
    ensures r != "" && tables.blockAnchor(Split(r)[0]) == tables.blockAnchor(r)
  {
    hide Split;
  }

  lemma WrittenBlock(tables: Tables, c: string, target: Target, after: string)
    requires ByLine(tables) && CleanText(c) && target.NamedBlock? && Write(tables, c, target, after).Some?
    ensures var v := Write(tables, c, target, after).value; var r := Trim(CanonicalText(after));
      && CleanText(v) && CleanText(r) && r != ""
      && Split(v) == Above(Ahead(tables, c, target)) + Split(r) + Under(Behind(tables, c, target))
      && tables.blockAnchor(Split(r)[0]) == Some(target.anchor)
  {
    var r := Trim(CanonicalText(after));
    hide *;
    BlockPieces(tables, c, target, after);
    TrimOfCanonicalIsClean(after);
    LabelOfFirst(tables, r);
    GluedLines(Ahead(tables, c, target), r, Behind(tables, c, target));
    GlueClean(r, Behind(tables, c, target));
    GlueClean(Ahead(tables, c, target), Glue(r, Behind(tables, c, target)));
  }

  /** For every named block of a clean section and every replacement that is accepted:
      reading after writing gives the trimmed replacement exactly when it is one block
      quote and its label stands nowhere else in what is written. */
  lemma BlockReadExact(tables: Tables, c: string, target: Target, after: string)
    requires ByLine(tables) && CleanText(c) && target.NamedBlock? && Write(tables, c, target, after).Some?
    ensures var v := Write(tables, c, target, after).value; var r := Trim(CanonicalText(after));
      BeforeOf(tables, v, target) == Some(r) <==>
        OneBlock(tables, Ahead(tables, c, target), r, Behind(tables, c, target), target.anchor)
  {
    hide *;
    WrittenBlock(tables, c, target, after);
    NoLabelInNothing(tables);
    BlockReads(tables, Write(tables, c, target, after).value, Ahead(tables, c, target), Trim(CanonicalText(after)),
               Behind(tables, c, target), target.section, target.anchor);
    assert target == NamedBlock(target.section, target.anchor);
  }

  lemma NoLabelInNothing(tables: Tables)
    requires ByLine(tables)
    ensures tables.blockAnchor("").None?
  {
  }

  // ----- writing twice -----

  lemma AboveJoins(ahead: string)
    requires CleanText(ahead)
    ensures TrimEnd(Join(Above(ahead))) == ahead
  {
    TrimmedStays(ahead);
    assert AllSpace("\n");
    hide *;
    if ahead == "" {
      AboveNothing();
    } else {
      AboveText(ahead);
      TrimEndCore(ahead, "\n");
    }
  }

  lemma AboveNothing()
    ensures Above("") == [] && Join([]) == ""
  {
  }

  lemma AboveText(ahead: string)
    requires ahead != ""
    ensures Join(Above(ahead)) == ahead + "\n"
  {
    JoinSplit(ahead);
    JoinOne("");
    JoinAppend(Split(ahead), [""]);
    hide Split, Join;
  }

  lemma UnderJoins(behind: string)
    requires CleanText(behind)
    ensures TrimStart(Join(Under(behind))) == behind
  {
    TrimmedStays(behind);
    assert AllSpace("\n");
    hide *;
    if behind == "" {
      UnderNothing();
    } else {
      UnderText(behind);
      TrimStartCore("\n", behind);
    }
  }

  lemma UnderNothing()
    ensures Under("") == [] && Join([]) == ""
  {
  }

  lemma UnderText(behind: string)
    requires behind != ""
    ensures Join(Under(behind)) == "\n" + behind
  {
    JoinSplit(behind);
    JoinOne("");
    JoinAppend([""], Split(behind));
    hide Split, Join;
  }

  lemma WriteOfSpan(tables: Tables, v: string, target: Target, span: Span, last: string)
    requires CleanText(v) && target.NamedBlock? && Locate(tables, Split(v), target) == Some(span)
    ensures var r := Trim(CanonicalText(last));
      Write(tables, v, target, last) ==
        if tables.blockAnchor(r) != Some(target.anchor) then None
        else Some(Glue(TrimEnd(Join(Split(v)[..span.start])), Glue(r, TrimStart(Join(Split(v)[span.end..])))))
  {
    LinesOfClean(v);
    hide Locate, Split, Join, Trim, CanonicalText, TrimEnd, TrimStart, Glue, CleanText, LinesOf;
  }

  lemma Cuts(p: seq<string>, r: seq<string>, t: seq<string>)
    ensures (p + r + t)[..|p|] == p && (p + r + t)[|p| + |r|..] == t
  {
  }

  /** Under the same condition, writing the block twice equals writing it last. */
  lemma BlockWriteTwice(tables: Tables, c: string, target: Target, first: string, last: string)
    requires ByLine(tables) && CleanText(c) && target.NamedBlock? && Write(tables, c, target, first).Some?
    requires OneBlock(tables, Ahead(tables, c, target), Trim(CanonicalText(first)), Behind(tables, c, target), target.anchor)
    ensures Write(tables, Write(tables, c, target, first).value, target, last) == Write(tables, c, target, last)
  {
    var v := Write(tables, c, target, first).value;
    var r := Trim(CanonicalText(first));
    var p, m, t := Above(Ahead(tables, c, target)), Split(r), Under(Behind(tables, c, target));
    UnderOpens(Behind(tables, c, target));
    SplitsSome(r);
    hide *;
    WrittenBlock(tables, c, target, first);
    BlockPieces(tables, c, target, first);
    NoLabelInNothing(tables);
    PartsOf(tables, Ahead(tables, c, target), r, Behind(tables, c, target), target.anchor);
    MiddleIsLocated(tables, p, m, t, target.section, target.anchor);
    assert target == NamedBlock(target.section, target.anchor);
    Cuts(p, m, t);
    AboveJoins(Ahead(tables, c, target));
    UnderJoins(Behind(tables, c, target));
    WriteOfSpan(tables, v, target, Span(|p|, |p| + |m|), last);
    WriteFromPieces(tables, c, target, last);
  }

  lemma WriteFromPieces(tables: Tables, c: string, target: Target, last: string)
    requires CleanText(c) && target.NamedBlock? && Locate(tables, LinesOf(c), target).Some?
    ensures var r := Trim(CanonicalText(last));
      Write(tables, c, target, last) ==
        if tables.blockAnchor(r) != Some(target.anchor) then None
        else Some(Glue(Ahead(tables, c, target), Glue(r, Behind(tables, c, target))))
  {
    hide Locate, LinesOf, Join, Trim, CanonicalText, TrimEnd, TrimStart, Glue, CleanText;
  }
}
