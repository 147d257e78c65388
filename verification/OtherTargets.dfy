/** What a write of one target leaves of another target of its section: it is read as
    before, unless one of the two lies inside the other or trimming uncovers a line. */
module OtherTargets {
  import opened Common
  import opened Text
  import opened SituationText
  import opened SectionTargets
  import N = NamedBlocks
  import S = SectionTargets

  // ----- where a target stands -----

  predicate IsQuote(line: string) {
    line != "" && line[0] == '>'
  }

  /** The pattern of a bold label starts at a `>` and ends with its second `**`. */
  ghost predicate QuoteLabels(tables: Tables) {
    forall line :: (tables.blockAnchor(line).Some? ==> IsQuote(line)) && tables.blockAnchor(TrimEnd(line)) == tables.blockAnchor(line)
  }

  /** The target stands at line `m` and nowhere else. */
  predicate At(tables: Tables, lines: seq<string>, a: Target, m: nat)
    requires !a.Whole?
  {
    m < |lines| && Stands(tables, lines[m], a) && forall i :: 0 <= i < |lines| && i != m ==> !Stands(tables, lines[i], a)
  }

  /** A subheading has a title that is not blank. */
  predicate Named(line: string, a: Target) {
    a.Subheading? ==> HasTitle(line) && Title(line) != ""
  }

  function SpanAt(lines: seq<string>, a: Target, m: nat): (span: Span)
    requires m < |lines|
  {
    if a.Subheading? then Span(m + 1, EndOf(lines, m + 1, Hashes(lines[m]))) else Span(m, QuoteEnd(lines, m + 1))
  }

  lemma LocateAt(tables: Tables, lines: seq<string>, a: Target, m: nat)
    requires !a.Whole? && At(tables, lines, a, m)
    ensures Locate(tables, lines, a) == Some(SpanAt(lines, a, m))
  {
    if a.Subheading? {
      hide S.Matches, EndOf, Hashes;
      FirstMatchIs(tables, lines, a.subheading, 0, m);
      FirstMatchIs(tables, lines, a.subheading, m + 1, |lines|);
    } else {
      N.FirstBlockIs(tables, lines, a.anchor, 0, m);
      N.FirstBlockIs(tables, lines, a.anchor, m + 1, |lines|);
    }
  }

  lemma LocateNowhere(tables: Tables, lines: seq<string>, a: Target)
    requires !a.Whole? && forall i :: 0 <= i < |lines| ==> !Stands(tables, lines[i], a)
    ensures Locate(tables, lines, a).None?
  {
    if a.Subheading? {
      hide S.Matches;
      FirstMatchIs(tables, lines, a.subheading, 0, |lines|);
    } else {
      N.FirstBlockIs(tables, lines, a.anchor, 0, |lines|);
    }
  }

  lemma LocateTwice(tables: Tables, lines: seq<string>, a: Target, i: nat, j: nat)
    requires !a.Whole? && i < |lines| && j < |lines| && i != j && Stands(tables, lines[i], a) && Stands(tables, lines[j], a)
    ensures Locate(tables, lines, a).None?
  {
    hide S.Matches, EndOf, Hashes;
  }

  /** A line with a target begins and is found again without the space at its end. */
  lemma StandingLine(tables: Tables, line: string, a: Target)
    requires QuoteLabels(tables) && !a.Whole? && Stands(tables, line, a)
    ensures !AllSpace(line) && TrimStart(line) == line
    ensures a.NamedBlock? ==> IsQuote(line)
    ensures Named(line, a) ==> Stands(tables, TrimEnd(line), a)
  {
    if a.Subheading? {
      assert line[0] == '#' && !IsSpace('#');
      if Named(line, a) {
        HeadingKeepsTitle(line);
      }
    } else {
      assert line[0] == '>' && !IsSpace('>');
    }
  }

  // ----- the lines around what is replaced -----

  /** How many lines there are up to the last one before `upTo` that is not blank. */
  function LastText(lines: seq<string>, upTo: nat): (k: nat)
    requires upTo <= |lines|
    ensures k <= upTo && (k > 0 ==> !AllSpace(lines[k - 1]))
    ensures forall i :: k <= i < upTo ==> AllSpace(lines[i])
  {
    if upTo > 0 && AllSpace(lines[upTo - 1]) then LastText(lines, upTo - 1) else upTo
  }

  /** The first line from `from` on that is not blank. */
  function FirstText(lines: seq<string>, from: nat): (k: nat)
    requires from <= |lines|
    ensures from <= k <= |lines| && (k < |lines| ==> !AllSpace(lines[k]))
    ensures forall i :: from <= i < k ==> AllSpace(lines[i])
    decreases |lines| - from
  {
    if from < |lines| && AllSpace(lines[from]) then FirstText(lines, from + 1) else from
  }

  /** The first `k` lines, without the space at their end. */
  function FrontOf(lines: seq<string>, k: nat): seq<string>
    requires k <= |lines|
  {
    if k == 0 then [] else lines[..k - 1] + [TrimEnd(lines[k - 1])]
  }

  /** The lines from `k` on, without the space at their start. */
  function BackOf(lines: seq<string>, k: nat): seq<string>
    requires k <= |lines|
  {
    if k == |lines| then [] else [TrimStart(lines[k])] + lines[k + 1..]
  }

  lemma JoinLast(lines: seq<string>, x: string, y: string, b: string)
    requires x == y + b
    ensures Join(lines + [x]) == Join(lines + [y]) + b
  {
    hide *;
    JoinOne(x);
    JoinOne(y);
    if lines == [] {
      assert lines + [x] == [x] && lines + [y] == [y];
    } else {
      JoinAppend(lines, [x]);
      JoinAppend(lines, [y]);
      assert Join(lines) + "\n" + (y + b) == Join(lines) + "\n" + y + b;
    }
  }

  lemma JoinFirst(x: string, y: string, b: string, lines: seq<string>)
    requires x == b + y
    ensures Join([x] + lines) == b + Join([y] + lines)
  {
    hide *;
    JoinOne(x);
    JoinOne(y);
    if lines == [] {
      assert [x] + lines == [x] && [y] + lines == [y];
    } else {
      JoinAppend([x], lines);
      JoinAppend([y], lines);
      assert (b + y) + "\n" + Join(lines) == b + (y + "\n" + Join(lines));
    }
  }

  lemma TrimsAway(s: string)
    ensures TrimEnd(s) == "" <==> AllSpace(s)
    ensures TrimStart(s) == "" <==> AllSpace(s)
    ensures !AllSpace(s) && !IsSpace(s[0]) ==> TrimEnd(s) != "" && TrimEnd(s)[0] == s[0]
  {
    var b := TrimEndSplits(s);
    var a := TrimStartSplits(s);
    if AllSpace(s) {
      AllSpaceTrims(s);
    } else {
      hide IsSpace;
      assert TrimStart(s) == "" ==> s == a;
      assert TrimEnd(s) == "" ==> s == b;
    }
  }

  lemma LastStays(lines: seq<string>, x: string)
    requires x != "" && !IsSpace(x[|x| - 1])
    ensures TrimEnd(Join(lines + [x])) == Join(lines + [x]) && Join(lines + [x]) != ""
  {
    JoinLast(lines, x, "", x);
  }

  lemma FirstStays(x: string, lines: seq<string>)
    requires x != "" && !IsSpace(x[0])
    ensures TrimStart(Join([x] + lines)) == Join([x] + lines) && Join([x] + lines) != ""
  {
    JoinFirst(x, "", x, lines);
  }

  lemma FrontJoins(lines: seq<string>, k: nat)
    requires 0 < k <= |lines| && !AllSpace(lines[k - 1])
    ensures TrimEnd(Join(lines[..k])) == Join(FrontOf(lines, k)) && Join(FrontOf(lines, k)) != ""
  {
    var x := lines[k - 1];
    var b := TrimEndSplits(x);
    TrimsAway(x);
    LastStays(lines[..k - 1], TrimEnd(x));
    hide TrimEnd, AllSpace, Join;
    assert lines[..k] == lines[..k - 1] + [x];
    JoinLast(lines[..k - 1], x, TrimEnd(x), b);
    TrimEndCore(Join(lines[..k - 1] + [TrimEnd(x)]), b);
  }

  lemma BackJoins(lines: seq<string>, k: nat)
    requires k < |lines| && !AllSpace(lines[k])
    ensures TrimStart(Join(lines[k..])) == Join(BackOf(lines, k)) && Join(BackOf(lines, k)) != ""
  {
    var x := lines[k];
    var b := TrimStartSplits(x);
    TrimsAway(x);
    FirstStays(TrimStart(x), lines[k + 1..]);
    hide TrimStart, AllSpace, Join;
    assert lines[k..] == [x] + lines[k + 1..];
    JoinFirst(x, TrimStart(x), b, lines[k + 1..]);
    TrimStartCore(b, Join([TrimStart(x)] + lines[k + 1..]));
  }

  /** What is kept in front, line by line. */
  lemma {:induction false} FrontText(lines: seq<string>, upTo: nat)
    requires upTo <= |lines|
    ensures var k := LastText(lines, upTo);
      TrimEnd(Join(lines[..upTo])) == Join(FrontOf(lines, k)) && (k > 0 ==> Join(FrontOf(lines, k)) != "")
    decreases upTo
  {
    if upTo == 0 {
      assert lines[..0] == [];
    } else if AllSpace(lines[upTo - 1]) {
      var x := lines[upTo - 1];
      FrontText(lines, upTo - 1);
      assert AllSpace("\n");
      hide TrimEnd, AllSpace, Join, FrontOf, LastText;
      BlankLine(lines, upTo);
    } else {
      FrontJoins(lines, upTo);
    }
  }

  lemma BlankLine(lines: seq<string>, upTo: nat)
    requires 0 < upTo <= |lines| && AllSpace(lines[upTo - 1])
    ensures TrimEnd(Join(lines[..upTo])) == TrimEnd(Join(lines[..upTo - 1]))
  {
    var x := lines[upTo - 1];
    var front := lines[..upTo - 1];
    assert lines[..upTo] == front + [x] && AllSpace("\n");
    hide *;
    JoinOne(x);
    JoinNone();
    if front == [] {
      assert front + [x] == [x] && "" + x == x;
      TrimEndCore("", x);
    } else {
      JoinAppend(front, [x]);
      AllSpaceAppend("\n", x);
      assert Join(front) + "\n" + x == Join(front) + ("\n" + x);
      TrimEndCore(Join(front), "\n" + x);
    }
  }

  /** What is kept behind, line by line. */
  lemma {:induction false} BackText(lines: seq<string>, from: nat)
    requires from <= |lines|
    ensures var k := FirstText(lines, from);
      TrimStart(Join(lines[from..])) == Join(BackOf(lines, k)) && (k < |lines| ==> Join(BackOf(lines, k)) != "")
    decreases |lines| - from
  {
    if from == |lines| {
      assert lines[from..] == [];
    } else if AllSpace(lines[from]) {
      BackText(lines, from + 1);
      hide TrimStart, AllSpace, Join, BackOf, FirstText;
      BlankFirst(lines, from);
    } else {
      BackJoins(lines, from);
    }
  }

  lemma BlankFirst(lines: seq<string>, from: nat)
    requires from < |lines| && AllSpace(lines[from])
    ensures TrimStart(Join(lines[from..])) == TrimStart(Join(lines[from + 1..]))
  {
    var x := lines[from];
    var back := lines[from + 1..];
    assert lines[from..] == [x] + back && AllSpace("\n");
    hide *;
    JoinOne(x);
    JoinNone();
    if back == [] {
      assert [x] + back == [x] && x + "" == x;
      TrimStartCore(x, "");
    } else {
      JoinAppend([x], back);
      AllSpaceAppend(x, "\n");
      assert x + "\n" + Join(back) == (x + "\n") + Join(back);
      TrimStartCore(x + "\n", Join(back));
    }
  }

  // ----- the lines of what is written -----

  /** The replacement with the blank lines around it. */
  function Middle(front: bool, r: string, back: bool): seq<string> {
    if r == "" then (if front == back then [""] else [])
    else (if front then [""] else []) + Split(r) + (if back then [""] else [])
  }

  lemma GluedThree(ahead: string, r: string, behind: string)
    ensures Split(Glue(ahead, Glue(r, behind))) ==
      (if ahead == "" then [] else Split(ahead)) + Middle(ahead != "", r, behind != "") + (if behind == "" then [] else Split(behind))
  {
    hide *;
    if r != "" {
      N.GluedLines(ahead, r, behind);
      GluedText(ahead, r, behind);
    } else {
      GluedNothing(ahead, behind);
    }
  }

  lemma GluedText(ahead: string, r: string, behind: string)
    requires r != ""
    ensures N.Above(ahead) + Split(r) + N.Under(behind) ==
      (if ahead == "" then [] else Split(ahead)) + Middle(ahead != "", r, behind != "") + (if behind == "" then [] else Split(behind))
  {
    hide *;
    AboveUnder(ahead, behind);
    MiddleParts(ahead != "", r, behind != "");
    Regroup(if ahead == "" then [] else Split(ahead), if ahead == "" then [] else [""], Split(r),
            if behind == "" then [] else [""], if behind == "" then [] else Split(behind));
  }

  lemma AboveUnder(ahead: string, behind: string)
    ensures N.Above(ahead) == (if ahead == "" then [] else Split(ahead)) + (if ahead == "" then [] else [""])
    ensures N.Under(behind) == (if behind == "" then [] else [""]) + (if behind == "" then [] else Split(behind))
  {
    hide Split;
  }

  lemma MiddleParts(front: bool, r: string, back: bool)
    requires r != ""
    ensures Middle(front, r, back) == (if !front then [] else [""]) + Split(r) + (if !back then [] else [""])
  {
    hide Split;
  }

  lemma Regroup(x: seq<string>, u: seq<string>, r: seq<string>, w: seq<string>, y: seq<string>)
    ensures (x + u) + r + (w + y) == x + (u + r + w) + y
  {
  }

  lemma GluedNothing(ahead: string, behind: string)
    ensures Split(Glue(ahead, Glue("", behind))) ==
      (if ahead == "" then [] else Split(ahead)) + Middle(ahead != "", "", behind != "") + (if behind == "" then [] else Split(behind))
  {
    N.EmptyLine();
    hide Split;
    if ahead != "" && behind != "" {
      N.GapLines(ahead, behind);
    }
  }

  /** The lines from `p` to `q` are replaced by `middle`; the line in front of them has
      lost the space at its end, and the line behind them the space at its start. */
  function Replaced(lines: seq<string>, p: nat, q: nat, middle: seq<string>): seq<string>
    requires p <= q <= |lines|
  {
    FrontOf(lines, p) + middle + BackOf(lines, q)
  }

  lemma ThreeAt(f: seq<string>, m: seq<string>, b: seq<string>, i: nat)
    requires i < |f + m + b|
    ensures (f + m + b)[i] == if i < |f| then f[i] else if i < |f| + |m| then m[i - |f|] else b[i - |f| - |m|]
  {
  }

  lemma EndsAt(lines: seq<string>, p: nat, q: nat)
    requires p <= |lines| && q <= |lines|
    ensures |FrontOf(lines, p)| == p && |BackOf(lines, q)| == |lines| - q
    ensures forall i :: 0 <= i < p ==> FrontOf(lines, p)[i] == if i == p - 1 then TrimEnd(lines[i]) else lines[i]
    ensures forall i :: 0 <= i < |lines| - q ==> BackOf(lines, q)[i] == if i == 0 then TrimStart(lines[q]) else lines[q + i]
  {
    hide TrimEnd, TrimStart;
  }

  lemma ReplacedAt(lines: seq<string>, p: nat, q: nat, middle: seq<string>, i: nat)
    requires p <= q <= |lines| && i < |Replaced(lines, p, q, middle)|
    ensures var lines' := Replaced(lines, p, q, middle); var at := p + |middle|;
      && |lines'| == at + |lines| - q
      && (i < p - 1 ==> lines'[i] == lines[i])
      && (i == p - 1 ==> lines'[i] == TrimEnd(lines[i]))
      && (p <= i < at ==> lines'[i] == middle[i - p])
      && (i == at ==> lines'[i] == TrimStart(lines[q]))
      && (i > at ==> lines'[i] == lines[i - at + q])
  {
    hide TrimEnd, TrimStart, FrontOf, BackOf;
    EndsAt(lines, p, q);
    ThreeAt(FrontOf(lines, p), middle, BackOf(lines, q), i);
  }

  /** The lines of what is written. */
  lemma WrittenReplaces(tables: Tables, c: string, b: Target, after: string)
    requires CleanText(c) && !b.Whole? && Write(tables, c, b, after).Some?
    ensures var lines := Split(c); var span := Locate(tables, lines, b); var v := Write(tables, c, b, after).value;
      && span.Some? && CleanText(v)
      && var p, q := LastText(lines, span.value.start), FirstText(lines, span.value.end);
         Split(v) == Replaced(lines, p, q, Middle(p > 0, Trim(CanonicalText(after)), q < |lines|))
  {
    hide *;
    WritePieces(tables, c, b, after);
    var lines := Split(c);
    var span := Locate(tables, lines, b).value;
    SpanFits(tables, lines, b);
    var r := Trim(CanonicalText(after));
    var ahead, behind := TrimEnd(Join(lines[..span.start])), TrimStart(Join(lines[span.end..]));
    GluedThree(ahead, r, behind);
    AheadLines(c, span.start);
    BehindLines(c, span.end);
    TrimOfCanonicalIsClean(after);
    N.AheadClean(c, span.start);
    BehindClean(c, span.end);
    GlueClean(r, behind);
    GlueClean(ahead, Glue(r, behind));
    var p, q := LastText(lines, span.start), FirstText(lines, span.end);
    assert Replaced(lines, p, q, Middle(p > 0, r, q < |lines|)) ==
           FrontOf(lines, p) + Middle(p > 0, r, q < |lines|) + BackOf(lines, q) by {
      ReplacedIs(lines, p, q, Middle(p > 0, r, q < |lines|));
    }
  }

  lemma ReplacedIs(lines: seq<string>, p: nat, q: nat, middle: seq<string>)
    requires p <= q <= |lines|
    ensures Replaced(lines, p, q, middle) == FrontOf(lines, p) + middle + BackOf(lines, q)
  {
  }

  lemma SpanFits(tables: Tables, lines: seq<string>, b: Target)
    requires !b.Whole?
    ensures Locate(tables, lines, b).Some? ==>
      Locate(tables, lines, b).value.start <= Locate(tables, lines, b).value.end <= |lines|
  {
  }

  lemma BehindClean(c: string, e: nat)
    requires CleanText(c) && e <= |Split(c)|
    ensures CleanText(TrimStart(Join(Split(c)[e..])))
  {
    var pre := FromLine(c, e);
    hide Split, Join;
    if e < |Split(c)| {
      TailClean(c, pre, Join(Split(c)[e..]));
    } else {
      TrimStartNone();
    }
  }

  lemma TrimmedLine(line: string)
    requires !Has(line, '\n')
    ensures !Has(TrimEnd(line), '\n') && !Has(TrimStart(line), '\n')
  {
    var b := TrimEndSplits(line);
    var a := TrimStartSplits(line);
    var x, y := TrimEnd(line), TrimStart(line);
    hide TrimEnd, TrimStart, AllSpace;
    assert forall i :: 0 <= i < |x| ==> x[i] == line[i];
    assert forall i :: 0 <= i < |y| ==> y[i] == line[|a| + i];
  }

  lemma FrontFits(lines: seq<string>, p: nat)
    requires p <= |lines| && forall i :: 0 <= i < |lines| ==> !Has(lines[i], '\n')
    ensures |FrontOf(lines, p)| == p && (p == 0 ==> FrontOf(lines, p) == [])
    ensures forall i :: 0 <= i < p ==> !Has(FrontOf(lines, p)[i], '\n')
  {
    hide TrimEnd, Has;
    if p > 0 {
      TrimmedLine(lines[p - 1]);
    }
  }

  lemma BackFits(lines: seq<string>, q: nat)
    requires q <= |lines| && forall i :: 0 <= i < |lines| ==> !Has(lines[i], '\n')
    ensures |BackOf(lines, q)| == |lines| - q && (q == |lines| ==> BackOf(lines, q) == [])
    ensures forall i :: 0 <= i < |lines| - q ==> !Has(BackOf(lines, q)[i], '\n')
  {
    hide TrimStart, Has;
    if q < |lines| {
      TrimmedLine(lines[q]);
    }
  }

  lemma SplitLines(c: string)
    ensures forall i :: 0 <= i < |Split(c)| ==> !Has(Split(c)[i], '\n')
  {
  }

  lemma AheadLines(c: string, s: nat)
    requires s <= |Split(c)|
    ensures var lines := Split(c); var p := LastText(lines, s); var ahead := TrimEnd(Join(lines[..s]));
      (ahead != "" <==> p > 0) && FrontOf(lines, p) == if ahead == "" then [] else Split(ahead)
  {
    var lines := Split(c);
    var p := LastText(lines, s);
    hide *;
    SplitLines(c);
    FrontText(lines, s);
    FrontFits(lines, p);
    JoinNone();
    if p > 0 {
      SplitJoin(FrontOf(lines, p));
    }
  }

  lemma BehindLines(c: string, e: nat)
    requires e <= |Split(c)|
    ensures var lines := Split(c); var q := FirstText(lines, e); var behind := TrimStart(Join(lines[e..]));
      (behind != "" <==> q < |lines|) && BackOf(lines, q) == if behind == "" then [] else Split(behind)
  {
    var lines := Split(c);
    var q := FirstText(lines, e);
    hide *;
    SplitLines(c);
    BackText(lines, e);
    BackFits(lines, q);
    JoinNone();
    if q < |lines| {
      SplitJoin(BackOf(lines, q));
    }
  }

  // ----- where the other target stands now -----

  /** Trimming makes a line of what was not one for the target. */
  predicate Uncovers(tables: Tables, lines: seq<string>, p: nat, q: nat, a: Target, m: nat)
    requires !a.Whole? && p <= q <= |lines|
  {
    || (p > 0 && p - 1 != m && Stands(tables, TrimEnd(lines[p - 1]), a))
    || (q < |lines| && q != m && Stands(tables, TrimStart(lines[q]), a))
  }

  predicate Without(tables: Tables, lines: seq<string>, a: Target)
    requires !a.Whole?
  {
    forall i :: 0 <= i < |lines| ==> !Stands(tables, lines[i], a)
  }

  /** Where line `m` is now. */
  function Place(p: nat, q: nat, middle: seq<string>, m: nat): int {
    if m < p then m else m - q + p + |middle|
  }

  /** Where each line of the written section comes from. */
  lemma CameFrom(lines: seq<string>, p: nat, q: nat, middle: seq<string>, m: nat)
    requires p <= q <= |lines| && m < |lines| && !(p <= m < q)
    ensures var lines' := Replaced(lines, p, q, middle); var at := Place(p, q, middle, m);
      && 0 <= at < |lines'|
      && lines'[at] == if m == p - 1 then TrimEnd(lines[m]) else if m == q then TrimStart(lines[m]) else lines[m]
  {
    hide TrimEnd, TrimStart, Replaced, FrontOf, BackOf;
    Size(lines, p, q, middle);
    ReplacedAt(lines, p, q, middle, Place(p, q, middle, m));
  }

  lemma Size(lines: seq<string>, p: nat, q: nat, middle: seq<string>)
    requires p <= q <= |lines|
    ensures |Replaced(lines, p, q, middle)| == p + |middle| + |lines| - q
  {
    hide TrimEnd, TrimStart;
  }

  lemma StillStands(tables: Tables, lines: seq<string>, p: nat, q: nat, middle: seq<string>, a: Target, m: nat)
    requires QuoteLabels(tables) && !a.Whole? && At(tables, lines, a, m) && Named(lines[m], a)
    requires p <= q <= |lines| && !(p <= m < q)
    ensures var lines' := Replaced(lines, p, q, middle); var at := Place(p, q, middle, m);
      0 <= at < |lines'| && Stands(tables, lines'[at], a) && (m != p - 1 ==> lines'[at] == lines[m])
  {
    StandingLine(tables, lines[m], a);
    hide TrimEnd, TrimStart, Replaced, Stands, Named, QuoteLabels, AllSpace;
    CameFrom(lines, p, q, middle, m);
  }

  /** Any other line for the target has been uncovered. */
  lemma OnlyUncovered(tables: Tables, lines: seq<string>, p: nat, q: nat, middle: seq<string>, a: Target, m: nat, i: nat)
    requires !a.Whole? && At(tables, lines, a, m) && p <= q <= |lines|
    requires Without(tables, middle, a) && !Uncovers(tables, lines, p, q, a, m)
    requires i < |Replaced(lines, p, q, middle)| && (p <= m < q || i != Place(p, q, middle, m))
    ensures !Stands(tables, Replaced(lines, p, q, middle)[i], a)
  {
    hide TrimEnd, TrimStart, Replaced, Stands;
    ReplacedAt(lines, p, q, middle, i);
  }

  /** Where the uncovered line is. */
  lemma UncoveredStands(tables: Tables, lines: seq<string>, p: nat, q: nat, middle: seq<string>, a: Target, m: nat) returns (i: nat)
    requires !a.Whole? && p <= q <= |lines| && Uncovers(tables, lines, p, q, a, m) && m < |lines| && !(p <= m < q)
    ensures var lines' := Replaced(lines, p, q, middle);
      i < |lines'| && i != Place(p, q, middle, m) && Stands(tables, lines'[i], a)
  {
    hide TrimEnd, TrimStart, Replaced, Stands;
    var from := if p > 0 && p - 1 != m && Stands(tables, TrimEnd(lines[p - 1]), a) then p - 1 else q;
    CameFrom(lines, p, q, middle, from);
    i := Place(p, q, middle, from);
  }

  /** The other target is found exactly when its line is kept and none is uncovered. */
  lemma FoundExact(tables: Tables, lines: seq<string>, p: nat, q: nat, middle: seq<string>, a: Target, m: nat)
    requires QuoteLabels(tables) && !a.Whole? && At(tables, lines, a, m) && Named(lines[m], a)
    requires p <= q <= |lines| && Without(tables, middle, a)
    ensures var lines' := Replaced(lines, p, q, middle); var at := Place(p, q, middle, m);
      && (!Uncovers(tables, lines, p, q, a, m) ==>
            if p <= m < q then Locate(tables, lines', a).None?
            else 0 <= at < |lines'| && At(tables, lines', a, at) && Locate(tables, lines', a) == Some(SpanAt(lines', a, at)))
      && (Uncovers(tables, lines, p, q, a, m) && !(p <= m < q) ==> Locate(tables, lines', a).None?)
  {
    var lines' := Replaced(lines, p, q, middle);
    var at := Place(p, q, middle, m);
    hide *;
    if !(p <= m < q) {
      StillStands(tables, lines, p, q, middle, a, m);
    }
    if Uncovers(tables, lines, p, q, a, m) {
      if !(p <= m < q) {
        var i := UncoveredStands(tables, lines, p, q, middle, a, m);
        LocateTwice(tables, lines', a, at, i);
      }
    } else {
      forall i | 0 <= i < |lines'| && (p <= m < q || i != at)
        ensures !Stands(tables, lines'[i], a)
      {
        OnlyUncovered(tables, lines, p, q, middle, a, m, i);
      }
      if p <= m < q {
        LocateNowhere(tables, lines', a);
      } else {
        AtIs(tables, lines', a, at);
        LocateAt(tables, lines', a, at);
      }
    }
  }

  lemma AtIs(tables: Tables, lines: seq<string>, a: Target, m: nat)
    requires !a.Whole? && m < |lines| && Stands(tables, lines[m], a)
    requires forall i :: 0 <= i < |lines| && i != m ==> !Stands(tables, lines[i], a)
    ensures At(tables, lines, a, m)
  {
  }

  // ----- what the other target reads as -----

  function ReadAt(lines: seq<string>, a: Target, m: nat): string
    requires m < |lines|
  {
    var span := SpanAt(lines, a, m);
    if span.start <= span.end <= |lines| then Trim(Join(lines[span.start..span.end])) else ""
  }

  lemma SpanAtFits(lines: seq<string>, a: Target, m: nat)
    requires m < |lines|
    ensures var span := SpanAt(lines, a, m); m <= span.start <= span.end <= |lines| && m < span.end
  {
  }

  lemma {:induction false} EndOfSame(x: seq<string>, i: nat, y: seq<string>, j: nat, depth: nat)
    requires i <= |x| && j <= |y| && x[i..] == y[j..]
    ensures EndOf(x, i, depth) - i == EndOf(y, j, depth) - j
    decreases |x| - i
  {
    hide IsHeadingLine, Hashes;
    if i < |x| {
      assert x[i] == x[i..][0] && y[j] == y[j..][0];
      assert x[i + 1..] == x[i..][1..] && y[j + 1..] == y[j..][1..];
      EndOfSame(x, i + 1, y, j + 1, depth);
    }
  }

  lemma {:induction false} QuoteEndSame(x: seq<string>, i: nat, y: seq<string>, j: nat)
    requires i <= |x| && j <= |y| && x[i..] == y[j..]
    ensures QuoteEnd(x, i) - i == QuoteEnd(y, j) - j
    decreases |x| - i
  {
    if i < |x| {
      assert x[i] == x[i..][0] && y[j] == y[j..][0];
      assert x[i + 1..] == x[i..][1..] && y[j + 1..] == y[j..][1..];
      QuoteEndSame(x, i + 1, y, j + 1);
    }
  }

  lemma SpanSame(x: seq<string>, i: nat, y: seq<string>, j: nat, a: Target)
    requires i < |x| && j < |y| && x[i] == y[j] && x[i + 1..] == y[j + 1..]
    ensures SpanAt(x, a, i).start - i == SpanAt(y, a, j).start - j && SpanAt(x, a, i).end - i == SpanAt(y, a, j).end - j
  {
    hide EndOf, QuoteEnd, Hashes;
    EndOfSame(x, i + 1, y, j + 1, Hashes(x[i]));
    QuoteEndSame(x, i + 1, y, j + 1);
  }

  lemma SameSlice(x: seq<string>, i: nat, y: seq<string>, j: nat, from: nat, to: nat)
    requires i <= |x| && j <= |y| && x[i..] == y[j..] && from <= to <= |x| - i
    ensures to <= |y| - j && x[i + from..i + to] == y[j + from..j + to]
  {
    assert |x[i..]| == |y[j..]|;
    assert x[i + from..i + to] == x[i..][from..to];
    assert y[j + from..j + to] == y[j..][from..to];
  }

  lemma SameTail(x: seq<string>, i: nat, y: seq<string>, j: nat)
    requires i < |x| && j < |y| && x[i..] == y[j..]
    ensures x[i] == y[j] && x[i + 1..] == y[j + 1..]
  {
    assert x[i] == x[i..][0] && y[j] == y[j..][0];
    assert x[i + 1..] == x[i..][1..] && y[j + 1..] == y[j..][1..];
  }

  /** A target is read off the lines from its own on. */
  lemma ReadSame(x: seq<string>, i: nat, y: seq<string>, j: nat, a: Target)
    requires i < |x| && j < |y| && x[i..] == y[j..]
    ensures ReadAt(x, a, i) == ReadAt(y, a, j)
  {
    hide *;
    SameTail(x, i, y, j);
    SpanSame(x, i, y, j, a);
    ReadAtIs(x, a, i);
    ReadAtIs(y, a, j);
    SameSlice(x, i, y, j, SpanAt(x, a, i).start - i, SpanAt(x, a, i).end - i);
  }

  lemma ReadBehind(lines: seq<string>, p: nat, q: nat, middle: seq<string>, a: Target, m: nat)
    requires p <= q <= m < |lines| && TrimStart(lines[m]) == lines[m]
    ensures var lines' := Replaced(lines, p, q, middle); var at := Place(p, q, middle, m);
      0 <= at < |lines'| && ReadAt(lines', a, at) == ReadAt(lines, a, m)
  {
    hide *;
    Size(lines, p, q, middle);
    PlaceBehind(p, q, middle, m);
    BackKept(lines, q, m);
    ReplacedIs(lines, p, q, middle);
    FrontSize(lines, p);
    RestOfThree(FrontOf(lines, p), middle, BackOf(lines, q), m - q);
    ReadSame(Replaced(lines, p, q, middle), Place(p, q, middle, m), lines, m, a);
  }

  lemma FrontSize(lines: seq<string>, p: nat)
    requires p <= |lines|
    ensures |FrontOf(lines, p)| == p
  {
    hide TrimEnd;
  }

  lemma BackKept(lines: seq<string>, q: nat, m: nat)
    requires q <= m < |lines| && TrimStart(lines[m]) == lines[m]
    ensures |BackOf(lines, q)| == |lines| - q && BackOf(lines, q)[m - q..] == lines[m..]
  {
    hide TrimStart;
  }

  lemma RestOfThree(f: seq<string>, middle: seq<string>, b: seq<string>, k: nat)
    requires k <= |b|
    ensures (f + middle + b)[|f| + |middle| + k..] == b[k..]
  {
  }

  lemma PlaceBehind(p: nat, q: nat, middle: seq<string>, m: nat)
    requires p <= q <= m
    ensures Place(p, q, middle, m) == m - q + p + |middle|
  {
  }

  lemma {:induction false} QuoteStops(lines: seq<string>, from: nat, e: nat)
    requires from <= e <= |lines| && (forall i :: from <= i < e ==> IsQuote(lines[i])) && (e < |lines| ==> !IsQuote(lines[e]))
    ensures QuoteEnd(lines, from) == e
    decreases e - from
  {
    if from < e {
      QuoteStops(lines, from + 1, e);
    }
  }

  lemma {:induction false} QuoteRuns(lines: seq<string>, from: nat)
    requires from <= |lines|
    ensures from <= QuoteEnd(lines, from) && forall i :: from <= i < QuoteEnd(lines, from) ==> IsQuote(lines[i])
    ensures QuoteEnd(lines, from) < |lines| ==> !IsQuote(lines[QuoteEnd(lines, from)])
    decreases |lines| - from
  {
    if from < |lines| && IsQuote(lines[from]) {
      QuoteRuns(lines, from + 1);
    }
  }

  lemma HeadingLineStarts(line: string)
    requires IsHeadingLine(line)
    ensures !AllSpace(line) && Hashes(TrimEnd(line)) == Hashes(line)
  {
    var n := Hashes(line);
    assert line[n - 1] == '#' && !IsSpace('#');
    var b := TrimEndSplits(line);
    var t := TrimEnd(line);
    assert line[n - 1] == '#' ==> |t| >= n;
    hide TrimEnd, IsSpace;
    if n < |t| {
      HashesAre(t, n);
    } else {
      AllHashes(t);
    }
  }

  /** The heading that ends the other target is one still. */
  predicate EndStays(lines: seq<string>, p: nat, a: Target, m: nat)
    requires m < |lines|
  {
    var e := SpanAt(lines, a, m).end;
    a.Subheading? && p > 0 && e == p - 1 && e < |lines| ==> IsHeadingLine(TrimEnd(lines[e]))
  }

  /** The lines in front. */
  predicate FrontKept(lines: seq<string>, p: nat, lines': seq<string>) {
    p <= |lines| && p <= |lines'| && forall i :: 0 <= i < p ==> lines'[i] == if i == p - 1 then TrimEnd(lines[i]) else lines[i]
  }

  lemma FrontIsKept(lines: seq<string>, p: nat, q: nat, middle: seq<string>)
    requires p <= q <= |lines|
    ensures FrontKept(lines, p, Replaced(lines, p, q, middle))
  {
    Size(lines, p, q, middle);
    hide TrimEnd, TrimStart, Replaced;
    forall i | 0 <= i < p
      ensures Replaced(lines, p, q, middle)[i] == if i == p - 1 then TrimEnd(lines[i]) else lines[i]
    {
      CameFrom(lines, p, q, middle, i);
    }
  }

  /** A subheading that ends in front of the last line that is kept there. */
  lemma KeptAt(lines: seq<string>, p: nat, lines': seq<string>, i: nat)
    requires FrontKept(lines, p, lines') && i < p
    ensures i < |lines| && i < |lines'| && lines'[i] == if i == p - 1 then TrimEnd(lines[i]) else lines[i]
  {
    hide TrimEnd;
  }

  lemma EndMeans(lines: seq<string>, from: nat, depth: nat)
    requires from <= |lines|
    ensures var e := EndOf(lines, from, depth);
      && from <= e <= |lines| && (e < |lines| ==> IsHeadingLine(lines[e]) && Hashes(lines[e]) <= depth)
      && forall i :: from <= i < e ==> !(IsHeadingLine(lines[i]) && Hashes(lines[i]) <= depth)
  {
  }

  lemma HeadingEnds(lines: seq<string>, p: nat, lines': seq<string>, from: nat, depth: nat)
    requires FrontKept(lines, p, lines') && from <= |lines| && EndOf(lines, from, depth) < p
    requires EndOf(lines, from, depth) == p - 1 ==> IsHeadingLine(TrimEnd(lines[p - 1]))
    ensures from <= |lines'| && EndOf(lines', from, depth) == EndOf(lines, from, depth)
  {
    hide *;
    EndMeans(lines, from, depth);
    var e := EndOf(lines, from, depth);
    KeptAt(lines, p, lines', e);
    HeadingLineStarts(lines[e]);
    forall i | from <= i < e
      ensures !(IsHeadingLine(lines'[i]) && Hashes(lines'[i]) <= depth)
    {
      KeptAt(lines, p, lines', i);
    }
    EndIs(lines', from, depth, e);
  }

  lemma SameLines(x: seq<string>, y: seq<string>, from: nat, to: nat)
    requires from <= to <= |x| && to <= |y| && forall i :: from <= i < to ==> x[i] == y[i]
    ensures x[from..to] == y[from..to]
  {
  }

  /** What a subheading or a block reads as, with the lines it covers. */
  lemma ReadAtIs(lines: seq<string>, a: Target, m: nat)
    requires m < |lines|
    ensures var from := if a.Subheading? then m + 1 else m;
      var e := if a.Subheading? then EndOf(lines, m + 1, Hashes(lines[m])) else QuoteEnd(lines, m + 1);
      && SpanAt(lines, a, m) == Span(from, e) && m + 1 <= e <= |lines|
      && ReadAt(lines, a, m) == Trim(Join(lines[from..e]))
  {
    hide EndOf, QuoteEnd, Hashes, Trim, Join;
  }

  lemma KeptBefore(lines: seq<string>, p: nat, lines': seq<string>, e: nat)
    requires FrontKept(lines, p, lines') && e < p
    ensures e < |lines| && e < |lines'| && forall i :: 0 <= i < e ==> lines'[i] == lines[i]
  {
    hide TrimEnd;
  }

  lemma StaysMeans(lines: seq<string>, p: nat, a: Target, m: nat)
    requires m < |lines| && p <= |lines| && EndStays(lines, p, a, m)
    ensures a.Subheading? && p > 0 && SpanAt(lines, a, m).end == p - 1 ==> IsHeadingLine(TrimEnd(lines[p - 1]))
  {
  }

  lemma HeadingInFront(lines: seq<string>, p: nat, lines': seq<string>, a: Target, m: nat)
    requires FrontKept(lines, p, lines') && m < |lines| && a.Subheading? && SpanAt(lines, a, m).end < p && EndStays(lines, p, a, m)
    ensures m < |lines'| && ReadAt(lines', a, m) == ReadAt(lines, a, m)
  {
    assert p <= |lines|;
    hide *;
    StaysMeans(lines, p, a, m);
    ReadAtIs(lines, a, m);
    var e := EndOf(lines, m + 1, Hashes(lines[m]));
    KeptBefore(lines, p, lines', e);
    assert lines'[m] == lines[m];
    HeadingEnds(lines, p, lines', m + 1, Hashes(lines[m]));
    SameLines(lines, lines', m + 1, e);
    ReadAtIs(lines', a, m);
  }

  lemma QuoteText(line: string)
    ensures IsQuote(TrimEnd(line)) <==> IsQuote(line)
  {
    var b := TrimEndSplits(line);
    TrimsAway(line);
    assert !IsSpace('>');
    if line != "" && line[0] == '>' {
      assert !AllSpace(line);
    }
  }

  lemma TrimJoinLast(front: seq<string>, x: string)
    ensures Trim(Join(front + [TrimEnd(x)])) == Trim(Join(front + [x]))
  {
    var b := TrimEndSplits(x);
    hide *;
    JoinLast(front, x, TrimEnd(x), b);
    TrimAppend(Join(front + [TrimEnd(x)]), b);
  }

  lemma QuotesInFront(lines: seq<string>, p: nat, lines': seq<string>)
    requires FrontKept(lines, p, lines')
    ensures forall i :: 0 <= i < p ==> (IsQuote(lines'[i]) <==> IsQuote(lines[i]))
    ensures !IsQuote("")
  {
    assert !IsQuote("");
    hide IsQuote, TrimEnd;
    forall i | 0 <= i < p
      ensures IsQuote(lines'[i]) <==> IsQuote(lines[i])
    {
      QuoteText(lines[i]);
    }
  }

  lemma QuoteKept(lines: seq<string>, p: nat, lines': seq<string>, from: nat)
    requires FrontKept(lines, p, lines') && from <= |lines| && QuoteEnd(lines, from) <= p && (p < |lines'| ==> lines'[p] == "")
    ensures from <= |lines'| && QuoteEnd(lines', from) == QuoteEnd(lines, from)
  {
    hide IsQuote, QuoteEnd, TrimEnd;
    QuoteRuns(lines, from);
    QuotesInFront(lines, p, lines');
    QuoteStops(lines', from, QuoteEnd(lines, from));
  }

  lemma WithLast(lines: seq<string>, from: nat, to: nat)
    requires from < to <= |lines|
    ensures lines[from..to] == lines[from..to - 1] + [lines[to - 1]]
  {
  }

  /** A named block that ends in front of what is replaced. */
  lemma BlockInFront(lines: seq<string>, p: nat, lines': seq<string>, a: Target, m: nat)
    requires FrontKept(lines, p, lines') && m < |lines| && a.NamedBlock? && SpanAt(lines, a, m).end <= p
    requires p < |lines'| ==> lines'[p] == ""
    ensures m < |lines'| && ReadAt(lines', a, m) == ReadAt(lines, a, m)
  {
    hide *;
    ReadAtIs(lines, a, m);
    var e := QuoteEnd(lines, m + 1);
    KeptAt(lines, p, lines', m);
    forall i | 0 <= i < e
      ensures i < |lines'| && lines'[i] == if i == p - 1 then TrimEnd(lines[i]) else lines[i]
    {
      KeptAt(lines, p, lines', i);
    }
    QuoteKept(lines, p, lines', m + 1);
    ReadAtIs(lines', a, m);
    if e == p {
      SameLines(lines, lines', m, e - 1);
      WithLast(lines, m, e);
      WithLast(lines', m, e);
      TrimJoinLast(lines[m..e - 1], lines[e - 1]);
    } else {
      SameLines(lines, lines', m, e);
    }
  }

  // ----- the law -----

  /** A target ends where a line begins that is not blank, or behind one. */
  lemma EndsAtText(tables: Tables, lines: seq<string>, a: Target, m: nat, s: nat)
    requires QuoteLabels(tables) && !a.Whole? && At(tables, lines, a, m) && s <= |lines| && SpanAt(lines, a, m).end < s
    ensures var p := LastText(lines, s); var e := SpanAt(lines, a, m).end;
      m < p && if a.Subheading? then e < p else e <= p
  {
    var p := LastText(lines, s);
    var e := SpanAt(lines, a, m).end;
    SpanAtFits(lines, a, m);
    StandingLine(tables, lines[m], a);
    if a.Subheading? {
      HeadingLineStarts(lines[e]);
    } else {
      QuoteRuns(lines, m + 1);
      QuoteIsText(lines[e - 1]);
    }
    hide AllSpace, LastText, Stands, IsHeadingLine, Hashes, QuoteEnd;
  }

  lemma QuoteIsText(line: string)
    ensures IsQuote(line) ==> !AllSpace(line)
  {
    assert !IsSpace('>');
  }

  /** Blank lines do not belong to the other target. */
  lemma NotBlank(tables: Tables, lines: seq<string>, a: Target, m: nat, s: nat, e: nat)
    requires QuoteLabels(tables) && !a.Whole? && At(tables, lines, a, m) && s <= e <= |lines|
    ensures LastText(lines, s) <= m < FirstText(lines, e) <==> s <= m < e
  {
    StandingLine(tables, lines[m], a);
    hide AllSpace, Stands;
  }

  lemma MiddleOpens(front: bool, r: string, back: bool)
    ensures front && Middle(front, r, back) != [] ==> Middle(front, r, back)[0] == ""
    ensures front && Middle(front, r, back) == [] ==> !back
  {
    hide Split;
  }

  lemma MiddleWithout(tables: Tables, front: bool, r: string, back: bool, a: Target)
    requires QuoteLabels(tables) && !a.Whole? && Without(tables, Split(r), a)
    ensures Without(tables, Middle(front, r, back), a)
  {
    BlankIsNoHeading();
    assert !Stands(tables, "", a) by {
      if Stands(tables, "", a) {
        StandingLine(tables, "", a);
      }
    }
    hide Split, Stands;
    var middle := Middle(front, r, back);
    forall i | 0 <= i < |middle|
      ensures !Stands(tables, middle[i], a)
    {
      assert middle[i] == "" || middle[i] in Split(r);
    }
  }

  lemma GapBehindFront(lines: seq<string>, p: nat, q: nat, r: string)
    requires 0 < p <= q <= |lines|
    ensures var lines' := Replaced(lines, p, q, Middle(p > 0, r, q < |lines|)); p < |lines'| ==> lines'[p] == ""
  {
    var middle := Middle(p > 0, r, q < |lines|);
    MiddleOpens(p > 0, r, q < |lines|);
    Size(lines, p, q, middle);
    hide Replaced, Middle, TrimEnd, TrimStart;
    if p < |Replaced(lines, p, q, middle)| {
      ReplacedAt(lines, p, q, middle, p);
    }
  }

  /** It reads the same when it lies in front of what is replaced, or behind. */
  lemma ReadApart(tables: Tables, lines: seq<string>, s: nat, e: nat, r: string, a: Target, m: nat)
    requires QuoteLabels(tables) && !a.Whole? && At(tables, lines, a, m) && s <= e <= |lines|
    requires SpanAt(lines, a, m).end < s || e <= m
    requires EndStays(lines, LastText(lines, s), a, m)
    ensures var p, q := LastText(lines, s), FirstText(lines, e); var middle := Middle(p > 0, r, q < |lines|);
      var lines' := Replaced(lines, p, q, middle); var at := Place(p, q, middle, m);
      0 <= at < |lines'| && ReadAt(lines', a, at) == ReadAt(lines, a, m)
  {
    var p, q := LastText(lines, s), FirstText(lines, e);
    var middle := Middle(p > 0, r, q < |lines|);
    hide *;
    AtMeans(tables, lines, a, m);
    StandingLine(tables, lines[m], a);
    NotBlank(tables, lines, a, m, s, e);
    SpanAtFits(lines, a, m);
    LastFits(lines, s);
    if e <= m {
      ReadBehind(lines, p, q, middle, a, m);
    } else {
      EndsAtText(tables, lines, a, m, s);
      FrontIsKept(lines, p, q, middle);
      GapBehindFront(lines, p, q, r);
      InFront(p, q, middle, m);
      if a.Subheading? {
        HeadingInFront(lines, p, Replaced(lines, p, q, middle), a, m);
      } else {
        BlockInFront(lines, p, Replaced(lines, p, q, middle), a, m);
      }
    }
  }

  lemma InFront(p: nat, q: nat, middle: seq<string>, m: nat)
    requires m < p
    ensures Place(p, q, middle, m) == m
  {
  }

  lemma LastFits(lines: seq<string>, s: nat)
    requires s <= |lines|
    ensures LastText(lines, s) <= s
  {
  }

  lemma AtMeans(tables: Tables, lines: seq<string>, a: Target, m: nat)
    requires !a.Whole? && At(tables, lines, a, m)
    ensures m < |lines| && Stands(tables, lines[m], a)
  {
  }

  lemma ReadAtSpan(tables: Tables, v: string, a: Target, m: nat)
    requires CleanText(v) && !a.Whole? && m < |Split(v)| && Locate(tables, Split(v), a) == Some(SpanAt(Split(v), a, m))
    ensures BeforeOf(tables, v, a) == Some(ReadAt(Split(v), a, m))
  {
    hide *;
    ReadAtIs(Split(v), a, m);
    ReadOf(tables, v, a);
  }

  lemma ReadOf(tables: Tables, v: string, a: Target)
    requires CleanText(v) && !a.Whole?
    ensures BeforeOf(tables, v, a) ==
      var span := Locate(tables, Split(v), a);
      if span.None? then None else Some(Trim(Join(Split(v)[span.value.start..span.value.end])))
  {
    LinesOfClean(v);
    hide Locate, Split, Join, Trim, CleanText, LinesOf;
  }

  lemma Unread(tables: Tables, v: string, a: Target)
    requires CleanText(v) && !a.Whole? && Locate(tables, Split(v), a).None?
    ensures BeforeOf(tables, v, a).None?
  {
    hide *;
    ReadOf(tables, v, a);
  }

  /** The target lies in front of the replaced lines or behind them, and no trimming there
      shows: no second line for it is uncovered, and the heading that ends it stays one. */
  predicate Apart(tables: Tables, lines: seq<string>, span: Span, a: Target, m: nat)
    requires !a.Whole? && m < |lines| && span.start <= span.end <= |lines|
  {
    && (SpanAt(lines, a, m).end < span.start || span.end <= m)
    && !Uncovers(tables, lines, LastText(lines, span.start), FirstText(lines, span.end), a, m)
    && EndStays(lines, LastText(lines, span.start), a, m)
  }

  lemma ApartMeans(tables: Tables, lines: seq<string>, span: Span, a: Target, m: nat)
    requires !a.Whole? && m < |lines| && span.start <= span.end <= |lines| && Apart(tables, lines, span, a, m)
    ensures SpanAt(lines, a, m).end < span.start || span.end <= m
    ensures !Uncovers(tables, lines, LastText(lines, span.start), FirstText(lines, span.end), a, m)
    ensures EndStays(lines, LastText(lines, span.start), a, m)
  {
  }

  /** For every write of a target of a clean section and every other target that stands
      there, when the replacement does not hold it.  What is not inside the replaced lines
      is found again exactly when trimming uncovers no second line for it; what is inside
      is gone; what lies apart reads as before. */
  lemma OtherTargetExact(tables: Tables, c: string, a: Target, m: nat, b: Target, after: string)
    requires QuoteLabels(tables) && CleanText(c) && !a.Whole? && !b.Whole?
    requires At(tables, Split(c), a, m) && Named(Split(c)[m], a)
    requires Write(tables, c, b, after).Some? && Without(tables, Split(Trim(CanonicalText(after))), a)
    ensures Locate(tables, Split(c), b).Some?
    ensures var lines := Split(c); var span := Locate(tables, lines, b).value; var v := Write(tables, c, b, after).value;
      var p, q := LastText(lines, span.start), FirstText(lines, span.end);
      var inside := span.start <= m < span.end; var uncovers := Uncovers(tables, lines, p, q, a, m);
      && (!inside ==> (BeforeOf(tables, v, a).Some? <==> !uncovers))
      && (inside && !uncovers ==> BeforeOf(tables, v, a).None?)
      && (Apart(tables, lines, span, a, m) ==> BeforeOf(tables, v, a) == BeforeOf(tables, c, a))
  {
    hide *;
    WrittenReplaces(tables, c, b, after);
    var lines := Split(c);
    var span := Locate(tables, lines, b).value;
    var v := Write(tables, c, b, after).value;
    var r := Trim(CanonicalText(after));
    SpanFits(tables, lines, b);
    var p, q := LastText(lines, span.start), FirstText(lines, span.end);
    var middle := Middle(p > 0, r, q < |lines|);
    LastFits(lines, span.start);
    AtMeans(tables, lines, a, m);
    NotBlank(tables, lines, a, m, span.start, span.end);
    MiddleWithout(tables, p > 0, r, q < |lines|, a);
    FoundExact(tables, lines, p, q, middle, a, m);
    if Locate(tables, Split(v), a).None? {
      Unread(tables, v, a);
    } else if !(p <= m < q) {
      ReadAtSpan(tables, v, a, Place(p, q, middle, m));
    }
    SpanAtFits(lines, a, m);
    if Apart(tables, lines, span, a, m) {
      ApartMeans(tables, lines, span, a, m);
      ReadApart(tables, lines, span.start, span.end, r, a, m);
      LocateAt(tables, lines, a, m);
      ReadAtSpan(tables, c, a, m);
    }
  }

  lemma StandingIsAt(tables: Tables, c: string, a: Target, m: nat)
    requires a.Subheading? && Standing(tables, c, a.subheading, m)
    ensures At(tables, Split(c), a, m) && Named(Split(c)[m], a)
  {
    OnlyMatchMeans(tables, Split(c), a.subheading, m);
    hide Split, S.Matches, Title, HasTitle, CleanText;
  }

  lemma FramedIsAt(tables: Tables, v: string, a: Target, before: seq<string>, h: string, r: string, after: seq<string>)
    requires a.Subheading? && Framed(tables, v, a.subheading, before, h, r, after)
    ensures At(tables, Split(v), a, |before|) && Named(Split(v)[|before|], a)
  {
    StandingIsAt(tables, v, a, |before|);
    hide Split, Standing, At, Named, Rewritten, Below;
  }

  /** What was written below a subheading is still read there after any later write of a
      target that lies apart. */
  lemma KeptIsRead(tables: Tables, c: string, a: Target, m: nat, first: string, b: Target, later: string)
    requires QuoteLabels(tables) && a.Subheading? && Standing(tables, c, a.subheading, m) && !b.Whole?
    requires NoHeadingLines(Trim(CanonicalText(first))) && Without(tables, Split(Trim(CanonicalText(later))), a)
    ensures Write(tables, c, a, first).Some?
    ensures var v := Write(tables, c, a, first).value; var span := Locate(tables, Split(v), b);
      m < |Split(v)| && (span.Some? && Apart(tables, Split(v), span.value, a, m) && Write(tables, v, b, later).Some? ==>
        BeforeOf(tables, Write(tables, v, b, later).value, a) == Some(Trim(CanonicalText(first))))
  {
    assert a == Subheading(a.section, a.subheading);
    hide *;
    StandsThere(tables, c, a.subheading, m);
    WriteFrames(tables, c, a.section, a.subheading, m, first);
    ReadAfterWrite(tables, c, a.section, a.subheading, m, first);
    var lines := Split(c);
    var v := Write(tables, c, a, first).value;
    assert |lines[..m]| == m;
    FramedIsAt(tables, v, a, lines[..m], lines[m], Trim(CanonicalText(first)), lines[Below(tables, c, m)..]);
    AtMeans(tables, Split(v), a, m);
    SpanFits(tables, Split(v), b);
    if Locate(tables, Split(v), b).Some? && Apart(tables, Split(v), Locate(tables, Split(v), b).value, a, m) && Write(tables, v, b, later).Some? {
      OtherTargetExact(tables, v, a, m, b, later);
    }
  }

  lemma StandsThere(tables: Tables, c: string, subheading: string, m: nat)
    requires Standing(tables, c, subheading, m)
    ensures m < |Split(c)| && Below(tables, c, m) <= |Split(c)|
  {
    hide Title, HasTitle, CleanText, OnlyMatch, EndOf;
  }
}
