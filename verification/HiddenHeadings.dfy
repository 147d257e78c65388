/** Heading lines that are hidden by indentation.  Sections and replacements without
    any stay so under every write, so no write can make a heading of one. */
module HiddenHeadings {
  import opened Common
  import opened Text
  import opened SituationText
  import opened SectionTargets

  predicate MarkAt(t: string, i: nat) {
    i + 3 < |t| && t[i] == '#' && t[i + 1] == '#' && IsBlank(t[i + 2]) && !EndsLine(t[i + 3])
  }

  /** A mark with nothing but space before it, back to the start of a line. */
  predicate HiddenAt(t: string, j: nat, i: nat) {
    j <= i < |t| && LineStart(t, j) && AllSpace(t[j..i]) && MarkAt(t, i)
  }

  /** No line reads as a level-2 heading once its indentation is removed. */
  predicate NoHidden(t: string) {
    forall j, i :: 0 <= j <= i < |t| ==> !HiddenAt(t, j, i)
  }

  lemma NoHiddenNoHeading(t: string)
    requires NoHidden(t)
    ensures NoHeading(t)
  {
    forall i | 0 <= i < |t|
      ensures !HeadingAt(t, i)
    {
      assert !HiddenAt(t, i, i);
      assert t[i..i] == "";
    }
  }

  /** What is hidden in a piece is hidden in the whole. */
  lemma HiddenInWhole(t: string, p: string, off: nat, j: nat, i: nat)
    requires HiddenAt(p, j, i) && off + |p| <= |t| && t[off..off + |p|] == p
    requires j > 0 || off == 0 || EndsLine(t[off - 1])
    ensures HiddenAt(t, off + j, off + i)
  {
    assert forall k :: 0 <= k < |p| ==> t[off + k] == p[k];
    assert t[off + j..off + i] == p[j..i];
    assert j > 0 ==> t[off + j - 1] == p[j - 1];
  }

  lemma PieceHides(t: string, p: string, off: nat)
    requires NoHidden(t) && off + |p| <= |t| && t[off..off + |p|] == p
    requires off == 0 || EndsLine(t[off - 1])
    ensures NoHidden(p)
  {
    hide HiddenAt;
    forall j, i | 0 <= j <= i < |p|
      ensures !HiddenAt(p, j, i)
    {
      if HiddenAt(p, j, i) {
        HiddenInWhole(t, p, off, j, i);
      }
    }
  }

  lemma TrimEndHides(x: string)
    requires NoHidden(x)
    ensures NoHidden(TrimEnd(x))
  {
    var b := TrimEndSplits(x);
    PieceHides(x, TrimEnd(x), 0);
  }

  lemma SpaceBefore(a: string, t: string, i: nat)
    requires AllSpace(a) && HiddenAt(t, 0, i)
    ensures HiddenAt(a + t, 0, |a| + i)
  {
    var x := a + t;
    assert x[0..|a| + i] == a + t[0..i];
    AllSpaceAppend(a, t[0..i]);
    assert forall k :: 0 <= k < |t| ==> x[|a| + k] == t[k];
  }

  lemma TrimStartHides(x: string)
    requires NoHidden(x)
    ensures NoHidden(TrimStart(x))
  {
    var a := TrimStartSplits(x);
    var t := TrimStart(x);
    assert x == a + t;
    hide HiddenAt, TrimStart;
    forall j, i | 0 <= j <= i < |t|
      ensures !HiddenAt(t, j, i)
    {
      if HiddenAt(t, j, i) {
        if j == 0 {
          SpaceBefore(a, t, i);
        } else {
          HiddenInWhole(x, t, |a|, j, i);
        }
      }
    }
  }

  /** A gap of two newlines keeps what is hidden on its sides apart. */
  lemma AcrossGap(a: string, b: string, j: nat, i: nat)
    requires CleanText(a) && a != "" && HiddenAt(a + "\n\n" + b, j, i)
    ensures (j <= i < |a| && HiddenAt(a, j, i))
            || (|a| + 2 <= j <= i < |a| + 2 + |b| && HiddenAt(b, j - |a| - 2, i - |a| - 2))
            || (|a| + 2 <= i < |a| + 2 + |b| && HiddenAt(b, 0, i - |a| - 2))
  {
    var t := a + "\n\n" + b;
    assert forall k :: 0 <= k < |a| ==> t[k] == a[k];
    assert forall k :: 0 <= k < |b| ==> t[|a| + 2 + k] == b[k];
    assert t[|a|] == '\n' && t[|a| + 1] == '\n';
    if i < |a| {
      assert t[j..i] == a[j..i];
      assert i + 3 < |a| by { MarkFits(a, b, i); }
    } else {
      assert i >= |a| + 2;
      var q := i - |a| - 2;
      if j >= |a| + 2 {
        assert t[j..i] == b[j - |a| - 2..q];
      } else {
        assert b[0..q] == t[j..i][|a| + 2 - j..];
        assert AllSpace(b[0..q]);
      }
    }
  }

  lemma MarkFits(a: string, b: string, i: nat)
    requires i < |a| && MarkAt(a + "\n\n" + b, i)
    ensures i + 3 < |a|
  {
    var t := a + "\n\n" + b;
    assert t[|a|] == '\n' && t[|a| + 1] == '\n';
  }

  lemma GlueHides(a: string, b: string)
    requires CleanText(a) && NoHidden(a) && NoHidden(b)
    ensures NoHidden(Glue(a, b))
  {
    hide HiddenAt, CleanText;
    if a != "" && b != "" {
      var t := a + "\n\n" + b;
      forall j, i | 0 <= j <= i < |t|
        ensures !HiddenAt(t, j, i)
      {
        if HiddenAt(t, j, i) {
          AcrossGap(a, b, j, i);
        }
      }
    }
  }

  lemma HeadHides(c: string, k: nat)
    requires NoHidden(c) && k <= |Split(c)|
    ensures NoHidden(TrimEnd(Join(Split(c)[..k])))
  {
    if k == 0 {
      assert Split(c)[..0] == [];
      JoinNone();
    } else {
      var rest := UpTo(c, k);
      hide Split, Join;
      PieceHides(c, Join(Split(c)[..k]), 0);
      TrimEndHides(Join(Split(c)[..k]));
    }
  }

  lemma TailHides(c: string, e: nat)
    requires NoHidden(c) && e <= |Split(c)|
    ensures NoHidden(TrimStart(Join(Split(c)[e..])))
  {
    var pre := FromLine(c, e);
    hide Split, Join;
    if e < |Split(c)| {
      PieceHides(c, Join(Split(c)[e..]), |pre|);
      TrimStartHides(Join(Split(c)[e..]));
    } else {
      TrimStartNone();
    }
  }

  /** Every write of a text without hidden headings into a section without any leaves none. */
  lemma WrittenHides(tables: Tables, c: string, target: Target, after: string)
    requires CleanText(c) && NoHidden(c) && NoHidden(Trim(CanonicalText(after))) && Write(tables, c, target, after).Some?
    ensures NoHidden(Write(tables, c, target, after).value)
    ensures !HeadingAt(Behind(tables, c, target), 0)
  {
    TrimOfCanonicalIsClean(after);
    NoHiddenNoHeading(c);
    if target.Whole? {
      NothingHeads();
    } else {
      WritePieces(tables, c, target, after);
      var span := Locate(tables, Split(c), target).value;
      var behind := Behind(tables, c, target);
      hide *;
      HeadPiece(c, span.start);
      HeadHides(c, span.start);
      TailHides(c, span.end);
      NoHiddenNoHeading(behind);
      NoneAtStart(behind);
      GlueHides(Trim(CanonicalText(after)), behind);
      GlueHides(TrimEnd(Join(Split(c)[..span.start])), Glue(Trim(CanonicalText(after)), behind));
    }
  }

  lemma NoneAtStart(t: string)
    requires NoHeading(t)
    ensures !HeadingAt(t, 0)
  {
  }
}
