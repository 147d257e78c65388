/** The string operations the situation text is built with: JavaScript's trim
    family, split and join on newlines, and `canonicalText`. */
module Text {

  /** WhiteSpace and LineTerminator of ECMAScript, the characters trim removes. */
  predicate IsSpace(c: char) {
    || c == '\t' || c == '\n' || c == '\r' || c == ' '
    || c == '\U{000B}' || c == '\U{000C}' || c == '\U{00A0}' || c == '\U{FEFF}'
    || c == '\U{1680}' || '\U{2000}' <= c <= '\U{200A}' || c == '\U{2028}' || c == '\U{2029}'
    || c == '\U{202F}' || c == '\U{205F}' || c == '\U{3000}'
  }

  predicate IsBlank(c: char) {
    c == ' ' || c == '\t'
  }

  predicate AllSpace(s: string) {
    forall i :: 0 <= i < |s| ==> IsSpace(s[i])
  }

  predicate Has(s: string, c: char) {
    exists i :: 0 <= i < |s| && s[i] == c
  }

  predicate SlugChar(c: char) {
    'a' <= c <= 'z' || '0' <= c <= '9'
  }

  /** /^[a-z0-9]+(?:-[a-z0-9]+)*$/ */
  predicate IsSlug(s: string) {
    && s != "" && SlugChar(s[0]) && SlugChar(s[|s| - 1])
    && (forall i :: 0 <= i < |s| ==> SlugChar(s[i]) || s[i] == '-')
    && (forall i :: 0 < i < |s| ==> !(s[i - 1] == '-' && s[i] == '-'))
  }

  /** Nothing for trim to remove. */
  predicate Trimmed(s: string) {
    s == "" || (!IsSpace(s[0]) && !IsSpace(s[|s| - 1]))
  }

  function TrimStart(s: string): string {
    if s != "" && IsSpace(s[0]) then TrimStart(s[1..]) else s
  }

  function TrimEnd(s: string): string {
    if s != "" && IsSpace(s[|s| - 1]) then TrimEnd(s[..|s| - 1]) else s
  }

  lemma {:induction false} TrimStartSplits(s: string) returns (a: string)
    ensures AllSpace(a) && s == a + TrimStart(s)
    ensures TrimStart(s) == "" || !IsSpace(TrimStart(s)[0])
  {
    hide IsSpace;
    if s != "" && IsSpace(s[0]) {
      a := TrimStartSplits(s[1..]);
      assert s == [s[0]] + s[1..];
      a := [s[0]] + a;
    } else {
      a := "";
    }
  }

  lemma {:induction false} TrimEndSplits(s: string) returns (b: string)
    ensures AllSpace(b) && s == TrimEnd(s) + b
    ensures TrimEnd(s) == "" || !IsSpace(TrimEnd(s)[|TrimEnd(s)| - 1])
  {
    hide IsSpace;
    if s != "" && IsSpace(s[|s| - 1]) {
      b := TrimEndSplits(s[..|s| - 1]);
      assert s == s[..|s| - 1] + [s[|s| - 1]];
      b := b + [s[|s| - 1]];
    } else {
      b := "";
    }
  }

  function Trim(s: string): string {
    TrimEnd(TrimStart(s))
  }

  /** Any text is space, its trimmed core, and space. */
  lemma TrimSplits(s: string) returns (a: string, b: string)
    ensures AllSpace(a) && AllSpace(b) && s == a + Trim(s) + b && Trimmed(Trim(s))
  {
    hide IsSpace, AllSpace, TrimStart, TrimEnd;
    a := TrimStartSplits(s);
    b := TrimEndSplits(TrimStart(s));
    assert a + (Trim(s) + b) == a + Trim(s) + b;
    if Trim(s) != "" {
      assert Trim(s)[0] == TrimStart(s)[0];
    }
  }

  lemma {:induction false} TrimStartCore(a: string, rest: string)
    requires AllSpace(a)
    ensures TrimStart(a + rest) == TrimStart(rest)
  {
    if a == "" {
      assert a + rest == rest;
    } else {
      assert (a + rest)[1..] == a[1..] + rest;
      TrimStartCore(a[1..], rest);
    }
  }

  lemma {:induction false} TrimEndCore(rest: string, b: string)
    requires AllSpace(b)
    ensures TrimEnd(rest + b) == TrimEnd(rest)
    decreases |b|
  {
    if b == "" {
      assert rest + b == rest;
    } else {
      var c := b[..|b| - 1];
      assert (rest + b)[..|rest + b| - 1] == rest + c;
      TrimEndCore(rest, c);
    }
  }

  lemma {:induction false} AllSpaceTrims(s: string)
    requires AllSpace(s)
    ensures TrimStart(s) == "" && TrimEnd(s) == "" && Trim(s) == ""
  {
    assert s == s + "" && s == "" + s;
    TrimStartCore(s, "");
    TrimEndCore("", s);
  }

  lemma CoreStands(core: string, b: string)
    requires Trimmed(core) && core != ""
    ensures TrimStart(core + b) == core + b && TrimEnd(core) == core
  {
    hide IsSpace;
    assert (core + b)[0] == core[0];
  }

  lemma EndStands(a: string, core: string)
    requires Trimmed(core) && core != ""
    ensures TrimEnd(a + core) == a + core
  {
    hide IsSpace;
    assert (a + core)[|a + core| - 1] == core[|core| - 1];
  }

  lemma AllSpaceAppend(a: string, b: string)
    requires AllSpace(a) && AllSpace(b)
    ensures AllSpace(a + b)
  {
    hide IsSpace;
  }

  lemma NothingBetween(a: string, b: string)
    requires AllSpace(a) && AllSpace(b)
    ensures TrimStart(a + "" + b) == "" && TrimEnd(a + "" + b) == "" && Trim(a + "" + b) == ""
  {
    hide *;
    AllSpaceAppend(a, b);
    AllSpaceTrims(a + b);
    assert a + "" + b == a + b;
  }

  lemma CoreBetween(a: string, core: string, b: string)
    requires AllSpace(a) && AllSpace(b) && Trimmed(core) && core != ""
    ensures TrimStart(a + core + b) == core + b && TrimEnd(a + core + b) == a + core && TrimEnd(core + b) == core
  {
    hide *;
    CoreStands(core, b);
    TrimStartCore(a, core + b);
    TrimEndCore(core, b);
    TrimEndCore(a + core, b);
    EndStands(a, core);
    assert a + core + b == a + (core + b);
  }

  /** Trim is determined by any split of the text into space, a trimmed core, and space. */
  lemma TrimCore(a: string, core: string, b: string)
    requires AllSpace(a) && AllSpace(b) && Trimmed(core)
    ensures Trim(a + core + b) == core
    ensures core != "" ==> TrimStart(a + core + b) == core + b && TrimEnd(a + core + b) == a + core
    ensures core == "" ==> TrimStart(a + core + b) == "" && TrimEnd(a + core + b) == ""
  {
    hide AllSpace, TrimStart, TrimEnd, Trimmed;
    if core == "" {
      NothingBetween(a, b);
    } else {
      CoreBetween(a, core, b);
    }
  }

  lemma TrimmedStays(s: string)
    requires Trimmed(s)
    ensures Trim(s) == s && TrimEnd(s) == s && TrimStart(s) == s
  {
    assert "" + s + "" == s;
    TrimCore("", s, "");
  }

  // ----- newlines -----

  /** Every CRLF and every lone CR becomes LF. */
  function Newlines(s: string): (r: string)
    ensures !Has(r, '\r')
    ensures !Has(s, '\r') ==> r == s
  {
    if s == "" then ""
    else if s[0] == '\r' then
      "\n" + Newlines(if |s| > 1 && s[1] == '\n' then s[2..] else s[1..])
    else [s[0]] + Newlines(s[1..])
  }

  function DropNewlines(s: string): (r: string)
    ensures |r| <= |s| && s[..|r|] == r
    ensures r == "" || r[|r| - 1] != '\n'
    ensures forall i :: |r| <= i < |s| ==> s[i] == '\n'
  {
    if s != "" && s[|s| - 1] == '\n' then DropNewlines(s[..|s| - 1]) else s
  }

  /** canonicalText. */
  function CanonicalText(s: string): (r: string)
    ensures r != "" && r[|r| - 1] == '\n' && !Has(r, '\r')
    ensures |r| > 1 ==> r[|r| - 2] != '\n'
  {
    var core := DropNewlines(Newlines(s));
    assert forall i :: 0 <= i < |core| ==> core[i] == Newlines(s)[i];
    core + "\n"
  }

  /** Text that is CR-free and does not end in a newline is only given one. */
  lemma {:induction false} CanonicalAppends(s: string)
    requires !Has(s, '\r') && (s == "" || s[|s| - 1] != '\n')
    ensures CanonicalText(s) == s + "\n"
  {
  }

  /** canonicalText changes nothing that is already canonical. */
  lemma {:induction false} CanonicalIdempotent(s: string)
    ensures CanonicalText(CanonicalText(s)) == CanonicalText(s)
  {
    var r := CanonicalText(s);
    var core := r[..|r| - 1];
    assert Newlines(r) == r;
    assert DropNewlines(r) == DropNewlines(core);
  }

  lemma TrimAppend(core: string, tail: string)
    requires AllSpace(tail)
    ensures Trim(core + tail) == Trim(core)
  {
    hide IsSpace, AllSpace, Trim, Trimmed;
    var a, b := TrimSplits(core);
    AllSpaceAppend(b, tail);
    TrimCore(a, Trim(core), b + tail);
    assert a + Trim(core) + b + tail == a + Trim(core) + (b + tail);
  }

  /** What a caller who trims the canonical text sees. */
  lemma TrimOfCanonical(s: string)
    requires !Has(s, '\r')
    ensures Trim(CanonicalText(s)) == Trim(s)
  {
    var core := DropNewlines(s);
    var tail := s[|core|..];
    assert AllSpace(tail) && AllSpace("\n");
    hide IsSpace;
    assert s == core + tail && CanonicalText(s) == core + "\n";
    TrimAppend(core, tail);
    TrimAppend(core, "\n");
    hide AllSpace, CanonicalText, Trim;
  }

  // ----- lines -----

  /** split("\n"): never empty. */
  function Split(s: string): (lines: seq<string>)
    ensures |lines| > 0
    ensures forall i :: 0 <= i < |lines| ==> !Has(lines[i], '\n')
  {
    if s == "" then [""]
    else
      var rest := Split(s[1..]);
      if s[0] == '\n' then [""] + rest
      else
        assert forall i :: 0 <= i < |[s[0]] + rest[0]| ==> ([s[0]] + rest[0])[i] == if i == 0 then s[0] else rest[0][i - 1];
        [[s[0]] + rest[0]] + rest[1..]
  }

  /** join("\n"). */
  function Join(lines: seq<string>): string {
    if lines == [] then "" else if |lines| == 1 then lines[0] else lines[0] + "\n" + Join(lines[1..])
  }

  lemma {:induction false} SplitLine(s: string)
    requires !Has(s, '\n')
    ensures Split(s) == [s]
  {
    if s != "" {
      assert forall i :: 0 <= i < |s[1..]| ==> s[1..][i] == s[i + 1];
      SplitLine(s[1..]);
      assert [s[0]] + s[1..] == s;
    }
  }

  lemma {:induction false} SplitAppend(a: string, b: string)
    ensures Split(a + "\n" + b) == Split(a) + Split(b)
  {
    if a == "" {
      assert a + "\n" + b == "\n" + b && ("\n" + b)[1..] == b;
    } else {
      var s := a + "\n" + b;
      assert s[1..] == a[1..] + "\n" + b && s[0] == a[0];
      SplitAppend(a[1..], b);
      hide Has;
      if a[0] != '\n' {
        assert (Split(a[1..]) + Split(b))[1..] == Split(a[1..])[1..] + Split(b);
      }
    }
  }

  lemma {:induction false} SplitJoin(lines: seq<string>)
    requires |lines| > 0 && forall i :: 0 <= i < |lines| ==> !Has(lines[i], '\n')
    ensures Split(Join(lines)) == lines
  {
    if |lines| == 1 {
      SplitLine(lines[0]);
    } else {
      SplitAppend(lines[0], Join(lines[1..]));
      SplitLine(lines[0]);
      SplitJoin(lines[1..]);
    }
  }

  lemma {:induction false} JoinSplit(s: string)
    ensures Join(Split(s)) == s
  {
    if s != "" {
      JoinSplit(s[1..]);
      var rest := Split(s[1..]);
      if s[0] == '\n' {
        assert Split(s)[1..] == rest;
        assert s == "" + "\n" + s[1..];
      } else {
        assert Split(s)[1..] == rest[1..];
        assert s == [s[0]] + s[1..];
        if |rest| > 1 {
          assert [s[0]] + rest[0] + "\n" + Join(rest[1..]) == [s[0]] + (rest[0] + "\n" + Join(rest[1..]));
        }
      }
    }
  }

  lemma {:induction false} JoinAppend(a: seq<string>, b: seq<string>)
    requires a != [] && b != []
    ensures Join(a + b) == Join(a) + "\n" + Join(b)
  {
    if |a| == 1 {
      assert (a + b)[1..] == b;
    } else {
      assert (a + b)[1..] == a[1..] + b;
      JoinAppend(a[1..], b);
    }
  }
}
