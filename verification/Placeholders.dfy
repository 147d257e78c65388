/** Running a list of statements that share one list of values: the publisher splits
    the text, renumbers the `$n` placeholders of each statement to 1..k, and passes
    only the values that statement uses (apps/publisher/src/index.ts). */
module Placeholders {
  import opened Common
  import opened Ordering
  import opened Text

  predicate IsDigit(c: char) {
    '0' <= c <= '9'
  }

  /** A statement as the pattern /\$(\d+)/g sees it. */
  datatype Token = Chr(c: char) | Ref(n: nat)

  function DigitRun(s: string): (k: nat)
    ensures k <= |s|
    ensures forall i :: 0 <= i < k ==> IsDigit(s[i])
    ensures k < |s| ==> !IsDigit(s[k])
  {
    if s != "" && IsDigit(s[0]) then 1 + DigitRun(s[1..]) else 0
  }

  /** Number(digits). */
  function Value(s: string): nat
    requires forall i :: 0 <= i < |s| ==> IsDigit(s[i])
  {
    if s == "" then 0
    else
      assert IsDigit(s[|s| - 1]);
      10 * Value(s[..|s| - 1]) + (s[|s| - 1] as int - '0' as int)
  }

  function Decimal(n: nat): (s: string)
    ensures s != "" && forall i :: 0 <= i < |s| ==> IsDigit(s[i])
  {
    var digit := ('0' as int + n % 10) as char;
    if n < 10 then [digit] else Decimal(n / 10) + [digit]
  }

  function Tokens(s: string): seq<Token>
    decreases |s|
  {
    if s == "" then []
    else if s[0] == '$' && |s| > 1 && IsDigit(s[1]) then
      var k := DigitRun(s[1..]);
      assert forall i :: 0 <= i < k ==> s[1..k + 1][i] == s[1..][i];
      [Ref(Value(s[1..k + 1]))] + Tokens(s[k + 1..])
    else [Chr(s[0])] + Tokens(s[1..])
  }

  function Print(t: Token): string {
    if t.Chr? then [t.c] else "$" + Decimal(t.n)
  }

  function Render(tokens: seq<Token>): string {
    if tokens == [] then "" else Print(tokens[0]) + Render(tokens[1..])
  }

  // ----- renumbering -----

  function Refs(tokens: seq<Token>): seq<nat> {
    if tokens == [] then []
    else (if tokens[0].Ref? then [tokens[0].n] else []) + Refs(tokens[1..])
  }

  /** [...new Set(list)]: first occurrences, in order. */
  function Unique(s: seq<nat>): seq<nat> {
    if s == [] then []
    else
      var before := Unique(s[..|s| - 1]);
      if s[|s| - 1] in before then before else before + [s[|s| - 1]]
  }

  function Smaller(): (nat, nat) -> bool {
    (a: nat, b: nat) => a < b
  }

  function Indexes(tokens: seq<Token>): seq<nat> {
    Sort(Smaller(), Unique(Refs(tokens)))
  }

  /** positions.get(n): one more than the place of `n` among the indexes. */
  function Position(indexes: seq<nat>, n: nat): (p: nat)
    ensures n in indexes ==> 1 <= p <= |indexes| && indexes[p - 1] == n
  {
    if indexes == [] then 0 else if indexes[0] == n then 1 else 1 + Position(indexes[1..], n)
  }

  function Renumbered(indexes: seq<nat>, tokens: seq<Token>): (r: seq<Token>)
    ensures |r| == |tokens|
    ensures forall i :: 0 <= i < |tokens| ==>
      r[i] == if tokens[i].Ref? then Ref(Position(indexes, tokens[i].n)) else tokens[i]
  {
    seq(|tokens|, i requires 0 <= i < |tokens| =>
      if tokens[i].Ref? then Ref(Position(indexes, tokens[i].n)) else tokens[i])
  }

  /** values[n - 1], which is undefined outside the list. */
  function Bound<V>(values: seq<V>, n: nat): Option<V> {
    if 1 <= n <= |values| then Some(values[n - 1]) else None
  }

  datatype Query<V> = Query(text: string, values: seq<Option<V>>)

  function Rewrite<V>(statement: string, values: seq<V>): Query<V> {
    var tokens := Tokens(statement);
    var indexes := Indexes(tokens);
    Query(Render(Renumbered(indexes, tokens)), seq(|indexes|, i requires 0 <= i < |indexes| => Bound(values, indexes[i])))
  }

  // ----- statements -----

  /** split(";"). */
  function Pieces(sql: string): (r: seq<string>)
    ensures |r| > 0
  {
    if sql == "" then [""]
    else
      var rest := Pieces(sql[1..]);
      if sql[0] == ';' then [""] + rest else [[sql[0]] + rest[0]] + rest[1..]
  }

  function Statements(pieces: seq<string>): seq<string> {
    if pieces == [] then []
    else (if Trim(pieces[0]) == "" then [] else [Trim(pieces[0])]) + Statements(pieces[1..])
  }

  function Queries<V>(statements: seq<string>, values: seq<V>): (r: seq<Query<V>>)
    ensures |r| == |statements| && forall i :: 0 <= i < |r| ==> r[i] == Rewrite(statements[i], values)
  {
    seq(|statements|, i requires 0 <= i < |statements| => Rewrite(statements[i], values))
  }

  /** Text joined by semicolons. */
  function Joined(pieces: seq<string>): string
    requires pieces != []
  {
    if |pieces| == 1 then pieces[0] else pieces[0] + ";" + Joined(pieces[1..])
  }

  /** The pieces hold no semicolon and make up the text. */
  lemma {:induction false} PiecesExact(sql: string)
    ensures Joined(Pieces(sql)) == sql
    ensures forall i :: 0 <= i < |Pieces(sql)| ==> !Has(Pieces(sql)[i], ';')
  {
    if sql != "" {
      PiecesExact(sql[1..]);
      var rest := Pieces(sql[1..]);
      if sql[0] == ';' {
        assert Pieces(sql)[1..] == rest;
        assert sql == "" + ";" + sql[1..];
      } else {
        assert Pieces(sql)[1..] == rest[1..];
        var first := [sql[0]] + rest[0];
        assert forall i :: 0 <= i < |first| ==> first[i] == if i == 0 then sql[0] else rest[0][i - 1];
        assert sql == [sql[0]] + sql[1..];
        if |rest| > 1 {
          assert [sql[0]] + rest[0] + ";" + Joined(rest[1..]) == [sql[0]] + (rest[0] + ";" + Joined(rest[1..]));
        }
      }
    }
  }

  /** The statements stand at the pieces `at` before `upTo`, in order; every other piece
      there is blank. */
  predicate Picks(pieces: seq<string>, upTo: nat, at: seq<nat>, statements: seq<string>)
    requires upTo <= |pieces|
  {
    && |at| == |statements|
    && (forall k :: 0 <= k < |at| ==> at[k] < upTo && statements[k] == Trim(pieces[at[k]]) && statements[k] != "")
    && (forall k, l :: 0 <= k < l < |at| ==> at[k] < at[l])
    && (forall i :: 0 <= i < upTo && i !in at ==> AllSpace(pieces[i]))
  }

  lemma {:induction false} StatementsExact(pieces: seq<string>, upTo: nat) returns (at: seq<nat>)
    requires upTo <= |pieces|
    ensures Picks(pieces, upTo, at, Statements(pieces[..upTo]))
  {
    if upTo == 0 {
      at := [];
    } else {
      var before := StatementsExact(pieces, upTo - 1);
      var last := pieces[upTo - 1];
      assert pieces[..upTo] == pieces[..upTo - 1] + [last];
      StatementsAppend(pieces[..upTo - 1], last);
      BlankOrText(last);
      at := before + if Trim(last) == "" then [] else [upTo - 1];
      hide Trim, AllSpace, Statements;
    }
  }

  lemma {:induction false} StatementsAppend(pieces: seq<string>, last: string)
    ensures Statements(pieces + [last]) == Statements(pieces) + if Trim(last) == "" then [] else [Trim(last)]
  {
    hide Trim;
    if pieces != [] {
      assert (pieces + [last])[1..] == pieces[1..] + [last];
      StatementsAppend(pieces[1..], last);
    }
  }

  lemma BlankOrText(s: string)
    ensures Trim(s) == "" ==> AllSpace(s)
  {
    var a, b := TrimSplits(s);
    if Trim(s) == "" {
      AllSpaceAppend(a, b);
      assert s == a + b;
    }
  }

  /** The body of the loop: renumber the text, pick the values. */
  method RewriteStatement<V>(statement: string, values: seq<V>) returns (query: Query<V>)
    ensures query == Rewrite(statement, values)
  {
    var tokens := Tokens(statement);
    var indexes := Indexes(tokens);
    ghost var renumbered := Renumbered(indexes, tokens);
    var bound: seq<Option<V>> := [];
    for k := 0 to |indexes|
      invariant |bound| == k && forall m :: 0 <= m < k ==> bound[m] == Bound(values, indexes[m])
    {
      bound := bound + [Bound(values, indexes[k])];
    }
    var text := "";
    for k := 0 to |tokens|
      invariant text + Render(renumbered[k..]) == Render(renumbered)
    {
      var token := tokens[k];
      if token.Ref? {
        token := Ref(Position(indexes, token.n));
      }
      RenderNext(text, renumbered, k);
      text := text + Print(token);
    }
    assert renumbered[|tokens|..] == [];
    query := Query(text, bound);
    assert bound == Rewrite(statement, values).values;
  }

  lemma RenderNext(text: string, tokens: seq<Token>, k: nat)
    requires k < |tokens|
    ensures text + Render(tokens[k..]) == text + Print(tokens[k]) + Render(tokens[k + 1..])
  {
    assert tokens[k..][0] == tokens[k] && tokens[k..][1..] == tokens[k + 1..];
  }

  /** executeStatements; `sent` are the queries in the order they are sent. */
  method ExecuteStatements<V>(sql: string, values: seq<V>) returns (sent: seq<Query<V>>)
    ensures sent == Queries(Statements(Pieces(sql)), values)
  {
    hide Rewrite, Trim, Pieces;
    var pieces := Pieces(sql);
    sent := [];
    ghost var taken: seq<string> := [];
    for i := 0 to |pieces|
      invariant Statements(pieces) == taken + Statements(pieces[i..])
      invariant sent == Queries(taken, values)
    {
      var statement := Trim(pieces[i]);
      assert pieces[i..][0] == pieces[i] && pieces[i..][1..] == pieces[i + 1..];
      if statement != "" {
        var query := RewriteStatement(statement, values);
        sent := sent + [query];
        taken := taken + [statement];
      }
    }
    assert pieces[|pieces|..] == [];
  }

  // ----- reading a rendered statement -----

  lemma {:induction false} ValueOfDecimal(n: nat)
    ensures Value(Decimal(n)) == n
  {
    var s := Decimal(n);
    if n >= 10 {
      ValueOfDecimal(n / 10);
      assert s[..|s| - 1] == Decimal(n / 10);
    } else {
      assert s[..0] == "";
    }
  }

  /** No digit stands where it would be read into what is before it. */
  predicate Readable(tokens: seq<Token>) {
    forall i :: 0 < i < |tokens| && tokens[i].Chr? && IsDigit(tokens[i].c) ==> tokens[i - 1].Chr? && tokens[i - 1].c != '$'
  }

  predicate StartsWithDigit(tokens: seq<Token>) {
    tokens != [] && tokens[0].Chr? && IsDigit(tokens[0].c)
  }

  lemma {:induction false} TokensAreReadable(s: string)
    ensures Readable(Tokens(s))
    ensures StartsWithDigit(Tokens(s)) <==> s != "" && IsDigit(s[0])
    decreases |s|
  {
    if s != "" {
      if s[0] == '$' && |s| > 1 && IsDigit(s[1]) {
        var k := DigitRun(s[1..]);
        var rest := s[k + 1..];
        TokensAreReadable(rest);
        assert rest != "" ==> s[1..][k] == rest[0];
        assert k > 0;
        ReadableBehind(Tokens(s)[0], Tokens(rest));
      } else {
        TokensAreReadable(s[1..]);
        ReadableBehind(Chr(s[0]), Tokens(s[1..]));
      }
    }
  }

  lemma ReadableBehind(first: Token, rest: seq<Token>)
    requires Readable(rest) && (StartsWithDigit(rest) ==> first.Chr? && first.c != '$')
    ensures Readable([first] + rest)
  {
    forall i | 0 < i < |[first] + rest|
      ensures ([first] + rest)[i] == rest[i - 1]
    {
    }
  }

  lemma RenderStarts(tokens: seq<Token>)
    ensures Render(tokens) == "" <==> tokens == []
    ensures tokens != [] ==> Render(tokens)[0] == if tokens[0].Chr? then tokens[0].c else '$'
  {
  }

  lemma {:induction false} RunOfDigits(digits: string, rest: string)
    requires (forall i :: 0 <= i < |digits| ==> IsDigit(digits[i])) && (rest != "" ==> !IsDigit(rest[0]))
    ensures DigitRun(digits + rest) == |digits|
  {
    if digits == "" {
      assert digits + rest == rest;
    } else {
      assert (digits + rest)[1..] == digits[1..] + rest;
      RunOfDigits(digits[1..], rest);
    }
  }

  /** A rendered statement is read back token by token. */
  lemma {:induction false} RenderedTokens(tokens: seq<Token>)
    requires Readable(tokens)
    ensures Tokens(Render(tokens)) == tokens
  {
    if tokens != [] {
      var rest := tokens[1..];
      assert Readable(rest);
      RenderedTokens(rest);
      RenderStarts(rest);
      var s := Render(tokens);
      assert tokens == [tokens[0]] + rest;
      if tokens[0].Ref? {
        var digits := Decimal(tokens[0].n);
        RenderedRef(tokens[0].n, Render(rest));
        ValueOfDecimal(tokens[0].n);
      } else {
        assert s == [tokens[0].c] + Render(rest) && s[1..] == Render(rest);
        assert |s| > 1 ==> s[1] == Render(rest)[0];
        assert rest != [] ==> rest[0] == tokens[1];
      }
    }
  }

  lemma RenderedRef(n: nat, rest: string)
    requires rest != "" ==> !IsDigit(rest[0])
    ensures var s := "$" + Decimal(n) + rest;
      && s[0] == '$' && |s| > 1 && IsDigit(s[1]) && DigitRun(s[1..]) == |Decimal(n)|
      && s[1..|Decimal(n)| + 1] == Decimal(n) && s[|Decimal(n)| + 1..] == rest
  {
    var digits := Decimal(n);
    var s := "$" + digits + rest;
    assert s[1..] == digits + rest;
    RunOfDigits(digits, rest);
    assert s[1] == digits[0];
  }

  // ----- the renumbering keeps the meaning -----

  lemma {:induction false} UniqueIs(s: seq<nat>)
    ensures forall x :: x in Unique(s) <==> x in s
    ensures forall i, j :: 0 <= i < j < |Unique(s)| ==> Unique(s)[i] != Unique(s)[j]
  {
    if s != [] {
      UniqueIs(s[..|s| - 1]);
      assert s == s[..|s| - 1] + [s[|s| - 1]];
    }
  }

  lemma {:induction false} RefsAre(tokens: seq<Token>)
    ensures forall n :: n in Refs(tokens) <==> Ref(n) in tokens
  {
    if tokens != [] {
      RefsAre(tokens[1..]);
      assert tokens == [tokens[0]] + tokens[1..];
    }
  }

  /** The indexes are the referenced numbers, strictly increasing. */
  lemma IndexesAre(tokens: seq<Token>)
    ensures var indexes := Indexes(tokens);
      && (forall n :: n in indexes <==> Ref(n) in tokens)
      && (forall i, j :: 0 <= i < j < |indexes| ==> indexes[i] < indexes[j])
  {
    var unique := Unique(Refs(tokens));
    var indexes := Indexes(tokens);
    UniqueIs(Refs(tokens));
    RefsAre(tokens);
    SortKeeps(Smaller(), unique);
    SortSorts(Smaller(), unique);
    forall n
      ensures n in indexes <==> Ref(n) in tokens
    {
      assert n in indexes <==> n in multiset(indexes);
      assert n in unique <==> n in multiset(unique);
    }
    DistinctStays(unique, indexes);
  }

  lemma DistinctStays(a: seq<nat>, b: seq<nat>)
    requires multiset(a) == multiset(b) && forall i, j :: 0 <= i < j < |a| ==> a[i] != a[j]
    ensures forall i, j :: 0 <= i < j < |b| ==> b[i] != b[j]
  {
    forall i, j | 0 <= i < j < |b|
      ensures b[i] != b[j]
    {
      Once(a, b[i]);
      Twice(b, i, j);
    }
  }

  lemma Twice(s: seq<nat>, i: nat, j: nat)
    requires i < j < |s|
    ensures s[i] == s[j] ==> multiset(s)[s[i]] >= 2
  {
    if s[i] == s[j] {
      assert s == s[..j] + [s[j]] + s[j + 1..];
      assert s[i] == s[..j][i];
      assert s[i] in multiset(s[..j]);
      assert multiset(s) == multiset(s[..j]) + multiset{s[j]} + multiset(s[j + 1..]);
    }
  }

  lemma {:induction false} Once(a: seq<nat>, x: nat)
    requires forall i, j :: 0 <= i < j < |a| ==> a[i] != a[j]
    ensures multiset(a)[x] <= 1
  {
    if a != [] {
      var n := |a| - 1;
      Once(a[..n], x);
      assert a == a[..n] + [a[n]];
      if a[n] == x {
        assert x !in a[..n];
      }
    }
  }

  /** `after` with the values `sent` means what `before` means with `values`: the text
      outside placeholders is the same, every placeholder is bound to the same value,
      placeholders keep their order, and the numbers used are exactly 1..k. */
  predicate SameMeaning<V(==)>(before: seq<Token>, values: seq<V>, after: seq<Token>, sent: seq<Option<V>>) {
    && |after| == |before|
    && (forall i :: 0 <= i < |before| && before[i].Chr? ==> after[i] == before[i])
    && (forall i :: 0 <= i < |before| && before[i].Ref? ==>
          after[i].Ref? && 1 <= after[i].n <= |sent|
          && sent[after[i].n - 1] == if 1 <= before[i].n <= |values| then Some(values[before[i].n - 1]) else None)
    && (forall i, j :: 0 <= i < |before| && 0 <= j < |before| && before[i].Ref? && before[j].Ref? ==>
          (before[i].n < before[j].n <==> after[i].n < after[j].n))
    && (forall p: nat :: 1 <= p <= |sent| ==> Ref(p) in after)
  }

  /** Every statement means the same after its placeholders are renumbered. */
  lemma RenumberingKeepsMeaning<V>(statement: string, values: seq<V>)
    ensures var query := Rewrite(statement, values);
      SameMeaning(Tokens(statement), values, Tokens(query.text), query.values)
  {
    var before := Tokens(statement);
    var indexes := Indexes(before);
    TokensAreReadable(statement);
    RenumberedReadable(indexes, before);
    RenderedTokens(Renumbered(indexes, before));
    IndexesAre(before);
    hide Tokens, Render, Indexes, Position, SameMeaning, Readable;
    MeaningOf(before, indexes, values, Rewrite(statement, values).values);
  }

  lemma MeaningOf<V>(before: seq<Token>, indexes: seq<nat>, values: seq<V>, sent: seq<Option<V>>)
    requires (forall n :: n in indexes <==> Ref(n) in before) && forall i, j :: 0 <= i < j < |indexes| ==> indexes[i] < indexes[j]
    requires |sent| == |indexes| && forall i :: 0 <= i < |indexes| ==> sent[i] == Bound(values, indexes[i])
    ensures SameMeaning(before, values, Renumbered(indexes, before), sent)
  {
    RefsKeepMeaning(before, indexes);
    EveryIndexIsUsed(before, indexes);
    hide Position;
    var after := Renumbered(indexes, before);
    forall i | 0 <= i < |before| && before[i].Ref?
      ensures after[i].Ref? && 1 <= after[i].n <= |sent|
      ensures sent[after[i].n - 1] == if 1 <= before[i].n <= |values| then Some(values[before[i].n - 1]) else None
    {
      assert indexes[after[i].n - 1] == before[i].n;
    }
  }

  lemma RenumberedReadable(indexes: seq<nat>, tokens: seq<Token>)
    requires Readable(tokens)
    ensures Readable(Renumbered(indexes, tokens))
  {
    hide Position;
  }

  lemma RefsKeepMeaning(before: seq<Token>, indexes: seq<nat>)
    requires (forall n :: n in indexes <==> Ref(n) in before) && forall i, j :: 0 <= i < j < |indexes| ==> indexes[i] < indexes[j]
    ensures var after := Renumbered(indexes, before);
      && (forall i :: 0 <= i < |before| && before[i].Ref? ==>
            after[i].Ref? && 1 <= after[i].n <= |indexes| && indexes[after[i].n - 1] == before[i].n)
      && (forall i, j :: 0 <= i < |before| && 0 <= j < |before| && before[i].Ref? && before[j].Ref? ==>
            (before[i].n < before[j].n <==> after[i].n < after[j].n))
  {
    hide Position;
    forall i | 0 <= i < |before| && before[i].Ref?
      ensures before[i].n in indexes
    {
      assert before[i] == Ref(before[i].n);
      assert Ref(before[i].n) in before;
    }
  }

  lemma EveryIndexIsUsed(before: seq<Token>, indexes: seq<nat>)
    requires (forall n :: n in indexes <==> Ref(n) in before) && forall i, j :: 0 <= i < j < |indexes| ==> indexes[i] < indexes[j]
    ensures var after := Renumbered(indexes, before);
      forall p: nat :: 1 <= p <= |indexes| ==> Ref(p) in after
  {
    hide Position;
    var after := Renumbered(indexes, before);
    forall p: nat | 1 <= p <= |indexes|
      ensures Ref(p) in after
    {
      assert indexes[p - 1] in indexes;
      var i :| 0 <= i < |before| && before[i] == Ref(indexes[p - 1]);
      var q := Position(indexes, indexes[p - 1]);
      assert after[i] == Ref(q) && indexes[q - 1] == indexes[p - 1];
      OnePlace(indexes, q - 1, p - 1);
      assert q == p && 0 <= i < |after| && after[i] == Ref(p);
    }
  }

  lemma OnePlace(indexes: seq<nat>, a: nat, b: nat)
    requires (forall i, j :: 0 <= i < j < |indexes| ==> indexes[i] < indexes[j]) && a < |indexes| && b < |indexes|
    requires indexes[a] == indexes[b]
    ensures a == b
  {
  }
}
