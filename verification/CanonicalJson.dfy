/** Canonical JSON (packages/domain/src/index.ts). */
module CanonicalJson {
  import opened Common
  import opened Ordering

  /** A JSON value.  A number is given by its text, which JSON.stringify determines;
      the fields of an object stand in some order and no key occurs twice. */
  datatype Json =
    | Null
    | Bool(value: bool)
    | Num(text: string)
    | Str(s: string)
    | Arr(items: seq<Json>)
    | Obj(fields: seq<Field>)
  datatype Field = Field(key: string, value: Json)

  predicate NumChar(c: char) {
    '0' <= c <= '9' || c == '-' || c == '+' || c == '.' || c == 'e'
  }

  predicate IsNumber(t: string) {
    t != "" && (t[0] == '-' || '0' <= t[0] <= '9') && forall i :: 0 <= i < |t| ==> NumChar(t[i])
  }

  predicate DistinctKeys(fields: seq<Field>) {
    forall i, j :: 0 <= i < j < |fields| ==> fields[i].key != fields[j].key
  }

  predicate Valid(v: Json)
    decreases v
  {
    match v
    case Num(t) => IsNumber(t)
    case Arr(items) => forall i :: 0 <= i < |items| ==> Valid(items[i])
    case Obj(fields) => DistinctKeys(fields) && forall i :: 0 <= i < |fields| ==> Valid(fields[i].value)
    case _ => true
  }

  // ----- JSON.stringify -----

  function HexDigit(n: nat): char
    requires n < 16
  {
    "0123456789abcdef"[n]
  }

  /** The escapes of JSON.stringify. */
  function Escape(c: char): string {
    if c == '"' then "\\\""
    else if c == '\\' then "\\\\"
    else if c == '\n' then "\\n"
    else if c == '\r' then "\\r"
    else if c == '\t' then "\\t"
    else if c == '\U{0008}' then "\\b"
    else if c == '\U{000C}' then "\\f"
    else if c < ' ' then "\\u00" + [HexDigit((c as int) / 16), HexDigit((c as int) % 16)]
    else [c]
  }

  function Escaped(s: string): string {
    if s == "" then "" else Escape(s[0]) + Escaped(s[1..])
  }

  function Quote(s: string): string {
    "\"" + Escaped(s) + "\""
  }

  /** More than the number of children: only there for termination. */
  function Width(v: Json): nat {
    match v
    case Arr(items) => |items| + 1
    case Obj(fields) => |fields| + 1
    case _ => 0
  }

  function Text(v: Json): string
    decreases v, Width(v)
  {
    match v
    case Null => "null"
    case Bool(b) => if b then "true" else "false"
    case Num(t) => t
    case Str(s) => Quote(s)
    case Arr(items) => "[" + Items(v, 0)
    case Obj(fields) => "{" + Fields(v, 0)
  }

  /** The items from `i` on, each but the first behind a comma, and the bracket. */
  function Items(v: Json, i: nat): string
    requires v.Arr? && i <= |v.items|
    decreases v, |v.items| - i
  {
    if i == |v.items| then "]"
    else (if i == 0 then "" else ",") + Text(v.items[i]) + Items(v, i + 1)
  }

  function Fields(v: Json, i: nat): string
    requires v.Obj? && i <= |v.fields|
    decreases v, |v.fields| - i
  {
    if i == |v.fields| then "}"
    else (if i == 0 then "" else ",") + Quote(v.fields[i].key) + ":" + Text(v.fields[i].value) + Fields(v, i + 1)
  }

  // ----- the printed text can be read in one way only -----

  lemma HexDigitUnique(n: nat, m: nat)
    requires n < 16 && m < 16 && HexDigit(n) == HexDigit(m)
    ensures n == m
  {
  }

  /** Escapes of the same shape are escapes of the same character. */
  lemma EscapeInjective(c: char, d: char)
    requires Escape(c) == Escape(d)
    ensures c == d
  {
    var a, b := Escape(c), Escape(d);
    if |a| == 6 {
      assert a[4] == b[4] && a[5] == b[5];
      HexDigitUnique((c as int) / 16, (d as int) / 16);
      HexDigitUnique((c as int) % 16, (d as int) % 16);
    }
    hide HexDigit;
    if |a| == 2 {
      assert a[1] == b[1];
    }
    if |a| == 1 {
      assert a[0] == b[0];
    }
  }

  /** The first two characters of an escape tell how long it is. */
  lemma EscapeShape(c: char)
    ensures var a := Escape(c);
      && |a| > 0 && (a[0] == '\\' <==> |a| > 1) && (|a| > 1 ==> |a| == if a[1] == 'u' then 6 else 2) && a[0] != '"'
      && (|a| == 1 ==> a == [c])
  {
    hide HexDigit;
  }

  lemma EscapeUnique(c: char, d: char, x: string, y: string)
    requires Escape(c) + x == Escape(d) + y
    ensures c == d && x == y
  {
    var a, b := Escape(c), Escape(d);
    EscapeShape(c);
    EscapeShape(d);
    hide Escape;
    assert a[0] == (a + x)[0] && b[0] == (b + y)[0];
    assert |a| > 1 ==> a[1] == (a + x)[1];
    assert |b| > 1 ==> b[1] == (b + y)[1];
    assert |a| == |b|;
    assert a == (a + x)[..|a|] && b == (b + y)[..|b|];
    assert x == (a + x)[|a|..] && y == (b + y)[|b|..];
    EscapeInjective(c, d);
  }

  /** The closing quote comes first exactly when nothing is left to read. */
  lemma EscapedHead(s: string, x: string)
    ensures var t := Escaped(s) + "\"" + x;
      && (t[0] == '"' <==> s == "")
      && (s == "" ==> t[1..] == x)
      && (s != "" ==> t == Escape(s[0]) + (Escaped(s[1..]) + "\"" + x))
  {
    if s != "" {
      EscapeShape(s[0]);
      var a, r := Escape(s[0]), Escaped(s[1..]);
      assert Escaped(s) == a + r;
      hide *;
      Regroup(a, r, x);
    }
  }

  lemma Regroup(a: string, r: string, x: string)
    requires a != ""
    ensures a + r + "\"" + x == a + (r + "\"" + x) && (a + r + "\"" + x)[0] == a[0]
  {
  }

  lemma {:induction false} EscapedUnique(s: string, t: string, x: string, y: string)
    requires Escaped(s) + "\"" + x == Escaped(t) + "\"" + y
    ensures s == t && x == y
    decreases |s|
  {
    EscapedHead(s, x);
    EscapedHead(t, y);
    hide Escaped, Escape;
    if s != "" {
      EscapeUnique(s[0], t[0], Escaped(s[1..]) + "\"" + x, Escaped(t[1..]) + "\"" + y);
      EscapedUnique(s[1..], t[1..], x, y);
      assert s == [s[0]] + s[1..] && t == [t[0]] + t[1..];
    }
  }

  lemma QuoteUnique(s: string, t: string, x: string, y: string)
    requires Quote(s) + x == Quote(t) + y
    ensures s == t && x == y
  {
    QuoteOpens(s, x);
    QuoteOpens(t, y);
    hide *;
    EscapedUnique(s, t, x, y);
  }

  lemma QuoteOpens(s: string, x: string)
    ensures (Quote(s) + x)[1..] == Escaped(s) + "\"" + x
  {
    hide Escaped;
  }

  /** What may follow a value inside a printed text. */
  predicate Stops(x: string) {
    x == "" || x[0] == ',' || x[0] == ']' || x[0] == '}'
  }

  function NumberLength(t: string): nat {
    if t != "" && NumChar(t[0]) then 1 + NumberLength(t[1..]) else 0
  }

  /** A number is read to its last character. */
  lemma {:induction false} NumberRead(t: string, x: string)
    requires (forall i :: 0 <= i < |t| ==> NumChar(t[i])) && Stops(x)
    ensures NumberLength(t + x) == |t|
  {
    if t == "" {
      assert t + x == x;
    } else {
      assert (t + x)[1..] == t[1..] + x;
      NumberRead(t[1..], x);
    }
  }

  lemma NumberUnique(t: string, u: string, x: string, y: string)
    requires IsNumber(t) && IsNumber(u) && Stops(x) && Stops(y) && t + x == u + y
    ensures t == u && x == y
  {
    NumberRead(t, x);
    NumberRead(u, y);
    assert t == (t + x)[..|t|] && u == (u + y)[..|u|];
    assert x == (t + x)[|t|..] && y == (u + y)[|u|..];
  }

  /** The first character tells the kind of value. */
  function Opening(v: Json): char {
    match v
    case Null => 'n'
    case Bool(b) => if b then 't' else 'f'
    case Num(t) => if t == "" then ' ' else t[0]
    case Str(_) => '"'
    case Arr(_) => '['
    case Obj(_) => '{'
  }

  lemma TextOpens(v: Json)
    requires Valid(v)
    ensures Text(v) != "" && Text(v)[0] == Opening(v)
    ensures Opening(v) != ']' && Opening(v) != ','
    ensures v.Num? ==> Opening(v) == '-' || '0' <= Opening(v) <= '9'
  {
  }

  lemma ItemsStop(v: Json, i: nat, x: string)
    requires v.Arr? && 0 < i <= |v.items|
    ensures Stops(Items(v, i) + x)
  {
  }

  lemma FieldsStop(v: Json, i: nat, x: string)
    requires v.Obj? && 0 < i <= |v.fields|
    ensures Stops(Fields(v, i) + x)
  {
  }

  /** A value is determined by its text, whatever follows it. */
  lemma {:induction false} TextUnique(a: Json, b: Json, x: string, y: string)
    requires Valid(a) && Valid(b) && Stops(x) && Stops(y) && Text(a) + x == Text(b) + y
    ensures a == b && x == y
    decreases a, Width(a)
  {
    TextOpens(a);
    TextOpens(b);
    assert (Text(a) + x)[0] == Opening(a) && (Text(b) + y)[0] == Opening(b);
    match a
    case Null => SameLiteral("null", x, y);
    case Bool(v) => SameLiteral(if v then "true" else "false", x, y);
    case Num(t) => NumberUnique(t, b.text, x, y);
    case Str(s) => QuoteUnique(s, b.s, x, y);
    case Arr(items) =>
      DropFirst("[", Items(a, 0), x);
      DropFirst("[", Items(b, 0), y);
      ItemsUnique(a, b, 0, x, y);
    case Obj(fields) =>
      DropFirst("{", Fields(a, 0), x);
      DropFirst("{", Fields(b, 0), y);
      FieldsUnique(a, b, 0, x, y);
  }

  lemma SameLiteral(t: string, x: string, y: string)
    requires t + x == t + y
    ensures x == y
  {
    assert x == (t + x)[|t|..] && y == (t + y)[|t|..];
  }

  lemma DropFirst(c: string, s: string, x: string)
    requires |c| == 1
    ensures (c + s + x)[1..] == s + x
  {
  }

  lemma {:induction false} ItemsUnique(a: Json, b: Json, i: nat, x: string, y: string)
    requires Valid(a) && Valid(b) && a.Arr? && b.Arr? && i <= |a.items| && i <= |b.items| && a.items[..i] == b.items[..i]
    requires Items(a, i) + x == Items(b, i) + y
    ensures a == b && x == y
    decreases a, |a.items| - i
  {
    var comma := if i == 0 then "" else ",";
    if i < |a.items| {
      TextOpens(a.items[i]);
      ItemHead(comma, Text(a.items[i]), Items(a, i + 1), x);
      ItemsStop(a, i + 1, x);
    }
    if i < |b.items| {
      TextOpens(b.items[i]);
      ItemHead(comma, Text(b.items[i]), Items(b, i + 1), y);
      ItemsStop(b, i + 1, y);
    }
    assert i == |a.items| ==> (Items(a, i) + x)[0] == ']' && (Items(a, i) + x)[1..] == x;
    assert i == |b.items| ==> (Items(b, i) + y)[0] == ']' && (Items(b, i) + y)[1..] == y;
    if i < |a.items| && i < |b.items| {
      TextUnique(a.items[i], b.items[i], Items(a, i + 1) + x, Items(b, i + 1) + y);
      assert a.items[..i + 1] == a.items[..i] + [a.items[i]] && b.items[..i + 1] == b.items[..i] + [b.items[i]];
      ItemsUnique(a, b, i + 1, x, y);
    }
  }

  lemma ItemHead(comma: string, head: string, rest: string, x: string)
    requires head != "" && |comma| <= 1
    ensures (comma + head + rest + x)[|comma|..] == head + (rest + x)
    ensures (comma + head + rest + x)[0] == if comma == "" then head[0] else comma[0]
  {
  }

  lemma {:induction false} FieldsUnique(a: Json, b: Json, i: nat, x: string, y: string)
    requires Valid(a) && Valid(b) && a.Obj? && b.Obj? && i <= |a.fields| && i <= |b.fields| && a.fields[..i] == b.fields[..i]
    requires Fields(a, i) + x == Fields(b, i) + y
    ensures a == b && x == y
    decreases a, |a.fields| - i
  {
    var comma := if i == 0 then "" else ",";
    if i < |a.fields| {
      FieldHead(comma, a.fields[i].key, Text(a.fields[i].value), Fields(a, i + 1), x);
      FieldsStop(a, i + 1, x);
    }
    if i < |b.fields| {
      FieldHead(comma, b.fields[i].key, Text(b.fields[i].value), Fields(b, i + 1), y);
      FieldsStop(b, i + 1, y);
    }
    assert i == |a.fields| ==> (Fields(a, i) + x)[0] == '}' && (Fields(a, i) + x)[1..] == x;
    assert i == |b.fields| ==> (Fields(b, i) + y)[0] == '}' && (Fields(b, i) + y)[1..] == y;
    if i < |a.fields| && i < |b.fields| {
      FieldUnique(a.fields[i].key, b.fields[i].key, Text(a.fields[i].value), Fields(a, i + 1), Text(b.fields[i].value), Fields(b, i + 1), x, y);
      TextUnique(a.fields[i].value, b.fields[i].value, Fields(a, i + 1) + x, Fields(b, i + 1) + y);
      assert a.fields[..i + 1] == a.fields[..i] + [a.fields[i]] && b.fields[..i + 1] == b.fields[..i] + [b.fields[i]];
      FieldsUnique(a, b, i + 1, x, y);
    }
  }

  lemma FieldHead(comma: string, key: string, value: string, rest: string, x: string)
    requires |comma| <= 1
    ensures var t := comma + Quote(key) + ":" + value + rest + x;
      t[|comma|..] == Quote(key) + (":" + (value + (rest + x))) && t[0] == if comma == "" then '"' else comma[0]
  {
    hide Escaped;
  }

  lemma FieldUnique(k: string, l: string, v: string, vr: string, w: string, wr: string, x: string, y: string)
    requires Quote(k) + (":" + (v + (vr + x))) == Quote(l) + (":" + (w + (wr + y)))
    ensures k == l && v + (vr + x) == w + (wr + y)
  {
    QuoteUnique(k, l, ":" + (v + (vr + x)), ":" + (w + (wr + y)));
    assert (":" + (v + (vr + x)))[1..] == v + (vr + x);
    assert (":" + (w + (wr + y)))[1..] == w + (wr + y);
  }

  // ----- canonicalValue -----

  /** canonicalValue as JSON.stringify enumerates it.  `less` is that enumeration
      order: integer-like keys first, then the others as localeCompare sorts them. */
  function Canonical(less: (string, string) -> bool, v: Json): Json
    decreases v, Width(v)
  {
    match v
    case Arr(items) => Arr(CanonicalItems(less, v, 0))
    case Obj(fields) => Obj(Sort(KeyOrder(less), CanonicalFields(less, v, 0)))
    case _ => v
  }

  function CanonicalItems(less: (string, string) -> bool, v: Json, i: nat): (r: seq<Json>)
    requires v.Arr? && i <= |v.items|
    ensures |r| == |v.items| - i
    decreases v, |v.items| - i
  {
    if i == |v.items| then [] else [Canonical(less, v.items[i])] + CanonicalItems(less, v, i + 1)
  }

  function CanonicalFields(less: (string, string) -> bool, v: Json, i: nat): (r: seq<Field>)
    requires v.Obj? && i <= |v.fields|
    ensures |r| == |v.fields| - i
    decreases v, |v.fields| - i
  {
    if i == |v.fields| then []
    else [Field(v.fields[i].key, Canonical(less, v.fields[i].value))] + CanonicalFields(less, v, i + 1)
  }

  /** canonicalJson. */
  function CanonicalJson(less: (string, string) -> bool, v: Json): string {
    Text(Canonical(less, v)) + "\n"
  }

  // ----- equality up to the order of keys -----

  /** A value with its objects as maps: what is left when the order of keys is forgotten. */
  datatype Shape =
    | NullShape | BoolShape(value: bool) | NumShape(text: string) | StrShape(s: string)
    | ArrShape(items: seq<Shape>)
    | ObjShape(fields: map<string, Shape>)

  function ShapeOf(v: Json): Shape
    decreases v, Width(v)
  {
    match v
    case Null => NullShape
    case Bool(b) => BoolShape(b)
    case Num(t) => NumShape(t)
    case Str(s) => StrShape(s)
    case Arr(items) => ArrShape(ItemShapes(v, 0))
    case Obj(fields) => ObjShape(FieldShapes(v, 0))
  }

  function ItemShapes(v: Json, i: nat): (r: seq<Shape>)
    requires v.Arr? && i <= |v.items|
    ensures |r| == |v.items| - i
    decreases v, |v.items| - i
  {
    if i == |v.items| then [] else [ShapeOf(v.items[i])] + ItemShapes(v, i + 1)
  }

  function FieldShapes(v: Json, i: nat): map<string, Shape>
    requires v.Obj? && i <= |v.fields|
    decreases v, |v.fields| - i
  {
    if i == |v.fields| then map[] else FieldShapes(v, i + 1)[v.fields[i].key := ShapeOf(v.fields[i].value)]
  }

  lemma {:induction false} ItemShapeAt(v: Json, i: nat, k: nat)
    requires v.Arr? && i <= k < |v.items|
    ensures ItemShapes(v, i)[k - i] == ShapeOf(v.items[k])
    decreases k - i
  {
    if i < k {
      ItemShapeAt(v, i + 1, k);
    }
  }

  lemma {:induction false} CanonicalItemAt(less: (string, string) -> bool, v: Json, i: nat, k: nat)
    requires v.Arr? && i <= k < |v.items|
    ensures CanonicalItems(less, v, i)[k - i] == Canonical(less, v.items[k])
    decreases k - i
  {
    if i < k {
      CanonicalItemAt(less, v, i + 1, k);
    }
  }

  lemma {:induction false} CanonicalFieldAt(less: (string, string) -> bool, v: Json, i: nat, k: nat)
    requires v.Obj? && i <= k < |v.fields|
    ensures CanonicalFields(less, v, i)[k - i] == Field(v.fields[k].key, Canonical(less, v.fields[k].value))
    decreases k - i
  {
    if i < k {
      CanonicalFieldAt(less, v, i + 1, k);
    }
  }

  /** The map of an object's fields, read off its list. */
  lemma {:induction false} FieldShapesAre(v: Json, i: nat)
    requires v.Obj? && DistinctKeys(v.fields) && i <= |v.fields|
    ensures forall k :: i <= k < |v.fields| ==> v.fields[k].key in FieldShapes(v, i) && FieldShapes(v, i)[v.fields[k].key] == ShapeOf(v.fields[k].value)
    ensures forall key :: key in FieldShapes(v, i) ==> exists k :: i <= k < |v.fields| && v.fields[k].key == key
    decreases |v.fields| - i
  {
    if i < |v.fields| {
      FieldShapesAre(v, i + 1);
    }
  }

  // ----- the same text exactly for the same shape -----

  function KeyOrder(less: (string, string) -> bool): (Field, Field) -> bool {
    (a: Field, b: Field) => less(a.key, b.key)
  }

  lemma KeyOrderIsStrict(less: (string, string) -> bool)
    requires TotalOrder(less)
    ensures StrictOrder(KeyOrder(less))
  {
    var order := KeyOrder(less);
    forall a: Field
      ensures !order(a, a)
    {
      assert !less(a.key, a.key);
    }
    forall a: Field, b: Field, c: Field
      ensures order(a, b) && order(b, c) ==> order(a, c)
      ensures order(a, c) ==> order(a, b) || order(b, c)
    {
      assert order(a, b) == less(a.key, b.key) && order(b, c) == less(b.key, c.key) && order(a, c) == less(a.key, c.key);
    }
  }

  lemma NoKeyTies(less: (string, string) -> bool, fields: seq<Field>)
    requires TotalOrder(less) && DistinctKeys(fields)
    ensures NoTies(KeyOrder(less), fields)
  {
  }

  /** Canonical fields keep the keys. */
  lemma CanonicalKeys(less: (string, string) -> bool, v: Json)
    requires v.Obj? && DistinctKeys(v.fields)
    ensures DistinctKeys(CanonicalFields(less, v, 0))
  {
    var c := CanonicalFields(less, v, 0);
    forall k | 0 <= k < |c|
      ensures c[k].key == v.fields[k].key
    {
      CanonicalFieldAt(less, v, 0, k);
    }
  }

  /** Field lists with the same pairs are permutations of each other. */
  lemma {:induction false} SamePairs(a: seq<Field>, b: seq<Field>)
    requires DistinctKeys(a) && DistinctKeys(b)
    requires forall f :: f in a <==> f in b
    ensures multiset(a) == multiset(b)
  {
    forall f: Field
      ensures multiset(a)[f] == multiset(b)[f]
    {
      OnceAtMost(a, f);
      OnceAtMost(b, f);
    }
  }

  lemma {:induction false} OnceAtMost(a: seq<Field>, f: Field)
    requires DistinctKeys(a)
    ensures multiset(a)[f] == if f in a then 1 else 0
  {
    if a != [] {
      var n := |a| - 1;
      OnceAtMost(a[..n], f);
      assert a == a[..n] + [a[n]];
      if a[n] == f {
        assert f !in a[..n] by {
          forall i | 0 <= i < n
            ensures a[i] != f
          {
            assert a[i].key != a[n].key;
          }
        }
      }
    }
  }

  /** Values of the same shape have the same canonical form. */
  lemma {:induction false} SameShapeSameForm(less: (string, string) -> bool, a: Json, b: Json)
    requires TotalOrder(less) && Valid(a) && Valid(b) && ShapeOf(a) == ShapeOf(b)
    ensures Canonical(less, a) == Canonical(less, b)
    decreases a
  {
    match a
    case Arr(items) =>
      forall k | 0 <= k < |items|
        ensures Canonical(less, items[k]) == Canonical(less, b.items[k])
      {
        ItemShapeAt(a, 0, k);
        ItemShapeAt(b, 0, k);
        SameShapeSameForm(less, items[k], b.items[k]);
      }
      SameItems(less, a, b);
    case Obj(fields) =>
      FieldShapesAre(a, 0);
      FieldShapesAre(b, 0);
      forall k, l | 0 <= k < |fields| && 0 <= l < |b.fields| && fields[k].key == b.fields[l].key
        ensures Canonical(less, fields[k].value) == Canonical(less, b.fields[l].value)
      {
        SameShapeSameForm(less, fields[k].value, b.fields[l].value);
      }
      SameFields(less, a, b);
    case _ =>
  }

  lemma SameItems(less: (string, string) -> bool, a: Json, b: Json)
    requires a.Arr? && b.Arr? && |a.items| == |b.items|
    requires forall k :: 0 <= k < |a.items| ==> Canonical(less, a.items[k]) == Canonical(less, b.items[k])
    ensures Canonical(less, a) == Canonical(less, b)
  {
    forall k | 0 <= k < |a.items|
      ensures CanonicalItems(less, a, 0)[k] == CanonicalItems(less, b, 0)[k]
    {
      CanonicalItemAt(less, a, 0, k);
      CanonicalItemAt(less, b, 0, k);
    }
    assert CanonicalItems(less, a, 0) == CanonicalItems(less, b, 0);
  }

  /** Every canonical field of one object is one of the other. */
  lemma FieldsWithin(less: (string, string) -> bool, a: Json, b: Json)
    requires a.Obj? && b.Obj?
    requires forall k :: 0 <= k < |a.fields| ==> exists l :: 0 <= l < |b.fields| && a.fields[k].key == b.fields[l].key
    requires forall k, l :: 0 <= k < |a.fields| && 0 <= l < |b.fields| && a.fields[k].key == b.fields[l].key ==>
      Canonical(less, a.fields[k].value) == Canonical(less, b.fields[l].value)
    ensures forall f :: f in CanonicalFields(less, a, 0) ==> f in CanonicalFields(less, b, 0)
  {
    var c, d := CanonicalFields(less, a, 0), CanonicalFields(less, b, 0);
    forall k | 0 <= k < |c|
      ensures c[k] in d
    {
      CanonicalFieldAt(less, a, 0, k);
      var l :| 0 <= l < |b.fields| && a.fields[k].key == b.fields[l].key;
      CanonicalFieldAt(less, b, 0, l);
      assert c[k] == d[l];
    }
  }

  lemma SameFields(less: (string, string) -> bool, a: Json, b: Json)
    requires TotalOrder(less) && a.Obj? && b.Obj? && DistinctKeys(a.fields) && DistinctKeys(b.fields)
    requires FieldShapes(a, 0) == FieldShapes(b, 0)
    requires forall k, l :: 0 <= k < |a.fields| && 0 <= l < |b.fields| && a.fields[k].key == b.fields[l].key ==>
      Canonical(less, a.fields[k].value) == Canonical(less, b.fields[l].value)
    ensures Canonical(less, a) == Canonical(less, b)
  {
    FieldShapesAre(a, 0);
    FieldShapesAre(b, 0);
    forall k | 0 <= k < |a.fields|
      ensures exists l :: 0 <= l < |b.fields| && a.fields[k].key == b.fields[l].key
    {
      assert a.fields[k].key in FieldShapes(b, 0);
    }
    forall l | 0 <= l < |b.fields|
      ensures exists k :: 0 <= k < |a.fields| && b.fields[l].key == a.fields[k].key
    {
      assert b.fields[l].key in FieldShapes(a, 0);
    }
    hide FieldShapes, Canonical;
    FieldsWithin(less, a, b);
    FieldsWithin(less, b, a);
    CanonicalKeys(less, a);
    CanonicalKeys(less, b);
    SamePairs(CanonicalFields(less, a, 0), CanonicalFields(less, b, 0));
    KeyOrderIsStrict(less);
    NoKeyTies(less, CanonicalFields(less, a, 0));
    SortForgetsOrder(KeyOrder(less), CanonicalFields(less, a, 0), CanonicalFields(less, b, 0));
    SortedFields(less, a);
    SortedFields(less, b);
  }

  lemma SortedFields(less: (string, string) -> bool, v: Json)
    requires v.Obj?
    ensures Canonical(less, v) == Obj(Sort(KeyOrder(less), CanonicalFields(less, v, 0)))
  {
  }

  // ----- the canonical form has the same shape -----

  lemma SortedPairs(less: (string, string) -> bool, fields: seq<Field>)
    requires DistinctKeys(fields)
    ensures var sorted := Sort(KeyOrder(less), fields);
      DistinctKeys(sorted) && forall f :: f in sorted <==> f in fields
  {
    var sorted := Sort(KeyOrder(less), fields);
    SortKeeps(KeyOrder(less), fields);
    hide *;
    SamePairsOf(sorted, fields);
  }

  lemma SamePairsOf(sorted: seq<Field>, fields: seq<Field>)
    requires DistinctKeys(fields) && multiset(sorted) == multiset(fields)
    ensures DistinctKeys(sorted) && forall f :: f in sorted <==> f in fields
  {
    forall f: Field
      ensures f in sorted <==> f in fields
    {
      assert f in sorted <==> f in multiset(sorted);
      assert f in fields <==> f in multiset(fields);
    }
    forall i, j | 0 <= i < j < |sorted|
      ensures sorted[i].key != sorted[j].key
    {
      OnceAtMost(fields, sorted[i]);
      Twice(sorted, i, j);
      assert sorted[i] in sorted && sorted[j] in sorted;
      KeyDecides(fields, sorted[i], sorted[j]);
    }
  }

  lemma KeyDecides(fields: seq<Field>, f: Field, g: Field)
    requires DistinctKeys(fields) && f in fields && g in fields
    ensures f.key == g.key ==> f == g
  {
  }

  lemma Twice(s: seq<Field>, i: nat, j: nat)
    requires i < j < |s|
    ensures s[i] == s[j] ==> multiset(s)[s[i]] >= 2
  {
    if s[i] == s[j] {
      assert s == s[..j] + [s[j]] + s[j + 1..];
      assert s[i] == s[..j][i];
      assert s[i] in multiset(s[..j]);
      assert multiset(s) == multiset(s[..j]) + multiset{s[j]} + multiset(s[j + 1..]);
    }
  }

  lemma {:induction false} CanonicalIsValid(less: (string, string) -> bool, v: Json)
    requires Valid(v)
    ensures Valid(Canonical(less, v))
    decreases v
  {
    match v
    case Arr(items) =>
      forall k | 0 <= k < |items|
        ensures Valid(CanonicalItems(less, v, 0)[k])
      {
        CanonicalItemAt(less, v, 0, k);
        CanonicalIsValid(less, items[k]);
      }
    case Obj(fields) =>
      var c := CanonicalFields(less, v, 0);
      forall k | 0 <= k < |c|
        ensures Valid(c[k].value)
      {
        CanonicalFieldAt(less, v, 0, k);
        CanonicalIsValid(less, fields[k].value);
      }
      CanonicalKeys(less, v);
      SortedPairs(less, c);
      var sorted := Sort(KeyOrder(less), c);
      forall k | 0 <= k < |sorted|
        ensures Valid(sorted[k].value)
      {
        assert sorted[k] in c;
      }
    case _ =>
  }

  lemma {:induction false} CanonicalKeepsShape(less: (string, string) -> bool, v: Json)
    requires Valid(v)
    ensures ShapeOf(Canonical(less, v)) == ShapeOf(v)
    decreases v
  {
    match v
    case Arr(items) =>
      var c := Canonical(less, v);
      forall k | 0 <= k < |items|
        ensures ItemShapes(c, 0)[k] == ItemShapes(v, 0)[k]
      {
        CanonicalItemAt(less, v, 0, k);
        CanonicalKeepsShape(less, items[k]);
        ItemShapeAt(c, 0, k);
        ItemShapeAt(v, 0, k);
      }
      assert ItemShapes(c, 0) == ItemShapes(v, 0);
    case Obj(fields) =>
      forall k | 0 <= k < |fields|
        ensures ShapeOf(Canonical(less, fields[k].value)) == ShapeOf(fields[k].value)
      {
        CanonicalKeepsShape(less, fields[k].value);
      }
      ObjectKeepsShape(less, v);
    case _ =>
  }

  /** Objects with the same keys, and values of the same shape under each. */
  lemma SameFieldShapes(c: Json, v: Json)
    requires c.Obj? && v.Obj? && DistinctKeys(c.fields) && DistinctKeys(v.fields)
    requires forall k :: 0 <= k < |v.fields| ==> HasField(c, v.fields[k].key, ShapeOf(v.fields[k].value))
    requires forall i :: 0 <= i < |c.fields| ==> HasField(v, c.fields[i].key, ShapeOf(c.fields[i].value))
    ensures FieldShapes(c, 0) == FieldShapes(v, 0)
  {
    FieldShapesAre(c, 0);
    FieldShapesAre(v, 0);
    hide FieldShapes, ShapeOf;
    forall key | key in FieldShapes(v, 0)
      ensures key in FieldShapes(c, 0) && FieldShapes(c, 0)[key] == FieldShapes(v, 0)[key]
    {
      var k :| 0 <= k < |v.fields| && v.fields[k].key == key;
      assert HasField(c, v.fields[k].key, ShapeOf(v.fields[k].value));
    }
    forall key | key in FieldShapes(c, 0)
      ensures key in FieldShapes(v, 0)
    {
      var i :| 0 <= i < |c.fields| && c.fields[i].key == key;
      assert HasField(v, c.fields[i].key, ShapeOf(c.fields[i].value));
    }
  }

  ghost predicate HasField(v: Json, key: string, shape: Shape)
    requires v.Obj?
  {
    exists k :: 0 <= k < |v.fields| && v.fields[k].key == key && ShapeOf(v.fields[k].value) == shape
  }

  lemma ObjectKeepsShape(less: (string, string) -> bool, v: Json)
    requires v.Obj? && DistinctKeys(v.fields)
    requires forall k :: 0 <= k < |v.fields| ==> ShapeOf(Canonical(less, v.fields[k].value)) == ShapeOf(v.fields[k].value)
    ensures ShapeOf(Canonical(less, v)) == ShapeOf(v)
  {
    var f := CanonicalFields(less, v, 0);
    CanonicalKeys(less, v);
    SortedPairs(less, f);
    SortedFields(less, v);
    var c := Canonical(less, v);
    assert ShapeOf(c) == ObjShape(FieldShapes(c, 0)) && ShapeOf(v) == ObjShape(FieldShapes(v, 0));
    hide FieldShapes, ShapeOf, Canonical, CanonicalFields, DistinctKeys;
    forall k | 0 <= k < |v.fields|
      ensures HasField(c, v.fields[k].key, ShapeOf(v.fields[k].value))
    {
      CanonicalFieldAt(less, v, 0, k);
      assert f[k] in c.fields;
    }
    forall i | 0 <= i < |c.fields|
      ensures HasField(v, c.fields[i].key, ShapeOf(c.fields[i].value))
    {
      assert c.fields[i] in f;
      var k :| 0 <= k < |f| && f[k] == c.fields[i];
      CanonicalFieldAt(less, v, 0, k);
    }
    SameFieldShapes(c, v);
  }

  /** Two JSON values print the same exactly when they are equal up to the order of
      their objects' keys. */
  lemma CanonicalJsonExact(less: (string, string) -> bool, a: Json, b: Json)
    requires TotalOrder(less) && Valid(a) && Valid(b)
    ensures CanonicalJson(less, a) == CanonicalJson(less, b) <==> ShapeOf(a) == ShapeOf(b)
  {
    if ShapeOf(a) == ShapeOf(b) {
      SameShapeSameForm(less, a, b);
    }
    if CanonicalJson(less, a) == CanonicalJson(less, b) {
      CanonicalIsValid(less, a);
      CanonicalIsValid(less, b);
      var c, d := Canonical(less, a), Canonical(less, b);
      assert Text(c) == CanonicalJson(less, a)[..|Text(c)|] && Text(d) == CanonicalJson(less, b)[..|Text(d)|];
      assert Text(c) + "" == Text(c) && Text(d) + "" == Text(d);
      TextUnique(c, d, "", "");
      CanonicalKeepsShape(less, a);
      CanonicalKeepsShape(less, b);
    }
  }
}
