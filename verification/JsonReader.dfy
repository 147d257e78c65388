/** A reader of JSON after RFC 8259, without white space between tokens: what is printed
    is JSON, and it is the value that was printed. */
module JsonReader {
  import opened Common
  import opened CanonicalJson

  // ----- strings: section 7 of RFC 8259 -----

  function HexValue(c: char): Option<nat> {
    if '0' <= c <= '9' then Some(c as nat - '0' as nat)
    else if 'a' <= c <= 'f' then Some(c as nat - 'a' as nat + 10)
    else if 'A' <= c <= 'F' then Some(c as nat - 'A' as nat + 10)
    else None
  }

  /** The two-character escapes. */
  function Meaning(c: char): Option<char> {
    match c
    case '"' => Some('"')
    case '\\' => Some('\\')
    case '/' => Some('/')
    case 'b' => Some('\U{0008}')
    case 'f' => Some('\U{000C}')
    case 'n' => Some('\n')
    case 'r' => Some('\r')
    case 't' => Some('\t')
    case _ => None
  }

  /** One character of a string and the text behind it; of the \u escapes those below 256. */
  function ReadChar(t: string): (r: Option<(char, string)>)
    ensures r.Some? ==> |r.value.1| < |t|
  {
    if t == "" || t[0] == '"' || t[0] < ' ' then None
    else if t[0] != '\\' then Some((t[0], t[1..]))
    else if |t| > 1 && Meaning(t[1]).Some? then Some((Meaning(t[1]).value, t[2..]))
    else if |t| > 5 && t[1] == 'u' && t[2] == '0' && t[3] == '0' && HexValue(t[4]).Some? && HexValue(t[5]).Some?
    then Some(((16 * HexValue(t[4]).value + HexValue(t[5]).value) as char, t[6..]))
    else None
  }

  /** A string behind its opening quote, and the text behind the closing one. */
  function ReadString(t: string): (r: Option<(string, string)>)
    ensures r.Some? ==> |r.value.1| < |t|
    decreases |t|
  {
    if t != "" && t[0] == '"' then Some(("", t[1..]))
    else
      var first := ReadChar(t);
      if first.None? then None
      else
        var rest := ReadString(first.value.1);
        if rest.None? then None else Some(([first.value.0] + rest.value.0, rest.value.1))
  }

  // ----- values -----

  function ReadValue(t: string): (r: Option<(Json, string)>)
    ensures r.Some? ==> |r.value.1| < |t|
    decreases |t|, 1
  {
    if t == "" then None
    else if "null" <= t then Some((Null, t[4..]))
    else if "true" <= t then Some((Bool(true), t[4..]))
    else if "false" <= t then Some((Bool(false), t[5..]))
    else if t[0] == '"' then
      var s := ReadString(t[1..]);
      if s.None? then None else Some((Str(s.value.0), s.value.1))
    else if t[0] == '[' then
      if |t| > 1 && t[1] == ']' then Some((Arr([]), t[2..]))
      else
        var first := ReadValue(t[1..]);
        if first.None? then None else ReadItems(first.value.1, [first.value.0])
    else if t[0] == '{' then
      if |t| > 1 && t[1] == '}' then Some((Obj([]), t[2..]))
      else
        var first := ReadField(t[1..]);
        if first.None? then None else ReadFields(first.value.1, [first.value.0])
    else
      var n := NumberLength(t);
      if n > 0 && n <= |t| then Some((Num(t[..n]), t[n..])) else None
  }

  /** The rest of an array behind an item. */
  function ReadItems(t: string, items: seq<Json>): (r: Option<(Json, string)>)
    ensures r.Some? ==> |r.value.1| < |t|
    decreases |t|, 0
  {
    if t != "" && t[0] == ']' then Some((Arr(items), t[1..]))
    else if t != "" && t[0] == ',' then
      var next := ReadValue(t[1..]);
      if next.None? then None else ReadItems(next.value.1, items + [next.value.0])
    else None
  }

  function ReadField(t: string): (r: Option<(Field, string)>)
    ensures r.Some? ==> |r.value.1| < |t|
    decreases |t|, 2
  {
    if t == "" || t[0] != '"' then None
    else
      var key := ReadString(t[1..]);
      if key.None? || key.value.1 == "" || key.value.1[0] != ':' then None
      else
        var value := ReadValue(key.value.1[1..]);
        if value.None? then None else Some((Field(key.value.0, value.value.0), value.value.1))
  }

  function ReadFields(t: string, fields: seq<Field>): (r: Option<(Json, string)>)
    ensures r.Some? ==> |r.value.1| < |t|
    decreases |t|, 0
  {
    if t != "" && t[0] == '}' then Some((Obj(fields), t[1..]))
    else if t != "" && t[0] == ',' then
      var next := ReadField(t[1..]);
      if next.None? then None else ReadFields(next.value.1, fields + [next.value.0])
    else None
  }

  // ----- what is printed is read back -----

  lemma HexRead(n: nat)
    requires n < 16
    ensures HexValue(HexDigit(n)) == Some(n)
  {
  }

  /** Every escape means its character. */
  lemma EscapeRead(c: char, x: string)
    ensures ReadChar(Escape(c) + x) == Some((c, x))
  {
    var t := Escape(c) + x;
    if |Escape(c)| == 6 {
      HexRead((c as int) / 16);
      HexRead((c as int) % 16);
      assert t[0] == '\\' && t[1] == 'u' && t[2] == '0' && t[3] == '0';
      assert t[4] == HexDigit((c as int) / 16) && t[5] == HexDigit((c as int) % 16) && t[6..] == x;
      hide HexValue, HexDigit;
    } else {
      hide HexValue;
      assert t[|Escape(c)|..] == x && t[0] == Escape(c)[0];
      assert |Escape(c)| > 1 ==> t[1] == Escape(c)[1];
    }
  }

  lemma {:induction false} StringRead(s: string, x: string)
    ensures ReadString(Escaped(s) + "\"" + x) == Some((s, x))
  {
    var t := Escaped(s) + "\"" + x;
    EscapedHead(s, x);
    if s != "" {
      EscapeRead(s[0], Escaped(s[1..]) + "\"" + x);
      StringRead(s[1..], x);
      assert s == [s[0]] + s[1..];
      hide ReadChar, Escape, Escaped;
    }
  }

  lemma QuoteRead(s: string, x: string)
    ensures var t := Quote(s) + x; t != "" && t[0] == '"' && ReadString(t[1..]) == Some((s, x))
  {
    QuoteOpens(s, x);
    StringRead(s, x);
    hide Escaped, ReadString;
  }

  /** Words are told apart by their first letter. */
  lemma WordRead(word: string, x: string)
    requires word == "null" || word == "true" || word == "false"
    ensures ReadValue(word + x) == Some((if word == "null" then Null else Bool(word == "true"), x))
  {
    var t := word + x;
    assert t[..|word|] == word && t[|word|..] == x && t[0] == word[0];
    hide ReadString, ReadItems, ReadFields, NumberLength;
  }

  lemma NoWord(t: string)
    requires t != "" && t[0] != 'n' && t[0] != 't' && t[0] != 'f'
    ensures !("null" <= t) && !("true" <= t) && !("false" <= t)
  {
  }

  lemma NumberReadBack(n: string, x: string)
    requires IsNumber(n) && Stops(x)
    ensures ReadValue(n + x) == Some((Num(n), x))
  {
    var t := n + x;
    assert t[0] == n[0];
    NoWord(t);
    NumberRead(n, x);
    assert t[..|n|] == n && t[|n|..] == x;
    hide ReadString, ReadItems, ReadFields;
  }

  lemma StringReadBack(s: string, x: string)
    ensures ReadValue(Quote(s) + x) == Some((Str(s), x))
  {
    var t := Quote(s) + x;
    QuoteRead(s, x);
    NoWord(t);
    hide ReadString, ReadItems, ReadFields, Quote, NumberLength;
  }

  /** An array whose first item is read, and whose rest is read behind it. */
  lemma ArrayReadBack(t: string, first: Json, rest: string, r: (Json, string))
    requires |t| > 1 && t[0] == '[' && t[1] != ']' && ReadValue(t[1..]) == Some((first, rest)) && ReadItems(rest, [first]) == Some(r)
    ensures ReadValue(t) == Some(r)
  {
    NoWord(t);
    hide ReadItems, ReadFields, ReadString, NumberLength;
  }

  lemma ObjectReadBack(t: string, first: Field, rest: string, r: (Json, string))
    requires |t| > 1 && t[0] == '{' && t[1] != '}' && ReadField(t[1..]) == Some((first, rest)) && ReadFields(rest, [first]) == Some(r)
    ensures ReadValue(t) == Some(r)
  {
    NoWord(t);
    hide ReadItems, ReadFields, ReadString, ReadField, NumberLength;
  }

  lemma EmptyReadBack(x: string)
    ensures ReadValue("[]" + x) == Some((Arr([]), x)) && ReadValue("{}" + x) == Some((Obj([]), x))
  {
    var a, o := "[]" + x, "{}" + x;
    assert a[0] == '[' && a[1] == ']' && a[2..] == x;
    assert o[0] == '{' && o[1] == '}' && o[2..] == x;
    NoWord(a);
    NoWord(o);
    hide ReadItems, ReadFields, ReadString, ReadField, NumberLength;
  }

  lemma ItemsEnd(items: seq<Json>, x: string)
    ensures ReadItems("]" + x, items) == Some((Arr(items), x))
  {
    var t := "]" + x;
    assert t[0] == ']' && t[1..] == x;
  }

  lemma ItemsGoOn(t: string, items: seq<Json>, next: Json, rest: string)
    requires t != "" && t[0] == ',' && ReadValue(t[1..]) == Some((next, rest))
    ensures ReadItems(t, items) == ReadItems(rest, items + [next])
  {
    hide ReadValue;
  }

  lemma FieldsEnd(fields: seq<Field>, x: string)
    ensures ReadFields("}" + x, fields) == Some((Obj(fields), x))
  {
    var t := "}" + x;
    assert t[0] == '}' && t[1..] == x;
  }

  lemma FieldsGoOn(t: string, fields: seq<Field>, next: Field, rest: string)
    requires t != "" && t[0] == ',' && ReadField(t[1..]) == Some((next, rest))
    ensures ReadFields(t, fields) == ReadFields(rest, fields + [next])
  {
    hide ReadField;
  }

  lemma FieldReadBack(key: string, value: Json, text: string, x: string)
    requires ReadValue(text + x) == Some((value, x))
    ensures ReadField(Quote(key) + ":" + text + x) == Some((Field(key, value), x))
  {
    hide *;
    var behind := [':'] + (text + x);
    ColonBehind(Quote(key), text, x);
    Behind(':', text + x);
    QuoteRead(key, behind);
    FieldFrom(Quote(key) + ":" + text + x, key, value, behind, x);
  }

  lemma ColonBehind(key: string, text: string, x: string)
    ensures key + ":" + text + x == key + ([':'] + (text + x))
  {
  }

  lemma FieldFrom(t: string, key: string, value: Json, behind: string, x: string)
    requires t != "" && t[0] == '"' && ReadString(t[1..]) == Some((key, behind))
    requires behind != "" && behind[0] == ':' && ReadValue(behind[1..]) == Some((value, x))
    ensures ReadField(t) == Some((Field(key, value), x))
  {
    hide ReadString, ReadValue;
  }

  /** How a list of items or fields is printed from some place on. */
  lemma ItemsPrinted(v: Json, i: nat, x: string)
    requires v.Arr? && i < |v.items|
    ensures Items(v, i) + x == (if i == 0 then "" else ",") + (Text(v.items[i]) + (Items(v, i + 1) + x))
  {
    assert Items(v, i) == (if i == 0 then "" else ",") + Text(v.items[i]) + Items(v, i + 1);
    hide *;
  }

  lemma FieldsPrinted(v: Json, i: nat, x: string)
    requires v.Obj? && i < |v.fields|
    ensures Fields(v, i) + x ==
      (if i == 0 then "" else ",") + (Quote(v.fields[i].key) + ":" + Text(v.fields[i].value) + (Fields(v, i + 1) + x))
  {
    assert Fields(v, i) == (if i == 0 then "" else ",") + Quote(v.fields[i].key) + ":" + Text(v.fields[i].value) + Fields(v, i + 1);
    hide *;
    Grouped(if i == 0 then "" else ",", Quote(v.fields[i].key), Text(v.fields[i].value), Fields(v, i + 1), x);
  }

  lemma Grouped(comma: string, key: string, value: string, rest: string, x: string)
    ensures (comma + key + ":" + value + rest) + x == comma + (key + ":" + value + (rest + x))
  {
  }

  /** The first item or field, behind its bracket. */
  lemma FirstPrinted(v: Json, x: string)
    requires (v.Arr? && v.items != []) || (v.Obj? && v.fields != [])
    ensures v.Arr? ==> Text(v) + x == ['['] + (Text(v.items[0]) + (Items(v, 1) + x))
    ensures v.Obj? ==> (Text(v) + x == ['{'] + (Quote(v.fields[0].key) + ":" + Text(v.fields[0].value) + (Fields(v, 1) + x)))
  {
    assert v.Arr? ==> Text(v) == "[" + Items(v, 0);
    assert v.Obj? ==> Text(v) == "{" + Fields(v, 0);
    hide *;
    if v.Arr? {
      ItemsPrinted(v, 0, x);
      Opened("[", Items(v, 0), x, Text(v.items[0]) + (Items(v, 1) + x));
    } else {
      FieldsPrinted(v, 0, x);
      Opened("{", Fields(v, 0), x, Quote(v.fields[0].key) + ":" + Text(v.fields[0].value) + (Fields(v, 1) + x));
    }
  }

  lemma Opened(bracket: string, list: string, x: string, whole: string)
    requires list + x == "" + whole
    ensures (bracket + list) + x == bracket + whole
  {
    assert "" + whole == whole;
  }

  lemma Behind(c: char, t: string)
    ensures ([c] + t)[0] == c && ([c] + t)[1..] == t
  {
  }

  lemma ItemsStep(v: Json, i: nat, x: string)
    requires v.Arr? && 0 < i < |v.items|
    requires ReadValue(Text(v.items[i]) + (Items(v, i + 1) + x)) == Some((v.items[i], Items(v, i + 1) + x))
    ensures ReadItems(Items(v, i) + x, v.items[..i]) == ReadItems(Items(v, i + 1) + x, v.items[..i + 1])
  {
    hide *;
    var rest := Items(v, i + 1) + x;
    ItemsPrinted(v, i, x);
    Behind(',', Text(v.items[i]) + rest);
    ItemsGoOn(Items(v, i) + x, v.items[..i], v.items[i], rest);
    OneMore(v.items, i);
  }

  lemma FieldsStep(v: Json, i: nat, x: string)
    requires v.Obj? && 0 < i < |v.fields|
    requires ReadValue(Text(v.fields[i].value) + (Fields(v, i + 1) + x)) == Some((v.fields[i].value, Fields(v, i + 1) + x))
    ensures ReadFields(Fields(v, i) + x, v.fields[..i]) == ReadFields(Fields(v, i + 1) + x, v.fields[..i + 1])
  {
    hide *;
    var f := v.fields[i];
    var rest := Fields(v, i + 1) + x;
    FieldsPrinted(v, i, x);
    FieldReadBack(f.key, f.value, Text(f.value), rest);
    Behind(',', Quote(f.key) + ":" + Text(f.value) + rest);
    FieldsGoOn(Fields(v, i) + x, v.fields[..i], f, rest);
    OneMore(v.fields, i);
  }

  lemma OneMore<T>(s: seq<T>, i: nat)
    requires i < |s|
    ensures s[..i] + [s[i]] == s[..i + 1]
  {
  }

  lemma {:induction false} ItemsRead(v: Json, i: nat, x: string)
    requires v.Arr? && Valid(v) && 0 < i <= |v.items| && Stops(x)
    ensures ReadItems(Items(v, i) + x, v.items[..i]) == Some((v, x))
    decreases v, |v.items| - i
  {
    if i == |v.items| {
      ItemsEnd(v.items, x);
      assert v.items[..i] == v.items && Items(v, i) == "]";
    } else {
      assert Valid(v.items[i]);
      hide *;
      ItemsStop(v, i + 1, x);
      ValueRead(v.items[i], Items(v, i + 1) + x);
      ItemsStep(v, i, x);
      ItemsRead(v, i + 1, x);
    }
  }

  lemma {:induction false} FieldsRead(v: Json, i: nat, x: string)
    requires v.Obj? && Valid(v) && 0 < i <= |v.fields| && Stops(x)
    ensures ReadFields(Fields(v, i) + x, v.fields[..i]) == Some((v, x))
    decreases v, |v.fields| - i
  {
    if i == |v.fields| {
      FieldsEnd(v.fields, x);
      assert v.fields[..i] == v.fields && Fields(v, i) == "}";
    } else {
      assert Valid(v.fields[i].value) && v.fields[i].value < v;
      hide *;
      FieldsStop(v, i + 1, x);
      ValueRead(v.fields[i].value, Fields(v, i + 1) + x);
      FieldsStep(v, i, x);
      FieldsRead(v, i + 1, x);
    }
  }

  lemma KeyFirst(key: string, value: string, rest: string)
    ensures (Quote(key) + ":" + value + rest)[0] == '"'
  {
    hide Escaped;
  }

  lemma {:induction false} ArrayRead(v: Json, x: string)
    requires v.Arr? && Valid(v) && Stops(x)
    ensures ReadValue(Text(v) + x) == Some((v, x))
    decreases v, |v.items| + 1, 0
  {
    if v.items == [] {
      EmptyReadBack(x);
      assert Text(v) == "[]";
    } else {
      assert Valid(v.items[0]);
      hide *;
      FirstPrinted(v, x);
      var rest := Items(v, 1) + x;
      ItemsStop(v, 1, x);
      ValueRead(v.items[0], rest);
      ItemsRead(v, 1, x);
      TextOpens(v.items[0]);
      Behind('[', Text(v.items[0]) + rest);
      assert (Text(v.items[0]) + rest)[0] == Text(v.items[0])[0];
      assert v.items[..1] == [v.items[0]];
      ArrayReadBack(Text(v) + x, v.items[0], rest, (v, x));
    }
  }

  lemma {:induction false} ObjectRead(v: Json, x: string)
    requires v.Obj? && Valid(v) && Stops(x)
    ensures ReadValue(Text(v) + x) == Some((v, x))
    decreases v, |v.fields| + 1, 0
  {
    if v.fields == [] {
      EmptyReadBack(x);
      assert Text(v) == "{}";
    } else {
      var f := v.fields[0];
      assert Valid(f.value) && f.value < v;
      hide *;
      FirstPrinted(v, x);
      var rest := Fields(v, 1) + x;
      FieldsStop(v, 1, x);
      ValueRead(f.value, rest);
      FieldReadBack(f.key, f.value, Text(f.value), rest);
      FieldsRead(v, 1, x);
      var printed := Quote(f.key) + ":" + Text(f.value) + rest;
      Behind('{', printed);
      KeyFirst(f.key, Text(f.value), rest);
      assert v.fields[..1] == [f];
      ObjectReadBack(Text(v) + x, f, rest, (v, x));
    }
  }

  /** Reading undoes printing, whatever follows. */
  lemma {:induction false} ValueRead(v: Json, x: string)
    requires Valid(v) && Stops(x)
    ensures ReadValue(Text(v) + x) == Some((v, x))
    decreases v, Width(v), 1
  {
    match v
    case Null => WordRead("null", x);
    case Bool(b) => WordRead(if b then "true" else "false", x);
    case Num(t) => NumberReadBack(t, x);
    case Str(s) => StringReadBack(s, x);
    case Arr(_) => ArrayRead(v, x);
    case Obj(_) => ObjectRead(v, x);
  }
}
