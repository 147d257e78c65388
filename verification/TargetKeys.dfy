/** The keys of section targets (packages/domain/src/index.ts): reading one undoes
    writing it. */
module TargetKeys {
  import opened Common
  import opened Text
  import opened SituationText
  import opened SectionTargets

  function KeyOf(names: seq<string>, t: Target): string
    requires t.section < |names|
  {
    match t
    case Whole(k) => names[k]
    case Subheading(k, subheading) => names[k] + "/" + subheading
    case NamedBlock(k, anchor) => names[k] + "#" + anchor
  }

  predicate ValidTarget(names: seq<string>, t: Target) {
    && t.section < |names|
    && (t.Subheading? ==> IsSubheading(t.subheading))
    && (t.NamedBlock? ==> IsSlug(t.anchor))
  }

  predicate Unmarked(name: string) {
    !Has(name, '/') && !Has(name, '#')
  }

  /** No name holds a mark of the keys, and none stands twice. */
  predicate UnmarkedNames(names: seq<string>) {
    && (forall i :: 0 <= i < |names| ==> Unmarked(names[i]))
    && forall i, j :: 0 <= i < j < |names| ==> names[i] != names[j]
  }

  lemma Behind(s: string, mark: string, key: string)
    requires |mark| == 1 && s + mark <= key
    ensures key == s + mark + key[|s| + 1..]
  {
    assert key[..|s + mark|] == s + mark;
  }

  /** What is read stands in the key. */
  lemma {:induction false} ReadIsWritten(names: seq<string>, key: string, k: nat)
    requires k <= |names|
    ensures var t := ParseTarget(names, key, k); t.Some? ==> ValidTarget(names, t.value) && KeyOf(names, t.value) == key
    decreases |names| - k
  {
    hide IsSubheading, IsSlug;
    if k < |names| {
      if key == names[k] {
      } else if names[k] + "/" <= key {
        Behind(names[k], "/", key);
      } else if names[k] + "#" <= key {
        Behind(names[k], "#", key);
      } else {
        ReadIsWritten(names, key, k + 1);
      }
    }
  }

  lemma Holds(s: string, c: char, i: nat)
    requires i < |s| && s[i] == c
    ensures Has(s, c)
  {
  }

  /** What follows a name in a key. */
  predicate Tail(tail: string) {
    tail == "" || tail[0] == '/' || tail[0] == '#'
  }

  /** The first mark of a key tells the name before it. */
  lemma SameName(a: string, b: string, tail: string, mark: string)
    requires Unmarked(a) && Unmarked(b) && Tail(tail) && (mark == "/" || mark == "#") && a + mark <= b + tail
    ensures a == b
  {
    hide Has;
    var key := b + tail;
    assert key[..|a + mark|] == a + mark;
    assert key[|a|] == mark[0] && forall i :: 0 <= i < |a| ==> key[i] == a[i];
    if |a| < |b| {
      Holds(b, mark[0], |a|);
    } else if |b| < |a| {
      Holds(a, tail[0], |b|);
    }
    assert a == key[..|a|] && b == key[..|b|];
  }

  lemma WholeName(a: string, b: string, tail: string)
    requires Unmarked(a) && Tail(tail) && a == b + tail
    ensures a == b
  {
    hide Has;
    if tail != "" {
      Holds(a, tail[0], |b|);
    }
  }

  lemma NotFoundHere(names: seq<string>, key: string, name: string, tail: string, k: nat)
    requires k < |names| && Unmarked(names[k]) && Unmarked(name) && names[k] != name && Tail(tail) && key == name + tail
    ensures key != names[k] && !(names[k] + "/" <= key) && !(names[k] + "#" <= key)
  {
    hide Unmarked, Tail;
    if names[k] + "/" <= key {
      SameName(names[k], name, tail, "/");
    }
    if names[k] + "#" <= key {
      SameName(names[k], name, tail, "#");
    }
    if key == names[k] {
      WholeName(names[k], name, tail);
    }
  }

  lemma {:induction false} WrittenIsRead(names: seq<string>, t: Target, k: nat)
    requires UnmarkedNames(names) && ValidTarget(names, t) && k <= t.section
    ensures ParseTarget(names, KeyOf(names, t), k) == Some(t)
    decreases t.section - k
  {
    hide IsSubheading, IsSlug, Has;
    var name := names[t.section];
    var key := KeyOf(names, t);
    if k < t.section {
      var tail := match t case Whole(_) => "" case Subheading(_, s) => "/" + s case NamedBlock(_, a) => "#" + a;
      assert key == name + tail && Tail(tail) && Unmarked(names[k]) && Unmarked(name) && names[k] != name;
      NotFoundHere(names, key, name, tail, k);
      WrittenIsRead(names, t, k + 1);
    } else {
      OwnName(name, t, key);
    }
  }

  lemma OwnName(name: string, t: Target, key: string)
    requires key == match t case Whole(_) => name case Subheading(_, s) => name + "/" + s case NamedBlock(_, a) => name + "#" + a
    ensures t.Subheading? ==> key != name && name + "/" <= key && key[|name| + 1..] == t.subheading
    ensures t.NamedBlock? ==> key != name && name + "#" <= key && key[|name| + 1..] == t.anchor && !(name + "/" <= key)
  {
    if t.NamedBlock? {
      assert key[|name|] == '#' && (name + "/")[|name|] == '/';
    }
  }

  /** A key names a target exactly when it is the key of that target: a section, a section
      and a trimmed subheading without marks, or a section and a slug. */
  lemma TargetKeyExact(names: seq<string>, key: string, t: Target)
    requires UnmarkedNames(names)
    ensures ParseTarget(names, key, 0) == Some(t) <==> ValidTarget(names, t) && key == KeyOf(names, t)
  {
    hide ParseTarget, UnmarkedNames;
    ReadIsWritten(names, key, 0);
    if ValidTarget(names, t) && key == KeyOf(names, t) {
      WrittenIsRead(names, t, 0);
    }
  }

  lemma UnmarkedName(n: string)
    requires PlainName(n)
    ensures Unmarked(n)
  {
    assert !PlainChar('/') && !PlainChar('#');
    hide PlainChar;
  }

  /** The eleven required names meet the condition. */
  lemma RequiredNamesUnmarked()
    ensures UnmarkedNames(REQUIRED)
  {
    FirstNamesArePlain();
    MiddleNamesArePlain();
    LastNamesArePlain();
    RequiredNamesDiffer();
    hide PlainName, Unmarked;
    forall k | 0 <= k < |REQUIRED|
      ensures Unmarked(REQUIRED[k])
    {
      UnmarkedName(REQUIRED[k]);
    }
  }
}
