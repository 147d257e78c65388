/** The hashed text of a publishable bundle (packages/domain/src/index.ts): it tells two
    bundles apart exactly when they differ in more than the order of their lists and keys. */
module BundleHash {
  import opened Ordering
  import opened CanonicalJson
  import J = CanonicalJson

  /** The parts of a v2 bundle that are sorted, with the fields they are sorted by. */
  datatype Artifact = Artifact(logicalId: string, others: seq<Field>)
  datatype Relationship = Relationship(position: nat, kind: string, original: string, logicalId: string, others: seq<Field>)
  datatype Bundle = Bundle(
    artifacts: seq<Artifact>, relationships: seq<Relationship>, contextHashes: seq<string>, rest: seq<Field>)

  /** An integer as JSON.stringify prints it. */
  function Decimal(n: nat): string {
    var digit := ["0123456789"[n % 10]];
    if n < 10 then digit else Decimal(n / 10) + digit
  }

  function ArtifactJson(a: Artifact): Json {
    Obj([Field("logicalId", Str(a.logicalId))] + a.others)
  }

  function RelationshipJson(r: Relationship): Json {
    Obj([Field("position", Num(Decimal(r.position))), Field("kind", Str(r.kind)), Field("originalLogicalId", Str(r.original)),
         Field("logicalId", Str(r.logicalId))] + r.others)
  }

  function BundleJson(b: Bundle): Json {
    Obj([Field("artifacts", Arr(Mapped(ArtifactJson, b.artifacts))),
         Field("relationships", Arr(Mapped(RelationshipJson, b.relationships))),
         Field("contextHashes", Arr(Mapped(TextJson, b.contextHashes)))] + b.rest)
  }

  function TextJson(s: string): Json {
    Str(s)
  }

  function Mapped<T, U>(f: T -> U, s: seq<T>): (r: seq<U>)
    ensures |r| == |s| && forall i :: 0 <= i < |s| ==> r[i] == f(s[i])
  {
    seq(|s|, i requires 0 <= i < |s| => f(s[i]))
  }

  // ----- sortedPublishableBundle -----

  function ArtifactOrder(less: (string, string) -> bool): (Artifact, Artifact) -> bool {
    (a: Artifact, b: Artifact) => less(a.logicalId, b.logicalId)
  }

  /** left.position - right.position || kind || originalLogicalId || logicalId */
  predicate Before(less: (string, string) -> bool, a: Relationship, b: Relationship) {
    || a.position < b.position
    || (a.position == b.position && less(a.kind, b.kind))
    || (a.position == b.position && a.kind == b.kind && less(a.original, b.original))
    || (a.position == b.position && a.kind == b.kind && a.original == b.original && less(a.logicalId, b.logicalId))
  }

  function RelationshipOrder(less: (string, string) -> bool): (Relationship, Relationship) -> bool {
    (a: Relationship, b: Relationship) => Before(less, a, b)
  }

  /** Context hashes are sorted by code units, `units`. */
  function SortedBundle(less: (string, string) -> bool, units: (string, string) -> bool, b: Bundle): Bundle {
    b.(artifacts := Sort(ArtifactOrder(less), b.artifacts),
       relationships := Sort(RelationshipOrder(less), b.relationships),
       contextHashes := Sort(units, b.contextHashes))
  }

  /** The text publishableBundleHash hashes. */
  function HashedText(less: (string, string) -> bool, units: (string, string) -> bool, b: Bundle): string {
    J.CanonicalJson(less, BundleJson(SortedBundle(less, units, b)))
  }

  /** What validation asks of a bundle: its fields are a JSON object, artifact ids are
      unique, and a relationship's original identity is unique within its kind. */
  predicate ValidBundle(b: Bundle) {
    && Valid(BundleJson(b))
    && (forall i, j :: 0 <= i < |b.artifacts| && 0 <= j < |b.artifacts| && b.artifacts[i].logicalId == b.artifacts[j].logicalId ==> i == j)
    && (forall i, j | 0 <= i < |b.relationships| && 0 <= j < |b.relationships| && i != j ::
          (b.relationships[i].kind, b.relationships[i].original) != (b.relationships[j].kind, b.relationships[j].original))
  }

  // ----- reading the sort keys back -----

  /** The parts as order-free values. */
  function ArtifactShape(a: Artifact): Shape {
    ShapeOf(ArtifactJson(a))
  }

  function RelationshipShape(r: Relationship): Shape {
    ShapeOf(RelationshipJson(r))
  }

  function TextShape(s: string): Shape {
    StrShape(s)
  }

  /** The same fields and the same parts, in whatever order. */
  predicate SameBundle(a: Bundle, b: Bundle) {
    && multiset(Mapped(ArtifactShape, a.artifacts)) == multiset(Mapped(ArtifactShape, b.artifacts))
    && multiset(Mapped(RelationshipShape, a.relationships)) == multiset(Mapped(RelationshipShape, b.relationships))
    && multiset(a.contextHashes) == multiset(b.contextHashes)
    && ShapeOf(Obj(a.rest)) == ShapeOf(Obj(b.rest))
  }

  function StringAt(s: Shape, key: string): string {
    if s.ObjShape? && key in s.fields && s.fields[key].StrShape? then s.fields[key].s else ""
  }

  function NumberAt(s: Shape, key: string): nat {
    if s.ObjShape? && key in s.fields && s.fields[key].NumShape? then Read(s.fields[key].text) else 0
  }

  function Read(t: string): nat {
    if t == "" then 0 else 10 * Read(t[..|t| - 1]) + if '0' <= t[|t| - 1] <= '9' then (t[|t| - 1] as int) - ('0' as int) else 0
  }

  lemma {:induction false} ReadDecimal(n: nat)
    ensures Read(Decimal(n)) == n
  {
    var t := Decimal(n);
    DigitAt(n % 10);
    assert t[|t| - 1] == "0123456789"[n % 10];
    if n < 10 {
      assert t[..|t| - 1] == "" && Read("") == 0;
    } else {
      ReadDecimal(n / 10);
      assert t[..|t| - 1] == Decimal(n / 10);
    }
  }

  lemma DigitAt(d: nat)
    requires d < 10
    ensures '0' <= "0123456789"[d] <= '9' && ("0123456789"[d] as int) - ('0' as int) == d
  {
  }

  /** The first field of an object under a key is the one its map shows. */
  lemma {:induction false} FieldShows(v: Json, i: nat, k: nat)
    requires v.Obj? && i <= k < |v.fields| && forall j :: i <= j < k ==> v.fields[j].key != v.fields[k].key
    ensures v.fields[k].key in FieldShapes(v, i) && FieldShapes(v, i)[v.fields[k].key] == ShapeOf(v.fields[k].value)
    decreases k - i
  {
    if i < k {
      FieldShows(v, i + 1, k);
    }
  }

  lemma ArtifactKey(a: Artifact)
    ensures StringAt(ArtifactShape(a), "logicalId") == a.logicalId
  {
    FieldShows(ArtifactJson(a), 0, 0);
  }

  lemma RelationshipKeys(r: Relationship)
    ensures NumberAt(RelationshipShape(r), "position") == r.position
    ensures StringAt(RelationshipShape(r), "kind") == r.kind
    ensures StringAt(RelationshipShape(r), "originalLogicalId") == r.original
    ensures StringAt(RelationshipShape(r), "logicalId") == r.logicalId
  {
    var v := RelationshipJson(r);
    assert v.fields[0].key == "position" && v.fields[1].key == "kind" && v.fields[2].key == "originalLogicalId" && v.fields[3].key == "logicalId";
    assert "position"[0] == 'p' && "kind"[0] == 'k' && "originalLogicalId"[0] == 'o' && "logicalId"[0] == 'l';
    FieldShows(v, 0, 0);
    FieldShows(v, 0, 1);
    FieldShows(v, 0, 2);
    FieldShows(v, 0, 3);
    ReadDecimal(r.position);
  }

  // ----- sorting parts is sorting their shapes -----

  lemma {:induction false} InsertMaps<T, U>(f: T -> U, less: (T, T) -> bool, less': (U, U) -> bool, x: T, s: seq<T>)
    requires forall y :: y in s ==> less(x, y) == less'(f(x), f(y))
    ensures Mapped(f, Insert(less, x, s)) == Insert(less', f(x), Mapped(f, s))
  {
    if s == [] {
    } else if less(x, s[0]) {
      assert Mapped(f, [x] + s) == [f(x)] + Mapped(f, s);
    } else {
      InsertMaps(f, less, less', x, s[1..]);
      assert Mapped(f, s)[1..] == Mapped(f, s[1..]);
      assert Mapped(f, [s[0]] + Insert(less, x, s[1..])) == [f(s[0])] + Mapped(f, Insert(less, x, s[1..]));
    }
  }

  /** When the order can be read off the images. */
  lemma {:induction false} SortMaps<T(!new), U>(f: T -> U, less: (T, T) -> bool, less': (U, U) -> bool, s: seq<T>)
    requires forall x, y :: less(x, y) == less'(f(x), f(y))
    ensures Mapped(f, Sort(less, s)) == Sort(less', Mapped(f, s))
  {
    if s != [] {
      var n := |s| - 1;
      SortMaps(f, less, less', s[..n]);
      assert Mapped(f, s)[..n] == Mapped(f, s[..n]);
      InsertMaps(f, less, less', s[n], Sort(less, s[..n]));
    }
  }

  function ArtifactShapeOrder(less: (string, string) -> bool): (Shape, Shape) -> bool {
    (s: Shape, t: Shape) => less(StringAt(s, "logicalId"), StringAt(t, "logicalId"))
  }

  function Keyed(s: Shape): Relationship {
    Relationship(NumberAt(s, "position"), StringAt(s, "kind"), StringAt(s, "originalLogicalId"), StringAt(s, "logicalId"), [])
  }

  function RelationshipShapeOrder(less: (string, string) -> bool): (Shape, Shape) -> bool {
    (s: Shape, t: Shape) => Before(less, Keyed(s), Keyed(t))
  }

  lemma ArtifactsSorted(less: (string, string) -> bool, b: Bundle)
    ensures Mapped(ArtifactShape, Sort(ArtifactOrder(less), b.artifacts)) == Sort(ArtifactShapeOrder(less), Mapped(ArtifactShape, b.artifacts))
  {
    forall x: Artifact, y: Artifact
      ensures ArtifactOrder(less)(x, y) == ArtifactShapeOrder(less)(ArtifactShape(x), ArtifactShape(y))
    {
      ArtifactKey(x);
      ArtifactKey(y);
    }
    SortMaps(ArtifactShape, ArtifactOrder(less), ArtifactShapeOrder(less), b.artifacts);
  }

  lemma SameKeys(less: (string, string) -> bool, x: Relationship, y: Relationship, x': Relationship, y': Relationship)
    requires x'.position == x.position && x'.kind == x.kind && x'.original == x.original && x'.logicalId == x.logicalId
    requires y'.position == y.position && y'.kind == y.kind && y'.original == y.original && y'.logicalId == y.logicalId
    ensures RelationshipOrder(less)(x, y) == Before(less, x', y')
  {
  }

  lemma RelationshipsSorted(less: (string, string) -> bool, b: Bundle)
    ensures Mapped(RelationshipShape, Sort(RelationshipOrder(less), b.relationships)) ==
            Sort(RelationshipShapeOrder(less), Mapped(RelationshipShape, b.relationships))
  {
    forall x: Relationship, y: Relationship
      ensures RelationshipOrder(less)(x, y) == RelationshipShapeOrder(less)(RelationshipShape(x), RelationshipShape(y))
    {
      RelationshipKeys(x);
      RelationshipKeys(y);
      SameKeys(less, x, y, Keyed(RelationshipShape(x)), Keyed(RelationshipShape(y)));
    }
    SortMaps(RelationshipShape, RelationshipOrder(less), RelationshipShapeOrder(less), b.relationships);
  }

  // ----- the sorted parts agree exactly when the parts do -----

  /** Two lists sort to the same one exactly when they hold the same elements. */
  lemma SortExact<T(!new)>(less: (T, T) -> bool, s: seq<T>, t: seq<T>)
    requires StrictOrder(less) && NoTies(less, s)
    ensures Sort(less, s) == Sort(less, t) <==> multiset(s) == multiset(t)
  {
    SortKeeps(less, s);
    SortKeeps(less, t);
    if multiset(s) == multiset(t) {
      SortForgetsOrder(less, s, t);
    }
  }

  /** Comparing by a key is a strict order, and ties have the same key. */
  lemma ByKeyIsStrict(less: (string, string) -> bool, key: Shape -> string, order: (Shape, Shape) -> bool)
    requires TotalOrder(less) && forall x, y :: order(x, y) == less(key(x), key(y))
    ensures StrictOrder(order)
  {
    forall x, y, z
      ensures !order(x, x)
      ensures order(x, y) && order(y, z) ==> order(x, z)
      ensures order(x, z) ==> order(x, y) || order(y, z)
    {
      assert order(x, x) == less(key(x), key(x)) && order(x, y) == less(key(x), key(y));
      assert order(y, z) == less(key(y), key(z)) && order(x, z) == less(key(x), key(z));
      LessThree(less, key(x), key(y), key(z));
      LessTies(less, key(x), key(x));
    }
  }

  lemma ArtifactsExact(less: (string, string) -> bool, a: Bundle, b: Bundle)
    requires TotalOrder(less) && ValidBundle(a)
    ensures var s, t := Mapped(ArtifactShape, a.artifacts), Mapped(ArtifactShape, b.artifacts);
      Sort(ArtifactShapeOrder(less), s) == Sort(ArtifactShapeOrder(less), t) <==> multiset(s) == multiset(t)
  {
    var order := ArtifactShapeOrder(less);
    var s := Mapped(ArtifactShape, a.artifacts);
    ByKeyIsStrict(less, s => StringAt(s, "logicalId"), order);
    forall i, j | 0 <= i < |s| && 0 <= j < |s| && !order(s[i], s[j]) && !order(s[j], s[i])
      ensures s[i] == s[j]
    {
      ArtifactKey(a.artifacts[i]);
      ArtifactKey(a.artifacts[j]);
      LessTies(less, a.artifacts[i].logicalId, a.artifacts[j].logicalId);
    }
    hide *;
    NoTiesAre(order, s);
    SortExact(order, s, Mapped(ArtifactShape, b.artifacts));
  }

  lemma NoTiesAre<T>(less: (T, T) -> bool, s: seq<T>)
    requires forall i, j :: 0 <= i < |s| && 0 <= j < |s| && !less(s[i], s[j]) && !less(s[j], s[i]) ==> s[i] == s[j]
    ensures NoTies(less, s)
  {
  }

  lemma LessThree(less: (string, string) -> bool, x: string, y: string, z: string)
    requires TotalOrder(less)
    ensures less(x, y) && less(y, z) ==> less(x, z)
    ensures less(x, z) ==> less(x, y) || less(y, z)
  {
  }

  lemma LessTies(less: (string, string) -> bool, x: string, y: string)
    requires TotalOrder(less)
    ensures !less(x, x)
    ensures !less(x, y) && !less(y, x) ==> x == y
  {
  }

  lemma BeforeThree(less: (string, string) -> bool, a: Relationship, b: Relationship, c: Relationship)
    requires TotalOrder(less)
    ensures !Before(less, a, a)
    ensures Before(less, a, b) && Before(less, b, c) ==> Before(less, a, c)
    ensures Before(less, a, c) ==> Before(less, a, b) || Before(less, b, c)
  {
  }

  lemma BeforeTies(less: (string, string) -> bool, a: Relationship, b: Relationship)
    requires TotalOrder(less) && !Before(less, a, b) && !Before(less, b, a)
    ensures a.kind == b.kind && a.original == b.original
  {
  }

  lemma RelationshipsExact(less: (string, string) -> bool, a: Bundle, b: Bundle)
    requires TotalOrder(less) && ValidBundle(a)
    ensures var s, t := Mapped(RelationshipShape, a.relationships), Mapped(RelationshipShape, b.relationships);
      Sort(RelationshipShapeOrder(less), s) == Sort(RelationshipShapeOrder(less), t) <==> multiset(s) == multiset(t)
  {
    var order := RelationshipShapeOrder(less);
    var s := Mapped(RelationshipShape, a.relationships);
    forall x: Shape, y: Shape, z: Shape
      ensures !order(x, x)
      ensures order(x, y) && order(y, z) ==> order(x, z)
      ensures order(x, z) ==> order(x, y) || order(y, z)
    {
      BeforeThree(less, Keyed(x), Keyed(y), Keyed(z));
    }
    forall i, j | 0 <= i < |s| && 0 <= j < |s| && !order(s[i], s[j]) && !order(s[j], s[i])
      ensures s[i] == s[j]
    {
      RelationshipKeys(a.relationships[i]);
      RelationshipKeys(a.relationships[j]);
      BeforeTies(less, Keyed(s[i]), Keyed(s[j]));
    }
    hide *;
    StrictIs(order);
    NoTiesAre(order, s);
    SortExact(order, s, Mapped(RelationshipShape, b.relationships));
  }

  lemma StrictIs<T(!new)>(less: (T, T) -> bool)
    requires forall a, b, c :: !less(a, a) && (less(a, b) && less(b, c) ==> less(a, c)) && (less(a, c) ==> less(a, b) || less(b, c))
    ensures StrictOrder(less)
  {
  }

  lemma HashesExact(units: (string, string) -> bool, a: Bundle, b: Bundle)
    requires TotalOrder(units)
    ensures Sort(units, a.contextHashes) == Sort(units, b.contextHashes) <==> multiset(a.contextHashes) == multiset(b.contextHashes)
  {
    SortExact(units, a.contextHashes, b.contextHashes);
  }

  // ----- the bundle as an order-free value -----

  lemma {:induction false} ItemShapesAre(v: Json, i: nat)
    requires v.Arr? && i <= |v.items|
    ensures ItemShapes(v, i) == Mapped(ShapeOf, v.items[i..])
    decreases |v.items| - i
  {
    if i < |v.items| {
      ItemShapesAre(v, i + 1);
      assert v.items[i..] == [v.items[i]] + v.items[i + 1..];
    }
  }

  /** The shape of an array of parts. */
  lemma PartsShape<T>(f: T -> Json, s: seq<T>, shapes: seq<Shape>)
    requires |shapes| == |s| && forall i :: 0 <= i < |s| ==> shapes[i] == ShapeOf(f(s[i]))
    ensures ShapeOf(Arr(Mapped(f, s))) == ArrShape(shapes)
  {
    var v := Arr(Mapped(f, s));
    ItemShapesAre(v, 0);
    assert v.items[0..] == v.items;
    assert Mapped(ShapeOf, v.items) == shapes;
  }

  lemma FieldShapesBehind(head: seq<Field>, rest: seq<Field>)
    ensures FieldShapes(Obj(head + rest), |head|) == FieldShapes(Obj(rest), 0)
  {
    FieldShapesFrom(head, rest, 0);
  }

  lemma {:induction false} FieldShapesFrom(head: seq<Field>, rest: seq<Field>, i: nat)
    requires i <= |rest|
    ensures FieldShapes(Obj(head + rest), |head| + i) == FieldShapes(Obj(rest), i)
    decreases |rest| - i
  {
    if i < |rest| {
      FieldShapesFrom(head, rest, i + 1);
      assert (head + rest)[|head| + i] == rest[i];
    }
  }

  /** The bundle as a map: its three lists, and the rest. */
  lemma BundleShape(b: Bundle)
    ensures ShapeOf(BundleJson(b)) == ObjShape(FieldShapes(Obj(b.rest), 0)
      ["contextHashes" := ArrShape(Mapped(TextShape, b.contextHashes))]
      ["relationships" := ArrShape(Mapped(RelationshipShape, b.relationships))]
      ["artifacts" := ArrShape(Mapped(ArtifactShape, b.artifacts))])
  {
    PartsShape(ArtifactJson, b.artifacts, Mapped(ArtifactShape, b.artifacts));
    PartsShape(RelationshipJson, b.relationships, Mapped(RelationshipShape, b.relationships));
    PartsShape(TextJson, b.contextHashes, Mapped(TextShape, b.contextHashes));
    var v := BundleJson(b);
    FieldShapesBehind(v.fields[..3], b.rest);
    assert v.fields[..3] + b.rest == v.fields;
    hide Mapped, ArtifactJson, RelationshipJson;
    assert FieldShapes(v, 3) == FieldShapes(Obj(b.rest), 0);
    assert FieldShapes(v, 2) == FieldShapes(v, 3)["contextHashes" := ShapeOf(v.fields[2].value)];
    assert FieldShapes(v, 1) == FieldShapes(v, 2)["relationships" := ShapeOf(v.fields[1].value)];
    assert FieldShapes(v, 0) == FieldShapes(v, 1)["artifacts" := ShapeOf(v.fields[0].value)];
  }

  lemma SortedIn<T>(less: (T, T) -> bool, s: seq<T>)
    ensures forall i :: 0 <= i < |Sort(less, s)| ==> Sort(less, s)[i] in s
  {
    SortKeeps(less, s);
    var sorted := Sort(less, s);
    forall i | 0 <= i < |sorted|
      ensures sorted[i] in s
    {
      assert sorted[i] in multiset(sorted);
    }
  }

  /** A bundle is a JSON object when its parts are and no key stands twice. */
  predicate ValidRest(rest: seq<Field>) {
    && DistinctKeys(rest)
    && forall i :: 0 <= i < |rest| ==>
         Valid(rest[i].value) && rest[i].key != "artifacts" && rest[i].key != "relationships" && rest[i].key != "contextHashes"
  }

  lemma ValidParts(b: Bundle)
    ensures Valid(BundleJson(b)) <==>
      && (forall i :: 0 <= i < |b.artifacts| ==> Valid(ArtifactJson(b.artifacts[i])))
      && (forall i :: 0 <= i < |b.relationships| ==> Valid(RelationshipJson(b.relationships[i])))
      && ValidRest(b.rest)
  {
    ValidList(ArtifactJson, b.artifacts);
    ValidList(RelationshipJson, b.relationships);
    ValidTexts(b.contextHashes);
    hide Mapped, ArtifactJson, RelationshipJson, Valid;
    ValidFields(Arr(Mapped(ArtifactJson, b.artifacts)), Arr(Mapped(RelationshipJson, b.relationships)),
                Arr(Mapped(TextJson, b.contextHashes)), b.rest);
  }

  /** An object of three fields and the rest. */
  lemma ValidFields(a: Json, r: Json, c: Json, rest: seq<Field>)
    requires Valid(c)
    ensures Valid(Obj([Field("artifacts", a), Field("relationships", r), Field("contextHashes", c)] + rest)) <==>
      Valid(a) && Valid(r) && ValidRest(rest)
  {
    var head := [Field("artifacts", a), Field("relationships", r), Field("contextHashes", c)];
    assert "artifacts"[0] == 'a' && "relationships"[0] == 'r' && "contextHashes"[0] == 'c';
    ObjectIsValid(head, rest);
    assert head[0].value == a && head[1].value == r && head[2].value == c;
  }

  lemma ObjectIsValid(head: seq<Field>, rest: seq<Field>)
    ensures Valid(Obj(head + rest)) <==>
      && DistinctKeys(head) && DistinctKeys(rest)
      && (forall i, j :: 0 <= i < |head| && 0 <= j < |rest| ==> head[i].key != rest[j].key)
      && (forall i :: 0 <= i < |head| ==> Valid(head[i].value))
      && (forall i :: 0 <= i < |rest| ==> Valid(rest[i].value))
  {
    var all := head + rest;
    var n := |head|;
    assert forall i :: 0 <= i < n ==> all[i] == head[i];
    assert forall i :: 0 <= i < |rest| ==> all[n + i] == rest[i];
    assert Valid(Obj(all)) <==> DistinctKeys(all) && forall i :: 0 <= i < |all| ==> Valid(all[i].value);
    hide Valid;
    if DistinctKeys(all) {
      forall i, j | 0 <= i < j < |rest|
        ensures rest[i].key != rest[j].key
      {
        assert all[n + i] == rest[i] && all[n + j] == rest[j];
      }
      forall i, j | 0 <= i < n && 0 <= j < |rest|
        ensures head[i].key != rest[j].key
      {
        assert all[i] == head[i] && all[n + j] == rest[j];
      }
    }
    if forall i :: 0 <= i < |all| ==> Valid(all[i].value) {
      forall i | 0 <= i < |rest|
        ensures Valid(rest[i].value)
      {
        assert all[n + i] == rest[i];
      }
    }
  }

  lemma ValidList<T>(f: T -> Json, s: seq<T>)
    ensures Valid(Arr(Mapped(f, s))) <==> forall i :: 0 <= i < |s| ==> Valid(f(s[i]))
  {
    var items := Mapped(f, s);
    assert forall i :: 0 <= i < |s| ==> items[i] == f(s[i]);
  }

  lemma ValidTexts(s: seq<string>)
    ensures Valid(Arr(Mapped(TextJson, s)))
  {
  }

  lemma SortedIsValid(less: (string, string) -> bool, units: (string, string) -> bool, b: Bundle)
    requires Valid(BundleJson(b))
    ensures Valid(BundleJson(SortedBundle(less, units, b)))
  {
    hide Valid, ArtifactJson, RelationshipJson, BundleJson, Sort;
    var sorted := SortedBundle(less, units, b);
    ValidParts(b);
    SortedIn(ArtifactOrder(less), b.artifacts);
    SortedIn(RelationshipOrder(less), b.relationships);
    ValidParts(sorted);
  }

  lemma NotInRest(rest: seq<Field>)
    requires ValidRest(rest)
    ensures var m := FieldShapes(Obj(rest), 0); "artifacts" !in m && "relationships" !in m && "contextHashes" !in m
  {
    FieldShapesAre(Obj(rest), 0);
  }

  lemma SameMaps(m: map<string, Shape>, n: map<string, Shape>, a: Shape, b: Shape, r: Shape, s: Shape, c: Shape, d: Shape)
    requires "artifacts" !in m && "relationships" !in m && "contextHashes" !in m
    requires "artifacts" !in n && "relationships" !in n && "contextHashes" !in n
    ensures m["contextHashes" := c]["relationships" := r]["artifacts" := a] == n["contextHashes" := d]["relationships" := s]["artifacts" := b] <==>
      m == n && a == b && r == s && c == d
  {
    assert "artifacts"[0] == 'a' && "relationships"[0] == 'r' && "contextHashes"[0] == 'c';
    var x, y := m["contextHashes" := c]["relationships" := r]["artifacts" := a], n["contextHashes" := d]["relationships" := s]["artifacts" := b];
    assert x["artifacts"] == a && x["relationships"] == r && x["contextHashes"] == c;
    assert y["artifacts"] == b && y["relationships"] == s && y["contextHashes"] == d;
    assert m == x - {"artifacts", "relationships", "contextHashes"};
    assert n == y - {"artifacts", "relationships", "contextHashes"};
  }

  /** Bundles that are JSON objects agree up to the order of keys exactly when their lists
      and the rest do. */
  lemma SameShapeExact(a: Bundle, b: Bundle)
    requires Valid(BundleJson(a)) && Valid(BundleJson(b))
    ensures ShapeOf(BundleJson(a)) == ShapeOf(BundleJson(b)) <==>
      && Mapped(ArtifactShape, a.artifacts) == Mapped(ArtifactShape, b.artifacts)
      && Mapped(RelationshipShape, a.relationships) == Mapped(RelationshipShape, b.relationships)
      && a.contextHashes == b.contextHashes && ShapeOf(Obj(a.rest)) == ShapeOf(Obj(b.rest))
  {
    ValidParts(a);
    ValidParts(b);
    NotInRest(a.rest);
    NotInRest(b.rest);
    RestShape(a.rest);
    RestShape(b.rest);
    SameTexts(a.contextHashes, b.contextHashes);
    hide *;
    BundleShape(a);
    BundleShape(b);
    SameMaps(FieldShapes(Obj(a.rest), 0), FieldShapes(Obj(b.rest), 0),
             ArrShape(Mapped(ArtifactShape, a.artifacts)), ArrShape(Mapped(ArtifactShape, b.artifacts)),
             ArrShape(Mapped(RelationshipShape, a.relationships)), ArrShape(Mapped(RelationshipShape, b.relationships)),
             ArrShape(Mapped(TextShape, a.contextHashes)), ArrShape(Mapped(TextShape, b.contextHashes)));
  }

  lemma RestShape(rest: seq<Field>)
    ensures ShapeOf(Obj(rest)) == ObjShape(FieldShapes(Obj(rest), 0))
  {
  }

  lemma SameTexts(s: seq<string>, t: seq<string>)
    ensures Mapped(TextShape, s) == Mapped(TextShape, t) <==> s == t
  {
    var x, y := Mapped(TextShape, s), Mapped(TextShape, t);
    if x == y {
      assert |s| == |t|;
      forall i | 0 <= i < |s|
        ensures s[i] == t[i]
      {
        assert x[i] == StrShape(s[i]) && y[i] == StrShape(t[i]);
      }
    }
  }

  /** Two valid bundles have the same hashed text exactly when they hold the same
      artifacts, relationships, context hashes and other fields, whatever the order of the
      lists and of all keys. */
  lemma HashExact(less: (string, string) -> bool, units: (string, string) -> bool, a: Bundle, b: Bundle)
    requires TotalOrder(less) && TotalOrder(units) && ValidBundle(a) && ValidBundle(b)
    ensures HashedText(less, units, a) == HashedText(less, units, b) <==> SameBundle(a, b)
  {
    hide *;
    var s, t := SortedBundle(less, units, a), SortedBundle(less, units, b);
    SortedParts(less, units, a);
    SortedParts(less, units, b);
    SortedIsValid(less, units, a);
    SortedIsValid(less, units, b);
    CanonicalJsonExact(less, BundleJson(s), BundleJson(t));
    SameShapeExact(s, t);
    ArtifactsSorted(less, a);
    ArtifactsSorted(less, b);
    RelationshipsSorted(less, a);
    RelationshipsSorted(less, b);
    ArtifactsExact(less, a, b);
    RelationshipsExact(less, a, b);
    HashesExact(units, a, b);
    SameMeans(a, b);
  }

  lemma SortedParts(less: (string, string) -> bool, units: (string, string) -> bool, b: Bundle)
    requires ValidBundle(b)
    ensures var s := SortedBundle(less, units, b);
      && s.artifacts == Sort(ArtifactOrder(less), b.artifacts) && s.relationships == Sort(RelationshipOrder(less), b.relationships)
      && s.contextHashes == Sort(units, b.contextHashes) && s.rest == b.rest
      && HashedText(less, units, b) == J.CanonicalJson(less, BundleJson(s))
      && Valid(BundleJson(b))
  {
    hide Sort, BundleJson, Valid;
  }

  lemma SameMeans(a: Bundle, b: Bundle)
    ensures SameBundle(a, b) <==>
      && multiset(Mapped(ArtifactShape, a.artifacts)) == multiset(Mapped(ArtifactShape, b.artifacts))
      && multiset(Mapped(RelationshipShape, a.relationships)) == multiset(Mapped(RelationshipShape, b.relationships))
      && multiset(a.contextHashes) == multiset(b.contextHashes)
      && ShapeOf(Obj(a.rest)) == ShapeOf(Obj(b.rest))
  {
  }
}
