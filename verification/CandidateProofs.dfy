/** What materialising a candidate conserves, and what the audit gate guarantees. */
module CandidateProofs {
  import opened Common
  import opened Text
  import opened SituationText
  import opened SectionTargets
  import opened Candidate
  import opened CandidateReplay

  // ----- intents are conserved -----

  predicate Distinct(a: seq<nat>) {
    forall i, j :: 0 <= i < j < |a| ==> a[i] != a[j]
  }

  /** Every number below `n` is in exactly one of the lists, and once. */
  predicate Partition(a: seq<nat>, b: seq<nat>, n: nat) {
    && Distinct(a) && Distinct(b)
    && (forall p :: p in a ==> p < n && p !in b)
    && (forall p :: p in b ==> p < n)
    && (forall p: nat :: p < n ==> p in a || p in b)
  }

  function KeptAt(kept: seq<Kept>): (r: seq<nat>)
    ensures |r| == |kept| && forall i :: 0 <= i < |kept| ==> r[i] == kept[i].position
  {
    seq(|kept|, i requires 0 <= i < |kept| => kept[i].position)
  }

  function DiscardedAt(discarded: seq<Discarded>): (r: seq<nat>)
    ensures |r| == |discarded| && forall i :: 0 <= i < |discarded| ==> r[i] == discarded[i].position
  {
    seq(|discarded|, i requires 0 <= i < |discarded| => discarded[i].position)
  }

  /** Kept and discarded entries are those of the intents they carry the position of. */
  predicate Faithful(kept: seq<Kept>, discarded: seq<Discarded>, intents: seq<Intent>) {
    && (forall i :: 0 <= i < |kept| ==>
          var k := kept[i];
          k.position < |intents| && k.change.kind == intents[k.position].kind && k.change.key == intents[k.position].key
          && k.findings == intents[k.position].findings)
    && (forall i :: 0 <= i < |discarded| ==>
          var x := discarded[i];
          x.position < |intents| && x.intent.kind == intents[x.position].kind && x.intent.key == intents[x.position].key
          && x.intent.findings == intents[x.position].findings)
  }

  predicate Accounted(d: Draft, intents: seq<Intent>, n: nat) {
    n <= |intents| && Partition(KeptAt(d.kept), DiscardedAt(d.discarded), n) && Faithful(d.kept, d.discarded, intents)
  }

  lemma PartitionGrows(a: seq<nat>, b: seq<nat>, n: nat)
    requires Partition(a, b, n)
    ensures Partition(a + [n], b, n + 1) && Partition(a, b + [n], n + 1)
  {
    assert (a + [n])[|a|] == n && (b + [n])[|b|] == n;
    assert forall p :: p in a + [n] <==> p in a || p == n;
    assert forall p :: p in b + [n] <==> p in b || p == n;
    assert n !in a && n !in b;
  }

  lemma NormalizedIntent(env: Env, bundle: Bundle, intent: Intent)
    requires NormalizeMetadata(env, bundle, intent).Some?
    ensures var normalized := NormalizeMetadata(env, bundle, intent).value;
      normalized.kind == intent.kind && normalized.key == intent.key && normalized.findings == intent.findings
  {
  }

  lemma AddKept(d: Draft, next: Draft, k: Kept, intents: seq<Intent>, n: nat)
    requires Accounted(d, intents, n) && n < |intents|
    requires next.kept == d.kept + [k] && next.discarded == d.discarded
    requires k.position == n && k.change.kind == intents[n].kind && k.change.key == intents[n].key && k.findings == intents[n].findings
    ensures Accounted(next, intents, n + 1)
  {
    PartitionGrows(KeptAt(d.kept), DiscardedAt(d.discarded), n);
    hide Partition;
    assert KeptAt(next.kept) == KeptAt(d.kept) + [n];
  }

  lemma AddDiscarded(d: Draft, next: Draft, x: Discarded, intents: seq<Intent>, n: nat)
    requires Accounted(d, intents, n) && n < |intents|
    requires next.discarded == d.discarded + [x] && next.kept == d.kept
    requires x.position == n && x.intent.kind == intents[n].kind && x.intent.key == intents[n].key && x.intent.findings == intents[n].findings
    ensures Accounted(next, intents, n + 1)
  {
    PartitionGrows(KeptAt(d.kept), DiscardedAt(d.discarded), n);
    hide Partition;
    assert DiscardedAt(next.discarded) == DiscardedAt(d.discarded) + [n];
  }

  lemma TurnAccounts(env: Env, d: Draft, intents: seq<Intent>, n: nat)
    requires |d.sections| == |env.names| && Accounted(d, intents, n) && n < |intents|
    requires Turn(env, d, intents[n], n).Some?
    ensures Accounted(Turn(env, d, intents[n], n).value, intents, n + 1)
  {
    hide Accounted, Keep, NormalizeMetadata;
    var next := Turn(env, d, intents[n], n).value;
    if intents[n].wellFormed {
      NormalizedIntent(env, d.bundle, intents[n]);
      var normalized := NormalizeMetadata(env, d.bundle, intents[n]).value;
      if Keep(env, d, normalized, n).Some? {
        KeepAppends(env, d, normalized, n);
        assert next.kept == next.kept[..|d.kept|] + [next.kept[|d.kept|]];
        AddKept(d, next, next.kept[|d.kept|], intents, n);
      } else {
        AddDiscarded(d, next, Discarded(normalized, n), intents, n);
      }
    } else {
      AddDiscarded(d, next, Discarded(intents[n], n), intents, n);
    }
  }

  lemma {:induction false} TurnsAccount(env: Env, d: Draft, intents: seq<Intent>, n: nat)
    requires |d.sections| == |env.names| && Accounted(d, intents, n) && Turns(env, d, intents[n..], n).Some?
    ensures Accounted(Turns(env, d, intents[n..], n).value, intents, |intents|)
    decreases |intents| - n
  {
    if n < |intents| {
      assert intents[n..][0] == intents[n] && intents[n..][1..] == intents[n + 1..];
      TurnAccounts(env, d, intents, n);
      hide Turn, Accounted;
      TurnsAccount(env, Turn(env, d, intents[n], n).value, intents, n + 1);
    } else {
      assert intents[n..] == [];
    }
  }

  /** On return every intent is kept or discarded, exactly once, under its own position. */
  lemma IntentsConserved(env: Env, bundle: Bundle, body: string, intents: seq<Intent>)
    requires Materialize(env, bundle, body, intents).Some?
    ensures var r := Materialize(env, bundle, body, intents).value;
      Partition(KeptAt(r.kept), DiscardedAt(r.discarded), |intents|) && Faithful(r.kept, r.discarded, intents)
  {
    var start := Draft(bundle, Parse(env.names, body).value, [], []);
    assert intents[0..] == intents;
    assert Accounted(start, intents, 0);
    TurnsAccount(env, start, intents, 0);
    hide Turns, Parse, Partition, Faithful;
  }

  // ----- through the reference filter -----

  /** filterIntentReferences: which intents refer only to findings that exist, and
      where they stood. */
  datatype Filtered = Filtered(accepted: seq<Intent>, positions: seq<nat>, discarded: seq<Discarded>)

  predicate Refers(canonical: string -> string, keys: set<string>, intent: Intent) {
    forall i :: 0 <= i < |intent.findings| ==> canonical(intent.findings[i]) in keys
  }

  function Filter(canonical: string -> string, keys: set<string>, intents: seq<Intent>): (r: Filtered)
    ensures |r.accepted| == |r.positions|
  {
    if intents == [] then Filtered([], [], [])
    else
      var n := |intents| - 1;
      var before := Filter(canonical, keys, intents[..n]);
      if Refers(canonical, keys, intents[n])
      then before.(accepted := before.accepted + [intents[n]], positions := before.positions + [n])
      else before.(discarded := before.discarded + [Discarded(intents[n], n)])
  }

  /** materializeCandidateForSteps: positions in the filtered list are mapped back. */
  function MaterializeFiltered(env: Env, canonical: string -> string, keys: set<string>, bundle: Bundle, body: string,
                               intents: seq<Intent>): Option<Result> {
    var filtered := Filter(canonical, keys, intents);
    var candidate := Materialize(env, bundle, body, filtered.accepted);
    if candidate.None? then None
    else Some(candidate.value.(
      kept := MapKept(candidate.value.kept, filtered.positions),
      discarded := filtered.discarded + MapDiscarded(candidate.value.discarded, filtered.positions)))
  }

  function At(positions: seq<nat>, p: nat): nat {
    if p < |positions| then positions[p] else p
  }

  function MapKept(kept: seq<Kept>, positions: seq<nat>): (r: seq<Kept>)
    ensures |r| == |kept| && forall i :: 0 <= i < |kept| ==> r[i] == kept[i].(position := At(positions, kept[i].position))
  {
    seq(|kept|, i requires 0 <= i < |kept| => kept[i].(position := At(positions, kept[i].position)))
  }

  function MapDiscarded(discarded: seq<Discarded>, positions: seq<nat>): (r: seq<Discarded>)
    ensures |r| == |discarded| && forall i :: 0 <= i < |discarded| ==> r[i] == discarded[i].(position := At(positions, discarded[i].position))
  {
    seq(|discarded|, i requires 0 <= i < |discarded| => discarded[i].(position := At(positions, discarded[i].position)))
  }

  lemma {:induction false} FilterSplits(canonical: string -> string, keys: set<string>, intents: seq<Intent>)
    ensures var f := Filter(canonical, keys, intents);
      && Partition(f.positions, DiscardedAt(f.discarded), |intents|)
      && (forall i :: 0 <= i < |f.accepted| ==>
            f.positions[i] < |intents| && f.accepted[i] == intents[f.positions[i]] && Refers(canonical, keys, f.accepted[i]))
      && (forall i :: 0 <= i < |f.discarded| ==>
            f.discarded[i].position < |intents| && f.discarded[i].intent == intents[f.discarded[i].position]
            && !Refers(canonical, keys, f.discarded[i].intent))
  {
    if intents != [] {
      var n := |intents| - 1;
      FilterSplits(canonical, keys, intents[..n]);
      var before := Filter(canonical, keys, intents[..n]);
      PartitionGrows(before.positions, DiscardedAt(before.discarded), n);
      hide Partition, Refers;
      var f := Filter(canonical, keys, intents);
      if Refers(canonical, keys, intents[n]) {
        assert f.discarded == before.discarded;
      } else {
        assert DiscardedAt(f.discarded) == DiscardedAt(before.discarded) + [n];
      }
    }
  }

  /** Composing two partitions. */
  lemma PartitionComposes(positions: seq<nat>, out: seq<nat>, n: nat, a: seq<nat>, b: seq<nat>, a': seq<nat>, b': seq<nat>)
    requires Partition(positions, out, n) && Partition(a, b, |positions|)
    requires |a'| == |a| && forall i :: 0 <= i < |a| ==> a[i] < |positions| && a'[i] == positions[a[i]]
    requires |b'| == |b| && forall i :: 0 <= i < |b| ==> b[i] < |positions| && b'[i] == positions[b[i]]
    ensures Partition(a', out + b', n)
  {
    forall p | p in a'
      ensures p < n && p !in out + b'
    {
      var i :| 0 <= i < |a'| && a'[i] == p;
      assert a[i] in a;
      assert p in positions;
      forall j | 0 <= j < |b'|
        ensures b'[j] != p
      {
        assert b[j] in b;
      }
    }
    forall p | p in out + b'
      ensures p < n
    {
      if p !in out {
        var j :| 0 <= j < |b'| && b'[j] == p;
        assert positions[b[j]] in positions;
      }
    }
    forall p: nat | p < n
      ensures p in a' || p in out + b'
    {
      if p !in out {
        assert p in positions;
        var q :| 0 <= q < |positions| && positions[q] == p;
        if q in a {
          var i :| 0 <= i < |a| && a[i] == q;
          assert a'[i] == p;
        } else {
          assert q in b;
          var j :| 0 <= j < |b| && b[j] == q;
          assert b'[j] == p;
          assert (out + b')[|out| + j] == p;
        }
      }
    }
    DistinctComposes(positions, out, n, b, b');
  }

  lemma DistinctComposes(positions: seq<nat>, out: seq<nat>, n: nat, b: seq<nat>, b': seq<nat>)
    requires Partition(positions, out, n) && Distinct(b)
    requires |b'| == |b| && forall i :: 0 <= i < |b| ==> b[i] < |positions| && b'[i] == positions[b[i]]
    ensures Distinct(out + b')
  {
    var all := out + b';
    forall i, j | 0 <= i < j < |all|
      ensures all[i] != all[j]
    {
      if j >= |out| {
        assert positions[b[j - |out|]] in positions;
        if i < |out| {
          assert out[i] in out;
        }
      }
    }
  }

  /** Every builder intent is kept or discarded exactly once under its own original
      position, through the reference filter and the mapping back of positions; an
      intent with a missing finding is always discarded. */
  lemma BuilderIntentsConserved(env: Env, canonical: string -> string, keys: set<string>, bundle: Bundle, body: string, intents: seq<Intent>)
    requires MaterializeFiltered(env, canonical, keys, bundle, body, intents).Some?
    ensures var r := MaterializeFiltered(env, canonical, keys, bundle, body, intents).value;
      && Partition(KeptAt(r.kept), DiscardedAt(r.discarded), |intents|)
      && Faithful(r.kept, r.discarded, intents)
      && (forall i :: 0 <= i < |r.kept| ==>
            r.kept[i].position < |intents| && Refers(canonical, keys, intents[r.kept[i].position]))
  {
    hide Materialize, Refers, Partition, Filter, Faithful;
    var f := Filter(canonical, keys, intents);
    var c := Materialize(env, bundle, body, f.accepted).value;
    FilterSplits(canonical, keys, intents);
    IntentsConserved(env, bundle, body, f.accepted);
    PositionsBelow(c, |f.accepted|);
    MappedPartition(f, c, |intents|);
    MappedFaithful(f, c, intents);
    RefersMapped(canonical, keys, f, c, intents);
  }

  lemma MappedPartition(f: Filtered, c: Result, n: nat)
    requires |f.accepted| == |f.positions| && Partition(f.positions, DiscardedAt(f.discarded), n)
    requires Partition(KeptAt(c.kept), DiscardedAt(c.discarded), |f.positions|)
    ensures Partition(KeptAt(MapKept(c.kept, f.positions)), DiscardedAt(f.discarded + MapDiscarded(c.discarded, f.positions)), n)
  {
    PositionsBelow(c, |f.positions|);
    hide Partition;
    var b' := DiscardedAt(MapDiscarded(c.discarded, f.positions));
    PartitionComposes(f.positions, DiscardedAt(f.discarded), n, KeptAt(c.kept), DiscardedAt(c.discarded),
                      KeptAt(MapKept(c.kept, f.positions)), b');
    assert DiscardedAt(f.discarded + MapDiscarded(c.discarded, f.positions)) == DiscardedAt(f.discarded) + b';
  }

  lemma MappedFaithful(f: Filtered, c: Result, intents: seq<Intent>)
    requires |f.accepted| == |f.positions| && Faithful(c.kept, c.discarded, f.accepted)
    requires forall i :: 0 <= i < |f.accepted| ==> f.positions[i] < |intents| && f.accepted[i] == intents[f.positions[i]]
    requires forall i :: 0 <= i < |f.discarded| ==>
      f.discarded[i].position < |intents| && f.discarded[i].intent == intents[f.discarded[i].position]
    ensures Faithful(MapKept(c.kept, f.positions), f.discarded + MapDiscarded(c.discarded, f.positions), intents)
  {
  }

  lemma RefersMapped(canonical: string -> string, keys: set<string>, f: Filtered, c: Result, intents: seq<Intent>)
    requires |f.accepted| == |f.positions| && forall i :: 0 <= i < |c.kept| ==> c.kept[i].position < |f.accepted|
    requires forall i :: 0 <= i < |f.accepted| ==>
      f.positions[i] < |intents| && f.accepted[i] == intents[f.positions[i]] && Refers(canonical, keys, f.accepted[i])
    ensures forall i :: 0 <= i < |c.kept| ==>
      var p := MapKept(c.kept, f.positions)[i].position; p < |intents| && Refers(canonical, keys, intents[p])
  {
  }

  lemma PositionsBelow(c: Result, n: nat)
    requires Partition(KeptAt(c.kept), DiscardedAt(c.discarded), n)
    ensures forall i :: 0 <= i < |c.kept| ==> c.kept[i].position < n
    ensures forall i :: 0 <= i < |c.discarded| ==> c.discarded[i].position < n
  {
    forall i | 0 <= i < |c.kept|
      ensures c.kept[i].position < n
    {
      assert KeptAt(c.kept)[i] in KeptAt(c.kept);
    }
    forall i | 0 <= i < |c.discarded|
      ensures c.discarded[i].position < n
    {
      assert DiscardedAt(c.discarded)[i] in DiscardedAt(c.discarded);
    }
  }

  // ----- kept targets never overlap -----

  /** In one section neither target is the whole of it, and they are not the same
      subheading, up to what labels ignore, nor the same named block. */
  predicate Separate(tables: Tables, s: Target, t: Target) {
    s.section == t.section ==>
      && !s.Whole? && !t.Whole?
      && (s.Subheading? && t.Subheading? ==> tables.labelOf(s.subheading) != tables.labelOf(t.subheading))
      && (s.NamedBlock? && t.NamedBlock? ==> s.anchor != t.anchor)
  }

  predicate Apart(env: Env, a: Kept, b: Kept) {
    && !(a.change.kind == b.change.kind && a.change.key == b.change.key)
    && (a.change.kind.SectionKind? && b.change.kind.SectionKind? ==>
          var s, t := ParseTarget(env.names, a.change.key, 0), ParseTarget(env.names, b.change.key, 0);
          s.Some? && t.Some? && Separate(env.tables, s.value, t.value))
  }

  predicate AllApart(env: Env, kept: seq<Kept>) {
    forall i, j :: 0 <= i < j < |kept| ==> Apart(env, kept[i], kept[j])
  }

  predicate SectionsHaveTargets(env: Env, kept: seq<Kept>) {
    forall i :: 0 <= i < |kept| && kept[i].change.kind.SectionKind? ==> ParseTarget(env.names, kept[i].change.key, 0).Some?
  }

  lemma OneApart(env: Env, kept: seq<Kept>, i: nat, k: Kept)
    requires i < |kept| && SectionsHaveTargets(env, kept) && !Seen(kept, k.change.kind, k.change.key)
    requires k.change.kind.SectionKind? ==>
      ParseTarget(env.names, k.change.key, 0).Some? && !SectionOverlaps(env, kept, k.change.key)
    ensures Apart(env, kept[i], k)
  {
    hide ParseTarget;
    if kept[i].change.kind.SectionKind? && k.change.kind.SectionKind? {
      assert !TargetsOverlap(env, kept[i], ParseTarget(env.names, k.change.key, 0).value);
    }
  }

  lemma AppendApart(env: Env, kept: seq<Kept>, k: Kept)
    requires AllApart(env, kept) && SectionsHaveTargets(env, kept) && !Seen(kept, k.change.kind, k.change.key)
    requires k.change.kind.SectionKind? ==>
      ParseTarget(env.names, k.change.key, 0).Some? && !SectionOverlaps(env, kept, k.change.key)
    ensures AllApart(env, kept + [k]) && SectionsHaveTargets(env, kept + [k])
  {
    hide ParseTarget, Apart, Seen, SectionOverlaps;
    forall i | 0 <= i < |kept|
      ensures Apart(env, kept[i], k)
    {
      OneApart(env, kept, i, k);
    }
  }

  lemma KeepApart(env: Env, d: Draft, intent: Intent, position: nat)
    requires |d.sections| == |env.names| && Keep(env, d, intent, position).Some?
    requires AllApart(env, d.kept) && SectionsHaveTargets(env, d.kept)
    ensures var d' := Keep(env, d, intent, position).value; AllApart(env, d'.kept) && SectionsHaveTargets(env, d'.kept)
  {
    hide *;
    KeepAppends(env, d, intent, position);
    KeepTested(env, d, intent, position);
    var d' := Keep(env, d, intent, position).value;
    assert d'.kept == d.kept + [d'.kept[|d.kept|]];
    AppendApart(env, d.kept, d'.kept[|d.kept|]);
  }

  lemma KeepTested(env: Env, d: Draft, intent: Intent, position: nat)
    requires |d.sections| == |env.names| && Keep(env, d, intent, position).Some?
    ensures !Seen(d.kept, intent.kind, intent.key)
    ensures intent.kind.SectionKind? ==> ParseTarget(env.names, intent.key, 0).Some? && !SectionOverlaps(env, d.kept, intent.key)
  {
    hide Serialize, Normalize, EditCandidate, ChangeBefore, BodyHash, Seen, SectionOverlaps, ParseTarget;
  }

  // ----- the candidate is the fold of what was kept -----

  /** Applying the kept changes alone, one after the other: an automatic one edits the
      candidate, a manual one leaves it; None as soon as a revision is not valid. */
  function FoldKept(env: Env, bundle: Bundle, sections: seq<string>, kept: seq<Kept>): Option<(Bundle, seq<string>)>
    requires |sections| == |env.names|
    decreases |kept|
  {
    if kept == [] then Some((bundle, sections))
    else
      var before := FoldKept(env, bundle, sections, kept[..|kept| - 1]);
      if before.None? || |before.value.1| != |env.names| then None
      else FoldOne(env, before.value.0, before.value.1, kept[|kept| - 1])
  }

  function FoldOne(env: Env, bundle: Bundle, sections: seq<string>, k: Kept): Option<(Bundle, seq<string>)>
    requires |sections| == |env.names|
  {
    var edited := if k.automatic then EditCandidate(env, bundle, sections, k.change) else Some((bundle, sections));
    if edited.None? then None
    else
      var body := Serialize(env.names, edited.value.1);
      var rehashed := edited.value.0.(bodyHash := BodyHash(env, body));
      if env.accepts(rehashed) && env.valid(rehashed, body) then Some((rehashed, edited.value.1)) else None
  }

  lemma KeepFolds(env: Env, d: Draft, intent: Intent, position: nat)
    requires |d.sections| == |env.names| && Keep(env, d, intent, position).Some?
    ensures var d' := Keep(env, d, intent, position).value;
      |d'.kept| == |d.kept| + 1 && FoldOne(env, d.bundle, d.sections, d'.kept[|d.kept|]) == Some((d'.bundle, d'.sections))
  {
    KeepAppends(env, d, intent, position);
    hide Serialize, Normalize, EditCandidate, ChangeBefore, BodyHash, Seen, SectionOverlaps, ParseTarget;
  }

  /** What holds of the candidate at every turn. */
  predicate Built(env: Env, bundle: Bundle, sections: seq<string>, d: Draft)
    requires |sections| == |env.names|
  {
    && |d.sections| == |env.names|
    && FoldKept(env, bundle, sections, d.kept) == Some((d.bundle, d.sections))
    && AllApart(env, d.kept) && SectionsHaveTargets(env, d.kept)
  }

  lemma TurnBuilds(env: Env, bundle: Bundle, sections: seq<string>, d: Draft, intent: Intent, position: nat)
    requires |sections| == |env.names| && Built(env, bundle, sections, d) && Turn(env, d, intent, position).Some?
    ensures Built(env, bundle, sections, Turn(env, d, intent, position).value)
  {
    TurnCases(env, d, intent, position);
    var next := Turn(env, d, intent, position).value;
    hide Turn, Keep, AllApart, SectionsHaveTargets, FoldOne;
    if !(next.bundle == d.bundle && next.sections == d.sections && next.kept == d.kept) {
      var normalized :| Keep(env, d, normalized, position) == Some(next);
      KeepApart(env, d, normalized, position);
      KeepFolds(env, d, normalized, position);
      KeepAppends(env, d, normalized, position);
      assert next.kept[..|next.kept| - 1] == d.kept;
    }
  }

  lemma {:induction false} TurnsBuild(env: Env, bundle: Bundle, sections: seq<string>, d: Draft, intents: seq<Intent>, position: nat)
    requires |sections| == |env.names| && Built(env, bundle, sections, d) && Turns(env, d, intents, position).Some?
    ensures Built(env, bundle, sections, Turns(env, d, intents, position).value)
    decreases |intents|
  {
    if intents != [] {
      TurnBuilds(env, bundle, sections, d, intents[0], position);
      hide Turn, FoldKept, AllApart, SectionsHaveTargets;
      TurnsBuild(env, bundle, sections, Turn(env, d, intents[0], position).value, intents[1..], position + 1);
    }
  }

  /** The candidate is the fold of the kept changes alone; every revision on the way is
      valid, and no two kept targets are the same or overlap. */
  lemma CandidateIsFoldOfKept(env: Env, bundle: Bundle, body: string, intents: seq<Intent>)
    requires Materialize(env, bundle, body, intents).Some?
    ensures var r := Materialize(env, bundle, body, intents).value; var sections := Parse(env.names, body);
      && sections.Some? && AllApart(env, r.kept)
      && var folded := FoldKept(env, bundle, sections.value, r.kept);
      && folded.Some? && |folded.value.1| == |env.names|
      && r.body == Serialize(env.names, folded.value.1)
      && r.bundle == folded.value.0.(bodyHash := BodyHash(env, r.body)) && env.valid(r.bundle, r.body)
  {
    var sections := Parse(env.names, body).value;
    var start := Draft(bundle, sections, [], []);
    assert Built(env, bundle, sections, start);
    TurnsBuild(env, bundle, sections, start, intents, 0);
    hide Turns, FoldKept, AllApart, SectionsHaveTargets, Parse, Serialize, BodyHash;
  }
}
