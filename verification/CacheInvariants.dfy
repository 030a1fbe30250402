/** What every run of get and add keeps. */
module CacheInvariants {
  import opened Text
  import opened Oci
  import opened ArtifactCaches

  /** Names as the dispatcher lets them through: no '@' in either part, no '/' in the chart. */
  predicate NameOk(repo: string, chart: string) {
    '@' !in repo && '@' !in chart && '/' !in chart
  }

  function KeyKind(id: string): char {
    var i := IndexOf(id, '@');
    if i + 1 < |id| then id[i + 1] else ' '
  }

  lemma KeyShape(repo: string, chart: string, kind: string, rest: string)
    requires NameOk(repo, chart) && |kind| == 3 && kind[0] == '@'
    ensures KeyKind(repo + "/" + chart + kind + rest) == kind[1]
  {
    var pre := repo + "/" + chart;
    assert forall k | 0 <= k < |pre| :: pre[k] != '@';
    var id := pre + kind + rest;
    assert forall k | 0 <= k < |pre| :: id[k] == pre[k];
    assert id[|pre|] == kind[0] && id[|pre| + 1] == kind[1];
  }

  lemma VersionKeyKind(repo: string, chart: string, version: string)
    requires NameOk(repo, chart)
    ensures KeyKind(VersionKey(repo, chart, version)) == 'v'
  {
    KeyShape(repo, chart, "@v:", version);
  }

  lemma DigestKeyKind(repo: string, chart: string, digest: string)
    requires NameOk(repo, chart)
    ensures KeyKind(DigestKey(repo, chart, digest)) == 'd'
  {
    KeyShape(repo, chart, "@d:", digest);
  }

  lemma KeyInjective(repo: string, chart: string, kind: string, rest: string,
                     repo': string, chart': string, kind': string, rest': string)
    requires NameOk(repo, chart) && NameOk(repo', chart') && |kind| == |kind'| == 2
    requires repo + "/" + chart + "@" + kind + rest == repo' + "/" + chart' + "@" + kind' + rest'
    ensures repo == repo' && chart == chart' && kind == kind' && rest == rest'
  {
    var pre, pre' := repo + "/" + chart, repo' + "/" + chart';
    assert pre + ['@'] + (kind + rest) == pre' + ['@'] + (kind' + rest') by {
      assert pre + ['@'] + (kind + rest) == repo + "/" + chart + "@" + kind + rest;
      assert pre' + ['@'] + (kind' + rest') == repo' + "/" + chart' + "@" + kind' + rest';
    }
    FirstSeparatorUnique(pre, kind + rest, pre', kind' + rest', '@');
    assert kind == (kind + rest)[..2] && kind' == (kind' + rest')[..2];
    assert rest == (kind + rest)[2..] && rest' == (kind' + rest')[2..];
    LastSeparatorUnique(repo, chart, repo', chart', '/');
  }

  /** A key names its repo, chart and version: a hit never crosses a name boundary. */
  lemma VersionKeyInjective(repo: string, chart: string, version: string, repo': string, chart': string,
                            version': string)
    requires NameOk(repo, chart) && NameOk(repo', chart')
    requires VersionKey(repo, chart, version) == VersionKey(repo', chart', version')
    ensures repo == repo' && chart == chart' && version == version'
  {
    assert VersionKey(repo, chart, version) == repo + "/" + chart + "@" + "v:" + version;
    assert VersionKey(repo', chart', version') == repo' + "/" + chart' + "@" + "v:" + version';
    KeyInjective(repo, chart, "v:", version, repo', chart', "v:", version');
  }

  lemma DigestKeyInjective(repo: string, chart: string, digest: string, repo': string, chart': string, digest': string)
    requires NameOk(repo, chart) && NameOk(repo', chart')
    requires DigestKey(repo, chart, digest) == DigestKey(repo', chart', digest')
    ensures repo == repo' && chart == chart' && digest == digest'
  {
    assert DigestKey(repo, chart, digest) == repo + "/" + chart + "@" + "d:" + digest;
    assert DigestKey(repo', chart', digest') == repo' + "/" + chart' + "@" + "d:" + digest';
    KeyInjective(repo, chart, "d:", digest, repo', chart', "d:", digest');
  }

  /** The entry add would make for some valid name. */
  ghost predicate Owned(e: CacheEntry) {
    exists repo, chart :: NameOk(repo, chart) && e == NewEntry(repo, chart, e.art)
  }

  lemma {:induction false} DigestKeysAt(repo: string, chart: string, digests: seq<string>)
    ensures forall i | 0 <= i < |digests| :: DigestKeys(repo, chart, digests)[i] == DigestKey(repo, chart, digests[i])
  {
    if digests != [] {
      DigestKeysAt(repo, chart, digests[1..]);
    }
  }

  lemma OwnedKinds(e: CacheEntry)
    requires Owned(e)
    ensures |e.ids| > 0 && KeyKind(e.ids[0]) == 'v'
    ensures forall k | 1 <= k < |e.ids| :: KeyKind(e.ids[k]) == 'd'
  {
    var repo, chart :| NameOk(repo, chart) && e == NewEntry(repo, chart, e.art);
    VersionKeyKind(repo, chart, e.art.version);
    var digests := Digests(e.art);
    DigestKeysAt(repo, chart, digests);
    forall k | 1 <= k < |e.ids| ensures KeyKind(e.ids[k]) == 'd' {
      DigestKeyKind(repo, chart, digests[k - 1]);
    }
  }

  /** Entries sharing an id through its version key share the version key. */
  lemma VersionKeyOnlyMeetsVersionKeys(e: CacheEntry, f: CacheEntry)
    requires Owned(e) && Owned(f) && |e.ids| > 0 && |f.ids| > 0 && f.ids[0] in e.ids
    ensures f.ids[0] == e.ids[0]
  {
    OwnedKinds(e);
    OwnedKinds(f);
  }

  function Total(ll: seq<CacheEntry>): nat {
    if ll == [] then 0 else ll[0].bytes + Total(ll[1..])
  }

  ghost predicate NoDuplicates(ll: seq<CacheEntry>) {
    forall i, j | 0 <= i < j < |ll| :: ll[i] != ll[j]
  }

  /** The multi-index invariant: no dangling key, every resident findable by its version key,
      residents distinct, and size the sum of resident bytes. */
  ghost predicate WellIndexed(c: Cache) {
    && (forall id | id in c.byID :: c.byID[id] in c.ll && id in c.byID[id].ids)
    && (forall e | e in c.ll :: Owned(e) && Indexed(c, e))
    && NoDuplicates(c.ll)
    && c.size == Total(c.ll)
  }

  ghost predicate Indexed(c: Cache, e: CacheEntry) {
    |e.ids| > 0 && e.ids[0] in c.byID && c.byID[e.ids[0]] == e
  }

  ghost predicate Bounded(max: int, c: Cache) {
    c.size <= max || |c.ll| <= 1
  }

  lemma {:induction false} WithoutWeighs(ll: seq<CacheEntry>, e: CacheEntry)
    requires e in ll
    ensures Total(ll) == e.bytes + Total(Without(ll, e)) && |Without(ll, e)| == |ll| - 1
  {
    if ll[0] != e {
      WithoutWeighs(ll[1..], e);
      assert Without(ll, e)[1..] == Without(ll[1..], e);
    }
  }

  lemma {:induction false} WithoutHolds(ll: seq<CacheEntry>, e: CacheEntry)
    requires NoDuplicates(ll) && e in ll
    ensures forall f :: f in Without(ll, e) <==> f in ll && f != e
  {
    if ll[0] != e {
      WithoutHolds(ll[1..], e);
    }
    assert ll == [ll[0]] + ll[1..];
  }

  lemma {:induction false} WithoutRest(ll: seq<CacheEntry>, e: CacheEntry)
    requires NoDuplicates(ll) && e in ll
    ensures NoDuplicates(Without(ll, e))
    ensures forall f :: f in Without(ll, e) <==> f in ll && f != e
    ensures Total(ll) == e.bytes + Total(Without(ll, e))
    ensures |Without(ll, e)| == |ll| - 1
  {
    hide Total;
    WithoutWeighs(ll, e);
    WithoutHolds(ll, e);
    if ll[0] != e {
      WithoutRest(ll[1..], e);
      var rest := Without(ll[1..], e);
      assert forall k | 0 <= k < |rest| :: rest[k] in rest;
    }
  }

  lemma MoveToFrontKeeps(ll: seq<CacheEntry>, e: CacheEntry)
    requires NoDuplicates(ll) && e in ll
    ensures NoDuplicates(MoveToFront(ll, e))
    ensures forall f :: f in MoveToFront(ll, e) <==> f in ll
    ensures Total(MoveToFront(ll, e)) == Total(ll) && |MoveToFront(ll, e)| == |ll|
  {
    WithoutRest(ll, e);
    assert MoveToFront(ll, e)[1..] == Without(ll, e);
  }

  /** Refreshing an entry's recency touches nothing but the order. */
  lemma RefreshKeeps(c: Cache, e: CacheEntry)
    requires WellIndexed(c) && e in c.ll
    ensures WellIndexed(c.(ll := MoveToFront(c.ll, e)))
    ensures forall f :: f in MoveToFront(c.ll, e) <==> f in c.ll
  {
    MoveToFrontKeeps(c.ll, e);
  }

  lemma GetKeeps(max: int, c: Cache, id: string)
    requires WellIndexed(c) && Bounded(max, c)
    ensures WellIndexed(Get(c, id).0) && Bounded(max, Get(c, id).0)
    ensures forall f :: f in Get(c, id).0.ll <==> f in c.ll
  {
    if id in c.byID {
      RefreshKeeps(c, c.byID[id]);
      MoveToFrontKeeps(c.ll, c.byID[id]);
    }
  }

  lemma PushIndexes(c: Cache, e: CacheEntry, f: CacheEntry)
    requires Owned(e) && |e.ids| > 0 && e.ids[0] !in c.byID
    requires f == e || (Owned(f) && Indexed(c, f))
    ensures Indexed(Push(c, e), f)
  {
    if f != e && f.ids[0] in e.ids {
      VersionKeyOnlyMeetsVersionKeys(e, f);
    }
  }

  lemma PushDanglesNothing(c: Cache, e: CacheEntry, id: string)
    requires id in Push(c, e).byID
    requires id in c.byID ==> c.byID[id] in c.ll && id in c.byID[id].ids
    ensures Push(c, e).byID[id] in Push(c, e).ll && id in Push(c, e).byID[id].ids
  {
  }

  lemma PushDistinct(c: Cache, e: CacheEntry)
    requires NoDuplicates(c.ll) && e !in c.ll
    ensures NoDuplicates(Push(c, e).ll) && Total(Push(c, e).ll) == e.bytes + Total(c.ll)
  {
  }

  lemma PushKeeps(c: Cache, e: CacheEntry)
    requires WellIndexed(c) && Owned(e) && |e.ids| > 0 && e.ids[0] !in c.byID
    ensures WellIndexed(Push(c, e))
  {
    assert e in c.ll ==> Indexed(c, e);
    PushDistinct(c, e);
    forall f | f in Push(c, e).ll ensures Owned(f) && Indexed(Push(c, e), f) {
      PushIndexes(c, e, f);
    }
    forall id | id in Push(c, e).byID ensures Push(c, e).byID[id] in Push(c, e).ll && id in Push(c, e).byID[id].ids {
      PushDanglesNothing(c, e, id);
    }
  }

  lemma {:induction false} TotalSnoc(ll: seq<CacheEntry>, e: CacheEntry)
    ensures Total(ll + [e]) == Total(ll) + e.bytes
  {
    if ll != [] {
      assert (ll + [e])[1..] == ll[1..] + [e];
      TotalSnoc(ll[1..], e);
    }
  }

  lemma EvictOldestDangles(c: Cache, id: string)
    requires WellIndexed(c) && c.ll != [] && id in EvictOldest(c).byID
    ensures var c' := EvictOldest(c); c'.byID[id] in c'.ll && id in c'.byID[id].ids
  {
    hide Total, Owned, Indexed;
    var n := |c.ll| - 1;
    assert c.byID[id] in c.ll && c.byID[id] != c.ll[n];
  }

  lemma EvictOldestIndexes(c: Cache, f: CacheEntry)
    requires WellIndexed(c) && c.ll != [] && f in EvictOldest(c).ll
    ensures Owned(f) && Indexed(EvictOldest(c), f)
  {
    hide Total, Owned;
    var last := c.ll[|c.ll| - 1];
    OldestDiffers(c, f);
    assert f in c.ll && Indexed(c, f) && Indexed(c, last);
    if f.ids[0] in last.ids {
      VersionKeyOnlyMeetsVersionKeys(last, f);
    }
  }

  lemma OldestDiffers(c: Cache, e: CacheEntry)
    requires WellIndexed(c) && c.ll != [] && e in c.ll[..|c.ll| - 1]
    ensures e != c.ll[|c.ll| - 1]
  {
  }

  lemma EvictOldestKeeps(c: Cache)
    requires WellIndexed(c) && c.ll != []
    ensures WellIndexed(EvictOldest(c))
  {
    hide Owned, Indexed;
    var n := |c.ll| - 1;
    var last, c' := c.ll[n], EvictOldest(c);
    assert c.ll == c.ll[..n] + [last];
    TotalSnoc(c.ll[..n], last);
    forall f | f in c'.ll ensures Owned(f) && Indexed(c', f) {
      EvictOldestIndexes(c, f);
    }
    forall id | id in c'.byID ensures c'.byID[id] in c'.ll && id in c'.byID[id].ids {
      EvictOldestDangles(c, id);
    }
  }

  lemma {:induction false} ShrinkKeeps(max: int, c: Cache)
    requires WellIndexed(c)
    ensures WellIndexed(Shrink(max, c)) && Bounded(max, Shrink(max, c))
    ensures forall f | f in Shrink(max, c).ll :: f in c.ll
    decreases |c.ll|
  {
    if c.size > max && |c.ll| > 1 {
      EvictOldestKeeps(c);
      ShrinkKeeps(max, EvictOldest(c));
    }
  }

  lemma {:induction false} ShrinkKeepsFront(max: int, c: Cache)
    requires c.ll != []
    ensures Shrink(max, c).ll != [] && Shrink(max, c).ll[0] == c.ll[0]
    decreases |c.ll|
  {
    if c.size > max && |c.ll| > 1 {
      ShrinkKeepsFront(max, EvictOldest(c));
    }
  }

  /** Adding keeps the invariant, ends within the bound or with exactly one entry,
      and leaves the version just added at the front. */
  lemma AddKeeps(max: int, c: Cache, repo: string, chart: string, art: Artifact)
    requires WellIndexed(c) && Bounded(max, c) && NameOk(repo, chart)
    ensures var c' := Add(max, c, repo, chart, art);
      && WellIndexed(c')
      && (c'.size <= max || |c'.ll| == 1)
      && |c'.ll| >= 1 && |c'.ll[0].ids| > 0 && c'.ll[0].ids[0] == VersionKey(repo, chart, art.version)
      && (forall f | f in c'.ll :: f in c.ll || f == NewEntry(repo, chart, art))
      && (VersionKey(repo, chart, art.version) !in c.byID ==> c'.ll[0] == NewEntry(repo, chart, art))
  {
    var e := NewEntry(repo, chart, art);
    if e.ids[0] in c.byID {
      RefreshKeeps(c, c.byID[e.ids[0]]);
      MoveToFrontKeeps(c.ll, c.byID[e.ids[0]]);
      OwnedKinds(c.byID[e.ids[0]]);
      OwnedKinds(e);
      VersionKeyOnlyMeetsVersionKeys(c.byID[e.ids[0]], e);
    } else {
      PushKeeps(c, e);
      ShrinkKeeps(max, Push(c, e));
      ShrinkKeepsFront(max, Push(c, e));
    }
  }

  datatype Operation =
    | GetOp(id: string)
    | AddOp(repo: string, chart: string, art: Artifact)

  ghost predicate Admissible(ops: seq<Operation>) {
    forall op | op in ops :: op.AddOp? ==> NameOk(op.repo, op.chart)
  }

  ghost function RunOperations(max: int, c: Cache, ops: seq<Operation>): Cache
    decreases ops
  {
    if ops == [] then c
    else
      var c' := match ops[0]
        case GetOp(id) => Get(c, id).0
        case AddOp(repo, chart, art) => Add(max, c, repo, chart, art);
      RunOperations(max, c', ops[1..])
  }

  /** The invariant and the bound hold after every run from the empty cache. */
  lemma EveryRunWellIndexed(max: int, ops: seq<Operation>)
    requires Admissible(ops)
    ensures WellIndexed(RunOperations(max, EMPTY, ops)) && Bounded(max, RunOperations(max, EMPTY, ops))
  {
    RunKeeps(max, EMPTY, ops);
  }

  lemma {:induction false} RunKeeps(max: int, c: Cache, ops: seq<Operation>)
    requires Admissible(ops) && WellIndexed(c) && Bounded(max, c)
    ensures WellIndexed(RunOperations(max, c, ops)) && Bounded(max, RunOperations(max, c, ops))
    decreases ops
  {
    if ops != [] {
      assert ops[0] in ops;
      match ops[0] {
        case GetOp(id) => GetKeeps(max, c, id); RunKeeps(max, Get(c, id).0, ops[1..]);
        case AddOp(repo, chart, art) =>
          AddKeeps(max, c, repo, chart, art);
          RunKeeps(max, Add(max, c, repo, chart, art), ops[1..]);
      }
    }
  }

  /** Every key of every resident entry leads to it. */
  ghost predicate FullyIndexed(c: Cache) {
    forall e | e in c.ll :: EveryKeyLeadsTo(c, e)
  }

  ghost predicate EveryKeyLeadsTo(c: Cache, e: CacheEntry) {
    forall id | id in e.ids :: id in c.byID && c.byID[id] == e
  }

  lemma KeysSurvive(c: Cache, e: CacheEntry)
    requires c.ll != [] && e != c.ll[|c.ll| - 1]
    requires EveryKeyLeadsTo(c, e) && EveryKeyLeadsTo(c, c.ll[|c.ll| - 1])
    ensures EveryKeyLeadsTo(EvictOldest(c), e)
  {
  }

  lemma EvictOldestStaysFull(c: Cache)
    requires WellIndexed(c) && FullyIndexed(c) && c.ll != []
    ensures FullyIndexed(EvictOldest(c))
  {
    hide WellIndexed, EveryKeyLeadsTo;
    forall e | e in EvictOldest(c).ll ensures EveryKeyLeadsTo(EvictOldest(c), e) {
      OldestDiffers(c, e);
      assert e in c.ll;
      KeysSurvive(c, e);
    }
  }

  lemma {:induction false} ShrinkStaysFull(max: int, c: Cache)
    requires WellIndexed(c) && FullyIndexed(c)
    ensures FullyIndexed(Shrink(max, c))
    decreases |c.ll|
  {
    if c.size > max && |c.ll| > 1 {
      EvictOldestStaysFull(c);
      EvictOldestKeeps(c);
      ShrinkStaysFull(max, EvictOldest(c));
    }
  }

  /** An evicted entry takes every key it owned with it, whoever the key led to. */
  lemma {:induction false} ShrinkForgets(max: int, c: Cache, f: CacheEntry, id: string)
    requires f in c.ll && f !in Shrink(max, c).ll && id in f.ids
    ensures id !in Shrink(max, c).byID
    decreases |c.ll|
  {
    var n := |c.ll| - 1;
    if f in c.ll[..n] {
      ShrinkForgets(max, EvictOldest(c), f, id);
    } else {
      assert f == c.ll[n];
      ShrinkNarrows(max, EvictOldest(c));
    }
  }

  lemma {:induction false} ShrinkNarrows(max: int, c: Cache)
    ensures Shrink(max, c).byID.Keys <= c.byID.Keys
    decreases |c.ll|
  {
    if c.size > max && |c.ll| > 1 {
      ShrinkNarrows(max, EvictOldest(c));
    }
  }

  ghost predicate SharesNoKey(c: Cache, e: CacheEntry) {
    forall f | f in c.ll :: Ids(f) * Ids(e) == {}
  }

  lemma PushFullyIndexedIff(max: int, c: Cache, e: CacheEntry)
    requires WellIndexed(c) && FullyIndexed(c) && Owned(e) && |e.ids| > 0 && e.ids[0] !in c.byID
    ensures FullyIndexed(Shrink(max, Push(c, e))) <==> SharesNoKey(c, e)
  {
    PushKeeps(c, e);
    if SharesNoKey(c, e) {
      PushStaysFull(c, e);
      ShrinkStaysFull(max, Push(c, e));
    } else {
      assert e !in c.ll;
      ShrinkKeepsFront(max, Push(c, e));
      var f :| f in c.ll && Ids(f) * Ids(e) != {};
      SharedIdsLoseOne(max, c, e, f);
    }
  }

  lemma SharedIdsLoseOne(max: int, c: Cache, e: CacheEntry, f: CacheEntry)
    requires e !in c.ll && f in c.ll && Ids(f) * Ids(e) != {}
    requires e in Shrink(max, Push(c, e)).ll
    ensures !FullyIndexed(Shrink(max, Push(c, e)))
  {
    var id :| id in Ids(f) * Ids(e);
    SharedKeyLosesOne(max, c, e, f, id);
  }

  /** Adding a version leaves every resident key present exactly when the new entry
      shares no key with a resident one. */
  lemma AddFullyIndexedIff(max: int, c: Cache, repo: string, chart: string, art: Artifact)
    requires WellIndexed(c) && FullyIndexed(c) && NameOk(repo, chart)
    requires VersionKey(repo, chart, art.version) !in c.byID
    ensures FullyIndexed(Add(max, c, repo, chart, art)) <==> SharesNoKey(c, NewEntry(repo, chart, art))
  {
    PushFullyIndexedIff(max, c, NewEntry(repo, chart, art));
  }

  lemma PushStaysFull(c: Cache, e: CacheEntry)
    requires FullyIndexed(c) && forall f | f in c.ll :: Ids(f) * Ids(e) == {}
    ensures FullyIndexed(Push(c, e))
  {
    forall f | f in Push(c, e).ll ensures EveryKeyLeadsTo(Push(c, e), f) {
      if f != e {
        assert f in c.ll && EveryKeyLeadsTo(c, f);
        assert forall id | id in f.ids :: id in e.ids ==> id in Ids(f) * Ids(e);
      }
    }
  }

  lemma SharedKeyLosesOne(max: int, c: Cache, e: CacheEntry, f: CacheEntry, id: string)
    requires e !in c.ll && f in c.ll && id in e.ids && id in f.ids
    requires e in Shrink(max, Push(c, e)).ll
    ensures !FullyIndexed(Shrink(max, Push(c, e)))
  {
    var c' := Shrink(max, Push(c, e));
    assert f in Push(c, e).ll;
    if FullyIndexed(c') {
      assert EveryKeyLeadsTo(c', e);
      if f !in c'.ll {
        ShrinkForgets(max, Push(c, e), f, id);
      }
    }
  }

  /** Two versions of a chart with the same provenance bytes cannot both stay fully indexed. */
  lemma SharedProvenanceLosesAKey(max: int, c: Cache, repo: string, chart: string, a: Artifact, b: Artifact)
    requires WellIndexed(c) && FullyIndexed(c) && NameOk(repo, chart)
    requires NewEntry(repo, chart, a) in c.ll
    requires VersionKey(repo, chart, b.version) !in c.byID
    requires a.prov.Some? && b.prov.Some? && a.provDigest == b.provDigest
    ensures !FullyIndexed(Add(max, c, repo, chart, b))
  {
    AddFullyIndexedIff(max, c, repo, chart, b);
    ProvenanceKey(repo, chart, a);
    ProvenanceKey(repo, chart, b);
    SameKeyShared(NewEntry(repo, chart, b), NewEntry(repo, chart, a), 4);
  }

  lemma ProvenanceKey(repo: string, chart: string, art: Artifact)
    requires art.prov.Some?
    ensures |NewEntry(repo, chart, art).ids| == 5
    ensures NewEntry(repo, chart, art).ids[4] == DigestKey(repo, chart, art.provDigest)
  {
    DigestKeysAt(repo, chart, Digests(art));
  }

  lemma SameKeyShared(e: CacheEntry, f: CacheEntry, k: nat)
    requires k < |e.ids| && k < |f.ids| && e.ids[k] == f.ids[k]
    ensures Ids(f) * Ids(e) != {}
  {
    assert f.ids[k] in Ids(f) * Ids(e);
  }
}
