/** The cache against an independent definition: the longest prefix of the recency stack that fits. */
module CacheStack {
  import opened Oci
  import opened ArtifactCaches
  import opened CacheInvariants

  datatype Ref = Ref(repo: string, chart: string, version: string)

  /** What each reference resolves to, fixed over the whole trace, under the version it was asked for. */
  type Catalog = Ref -> Artifact

  ghost predicate CatalogOk(catalog: Catalog) {
    forall r :: catalog(r).version == r.version
  }

  ghost predicate TraceOk(trace: seq<Ref>) {
    forall r | r in trace :: NameOk(r.repo, r.chart)
  }

  function EntryOf(catalog: Catalog, r: Ref): CacheEntry {
    NewEntry(r.repo, r.chart, catalog(r))
  }

  /** One successful lookup by version: a hit refreshes, a miss builds and adds. */
  ghost function Visit(max: int, catalog: Catalog, c: Cache, r: Ref): Cache {
    var (c', hit) := Get(c, VersionKey(r.repo, r.chart, r.version));
    if hit.Some? then c' else Add(max, c', r.repo, r.chart, catalog(r))
  }

  ghost function Visits(max: int, catalog: Catalog, trace: seq<Ref>): Cache {
    if trace == [] then EMPTY
    else Visit(max, catalog, Visits(max, catalog, trace[..|trace| - 1]), trace[|trace| - 1])
  }

  /** Everything ever asked for, most recent first; no bound, no index. */
  ghost function Stack(catalog: Catalog, trace: seq<Ref>): seq<CacheEntry> {
    if trace == [] then []
    else MoveToFront(Stack(catalog, trace[..|trace| - 1]), EntryOf(catalog, trace[|trace| - 1]))
  }

  /** k is the length of the longest prefix of s weighing at most max, or 1 when even the top does not fit. */
  ghost predicate LongestFit(max: int, s: seq<CacheEntry>, k: nat) {
    && k <= |s|
    && (s != [] ==> k >= 1)
    && (Total(s[..k]) <= max || k <= 1)
    && (k < |s| ==> Total(s[..k + 1]) > max)
  }

  lemma {:induction false} TotalConcat(a: seq<CacheEntry>, b: seq<CacheEntry>)
    ensures Total(a + b) == Total(a) + Total(b)
  {
    if a == [] {
      assert a + b == b;
    } else {
      assert (a + b)[1..] == a[1..] + b;
      TotalConcat(a[1..], b);
    }
  }

  lemma TotalPrefix(s: seq<CacheEntry>, i: nat, j: nat)
    requires i <= j <= |s|
    ensures Total(s[..i]) <= Total(s[..j])
  {
    assert s[..j] == s[..i] + s[i..j];
    TotalConcat(s[..i], s[i..j]);
  }

  lemma LongestFitMonotone(max: int, max': int, s: seq<CacheEntry>, k: nat, k': nat)
    requires max <= max' && LongestFit(max, s, k) && LongestFit(max', s, k')
    ensures k <= k'
  {
    if k > k' {
      TotalPrefix(s, k' + 1, k);
    }
  }

  /** Eviction from the back stops at the longest fitting prefix. */
  lemma {:induction false} ShrinkIsLongestFit(max: int, c: Cache)
    requires c.size == Total(c.ll)
    ensures Shrink(max, c).ll <= c.ll && LongestFit(max, c.ll, |Shrink(max, c).ll|)
    decreases |c.ll|
  {
    var n := |c.ll| - 1;
    assert c.ll[..|c.ll|] == c.ll;
    if c.size > max && |c.ll| > 1 {
      assert c.ll == c.ll[..n] + [c.ll[n]];
      TotalSnoc(c.ll[..n], c.ll[n]);
      ShrinkIsLongestFit(max, EvictOldest(c));
      var k := |Shrink(max, EvictOldest(c)).ll|;
      assert c.ll[..n][..k] == c.ll[..k];
      if k < n { assert c.ll[..n][..k + 1] == c.ll[..k + 1]; }
    }
  }

  lemma {:induction false} WithoutConcat(a: seq<CacheEntry>, b: seq<CacheEntry>, e: CacheEntry)
    ensures Without(a + b, e) == if e in a then Without(a, e) + b else a + Without(b, e)
  {
    if a == [] {
      assert a + b == b;
    } else {
      assert (a + b)[1..] == a[1..] + b;
      if a[0] != e {
        WithoutConcat(a[1..], b, e);
      }
    }
  }

  lemma MoveToFrontSplit(s: seq<CacheEntry>, k: nat, e: CacheEntry)
    requires k <= |s|
    ensures e in s[..k] ==> MoveToFront(s, e) == MoveToFront(s[..k], e) + s[k..]
    ensures e !in s[..k] ==> MoveToFront(s, e) == [e] + s[..k] + Without(s[k..], e)
  {
    assert s == s[..k] + s[k..];
    WithoutConcat(s[..k], s[k..], e);
  }

  lemma SamePrefixTotals(a: seq<CacheEntry>, b: seq<CacheEntry>, x: CacheEntry, rest: seq<CacheEntry>)
    requires Total(a) == Total(b)
    ensures Total((a + [x] + rest)[..|a| + 1]) == Total((b + [x] + rest)[..|b| + 1])
  {
    assert (a + [x] + rest)[..|a| + 1] == a + [x] && (b + [x] + rest)[..|b| + 1] == b + [x];
    TotalSnoc(a, x);
    TotalSnoc(b, x);
  }

  /** A hit permutes the resident prefix and leaves its length the longest that fits. */
  lemma HitStep(max: int, s: seq<CacheEntry>, k: nat, e: CacheEntry)
    requires NoDuplicates(s) && LongestFit(max, s, k) && e in s[..k]
    ensures |MoveToFront(s, e)| == |s| && MoveToFront(s, e)[..k] == MoveToFront(s[..k], e)
    ensures LongestFit(max, MoveToFront(s, e), k)
  {
    MoveToFrontSplit(s, k, e);
    MoveToFrontKeeps(s[..k], e);
    var p := MoveToFront(s[..k], e);
    if k < |s| {
      assert s == s[..k] + [s[k]] + s[k + 1..];
      assert MoveToFront(s, e) == p + [s[k]] + s[k + 1..];
      SamePrefixTotals(s[..k], p, s[k], s[k + 1..]);
    }
  }

  /** On a miss the longest fitting prefix of the new stack lies within the old residents and the newcomer. */
  lemma MissStep(max: int, s: seq<CacheEntry>, k: nat, e: CacheEntry, j: nat)
    requires LongestFit(max, s, k) && e !in s[..k]
    requires LongestFit(max, [e] + s[..k], j)
    ensures [e] + s[..k] <= MoveToFront(s, e)
    ensures LongestFit(max, MoveToFront(s, e), j)
  {
    MoveToFrontSplit(s, k, e);
    var p, rest := [e] + s[..k], Without(s[k..], e);
    if j < |p| {
      assert (p + rest)[..j] == p[..j] && (p + rest)[..j + 1] == p[..j + 1];
    } else {
      assert (p + rest)[..j] == p && p[..j] == p;
      if j < |p + rest| {
        MissBeyond(max, s, k, e);
        TotalPrefix(p + rest, j, j + 1);
      }
    }
  }

  lemma MissBeyond(max: int, s: seq<CacheEntry>, k: nat, e: CacheEntry)
    requires LongestFit(max, s, k) && e !in s[..k] && k < |s|
    ensures s[k] == e ==> Total([e] + s[..k]) > max
    ensures s[k] != e ==> |MoveToFront(s, e)| >= k + 2 && Total(MoveToFront(s, e)[..k + 2]) > max
  {
    var p := [e] + s[..k];
    assert p[1..] == s[..k];
    assert s[..k + 1] == s[..k] + [s[k]];
    TotalSnoc(s[..k], s[k]);
    if s[k] != e {
      assert s == s[..k] + s[k..];
      WithoutConcat(s[..k], s[k..], e);
      assert MoveToFront(s, e)[..k + 2] == p + [s[k]];
      TotalSnoc(p, s[k]);
    }
  }

  /** The cache holds exactly the longest prefix of the recency stack that fits. */
  ghost predicate Matches(max: int, catalog: Catalog, c: Cache, s: seq<CacheEntry>) {
    && WellIndexed(c) && Bounded(max, c)
    && NoDuplicates(s)
    && (forall e | e in s :: FromCatalog(catalog, e))
    && c.ll <= s && LongestFit(max, s, |c.ll|)
  }

  ghost predicate FromCatalog(catalog: Catalog, e: CacheEntry) {
    exists r: Ref :: NameOk(r.repo, r.chart) && e == EntryOf(catalog, r)
  }

  /** The only catalog entry under r's version key is r's own. */
  lemma SameKeySameEntry(catalog: Catalog, e: CacheEntry, r: Ref)
    requires CatalogOk(catalog) && FromCatalog(catalog, e) && NameOk(r.repo, r.chart)
    requires |e.ids| > 0 && e.ids[0] == VersionKey(r.repo, r.chart, r.version)
    ensures e == EntryOf(catalog, r)
  {
    var r': Ref :| NameOk(r'.repo, r'.chart) && e == EntryOf(catalog, r');
    VersionKeyInjective(r.repo, r.chart, r.version, r'.repo, r'.chart, r'.version);
  }

  /** A reference is a hit exactly when its entry is resident. */
  lemma HitIffResident(max: int, catalog: Catalog, c: Cache, s: seq<CacheEntry>, r: Ref)
    requires CatalogOk(catalog) && Matches(max, catalog, c, s) && NameOk(r.repo, r.chart)
    ensures VersionKey(r.repo, r.chart, r.version) in c.byID <==> EntryOf(catalog, r) in c.ll
    ensures EntryOf(catalog, r) in c.ll ==> c.byID[VersionKey(r.repo, r.chart, r.version)] == EntryOf(catalog, r)
  {
    var key, e := VersionKey(r.repo, r.chart, r.version), EntryOf(catalog, r);
    assert e.ids[0] == key;
    if e in c.ll {
      assert Indexed(c, e);
    }
    if key in c.byID {
      var f := c.byID[key];
      assert Owned(e);
      OwnedKinds(f);
      VersionKeyKind(r.repo, r.chart, r.version);
      assert f.ids[0] == key;
      assert f in s;
      SameKeySameEntry(catalog, f, r);
    }
  }

  lemma StackMove(catalog: Catalog, s: seq<CacheEntry>, r: Ref)
    requires NoDuplicates(s) && (forall e | e in s :: FromCatalog(catalog, e)) && NameOk(r.repo, r.chart)
    ensures NoDuplicates(MoveToFront(s, EntryOf(catalog, r)))
    ensures forall e | e in MoveToFront(s, EntryOf(catalog, r)) :: FromCatalog(catalog, e)
  {
    var e := EntryOf(catalog, r);
    if e in s {
      MoveToFrontKeeps(s, e);
    } else {
      WithoutAbsent(s, e);
      assert MoveToFront(s, e) == [e] + s;
    }
  }

  lemma {:induction false} WithoutAbsent(s: seq<CacheEntry>, e: CacheEntry)
    requires e !in s
    ensures Without(s, e) == s
  {
    if s != [] {
      WithoutAbsent(s[1..], e);
    }
  }

  lemma HitKeepsMatch(max: int, catalog: Catalog, c: Cache, s: seq<CacheEntry>, e: CacheEntry, id: string)
    requires Matches(max, catalog, c, s) && id in c.byID && c.byID[id] == e
    requires NoDuplicates(MoveToFront(s, e)) && forall f | f in MoveToFront(s, e) :: FromCatalog(catalog, f)
    ensures Matches(max, catalog, Get(c, id).0, MoveToFront(s, e))
  {
    var k := |c.ll|;
    assert c.ll == s[..k];
    GetKeeps(max, c, id);
    MoveToFrontKeeps(c.ll, e);
    HitStep(max, s, k, e);
  }

  lemma MissKeepsMatch(max: int, catalog: Catalog, c: Cache, s: seq<CacheEntry>, e: CacheEntry)
    requires Matches(max, catalog, c, s) && e !in c.ll
    requires Owned(e) && |e.ids| > 0 && e.ids[0] !in c.byID
    requires NoDuplicates(MoveToFront(s, e)) && forall f | f in MoveToFront(s, e) :: FromCatalog(catalog, f)
    ensures Matches(max, catalog, Shrink(max, Push(c, e)), MoveToFront(s, e))
  {
    var k := |c.ll|;
    assert c.ll == s[..k];
    PushKeeps(c, e);
    ShrinkKeeps(max, Push(c, e));
    ShrinkIsLongestFit(max, Push(c, e));
    MissStep(max, s, k, e, |Shrink(max, Push(c, e)).ll|);
  }

  lemma VisitKeepsMatch(max: int, catalog: Catalog, c: Cache, s: seq<CacheEntry>, r: Ref)
    requires CatalogOk(catalog) && Matches(max, catalog, c, s) && NameOk(r.repo, r.chart)
    ensures Matches(max, catalog, Visit(max, catalog, c, r), MoveToFront(s, EntryOf(catalog, r)))
  {
    var e, key := EntryOf(catalog, r), VersionKey(r.repo, r.chart, r.version);
    HitIffResident(max, catalog, c, s, r);
    StackMove(catalog, s, r);
    if key in c.byID {
      HitKeepsMatch(max, catalog, c, s, e, key);
    } else {
      MissKeepsMatch(max, catalog, c, s, e);
    }
  }

  /** After every trace of successful lookups by version, the residents are the longest prefix
      of the full recency stack that fits, or its top alone when that is oversize. */
  lemma {:induction false} ResidentsAreLongestFit(max: int, catalog: Catalog, trace: seq<Ref>)
    requires CatalogOk(catalog) && TraceOk(trace)
    ensures Matches(max, catalog, Visits(max, catalog, trace), Stack(catalog, trace))
    decreases trace
  {
    if trace != [] {
      var n := |trace| - 1;
      ResidentsAreLongestFit(max, catalog, trace[..n]);
      assert trace[n] in trace;
      VisitKeepsMatch(max, catalog, Visits(max, catalog, trace[..n]), Stack(catalog, trace[..n]), trace[n]);
    }
  }

  // The stack, by when each entry was last asked for.

  /** How many accesses there were when the entry was last asked for: 0 if never. */
  ghost function LastUse(catalog: Catalog, trace: seq<Ref>, e: CacheEntry): nat {
    if trace == [] then 0
    else if EntryOf(catalog, trace[|trace| - 1]) == e then |trace|
    else LastUse(catalog, trace[..|trace| - 1], e)
  }

  lemma {:induction false} LastUseBound(catalog: Catalog, trace: seq<Ref>, e: CacheEntry)
    ensures LastUse(catalog, trace, e) <= |trace|
  {
    if trace != [] {
      LastUseBound(catalog, trace[..|trace| - 1], e);
    }
  }

  lemma CutInTail(s: seq<CacheEntry>, j: nat)
    requires s != [] && j < |s| - 1
    ensures [s[0]] + (s[1..][..j] + s[1..][j + 1..]) == s[..j + 1] + s[j + 2..]
  {
    assert s[1..][..j] == s[1..j + 1] && s[1..][j + 1..] == s[j + 2..];
  }

  lemma {:induction false} WithoutCuts(s: seq<CacheEntry>, e: CacheEntry) returns (i: nat)
    requires e in s
    ensures i < |s| && s[i] == e && Without(s, e) == s[..i] + s[i + 1..]
  {
    if s[0] == e {
      i := 0;
    } else {
      var rest := s[1..];
      var j := WithoutCuts(rest, e);
      i := j + 1;
      CutInTail(s, j);
    }
  }

  /** The stack holds what was ever asked for, each entry once, what was asked for last first. */
  lemma {:induction false} StackByLastUse(catalog: Catalog, trace: seq<Ref>)
    ensures var s := Stack(catalog, trace);
      && NoDuplicates(s)
      && (forall e :: e in s <==> LastUse(catalog, trace, e) > 0)
      && forall i, j | 0 <= i < j < |s| :: LastUse(catalog, trace, s[i]) > LastUse(catalog, trace, s[j])
    decreases trace
  {
    hide Without, EntryOf;
    if trace != [] {
      var front, e := trace[..|trace| - 1], EntryOf(catalog, trace[|trace| - 1]);
      var s := Stack(catalog, front);
      StackByLastUse(catalog, front);
      WithoutOrdered(s, e, f => LastUse(catalog, front, f));
      forall f ensures LastUse(catalog, front, f) <= |front| {
        LastUseBound(catalog, front, f);
      }
      FrontOrdered(Without(s, e), e, f => LastUse(catalog, front, f), f => LastUse(catalog, trace, f));
    }
  }

  ghost predicate Ordered(s: seq<CacheEntry>, rank: CacheEntry -> nat) {
    forall i, j | 0 <= i < j < |s| :: rank(s[i]) > rank(s[j])
  }

  lemma WithoutOrdered(s: seq<CacheEntry>, e: CacheEntry, rank: CacheEntry -> nat)
    requires NoDuplicates(s) && Ordered(s, rank)
    ensures Ordered(Without(s, e), rank) && forall f :: f in Without(s, e) <==> f in s && f != e
  {
    if e in s {
      WithoutHolds(s, e);
      var i := WithoutCuts(s, e);
    } else {
      WithoutAbsent(s, e);
    }
  }

  lemma FrontOrdered(rest: seq<CacheEntry>, e: CacheEntry, rank: CacheEntry -> nat, rank': CacheEntry -> nat)
    requires Ordered(rest, rank) && e !in rest && (forall f | f != e :: rank'(f) == rank(f))
    requires forall f | f in rest :: rank(f) < rank'(e)
    ensures Ordered([e] + rest, rank') && NoDuplicates([e] + rest)
  {
    var s := [e] + rest;
    forall i, j | 0 <= i < j < |s| ensures rank'(s[i]) > rank'(s[j]) && s[i] != s[j] {
      assert s[j] == rest[j - 1] && s[j] in rest;
      assert i > 0 ==> s[i] == rest[i - 1] && s[i] in rest;
    }
  }

  /** Raising the byte bound never turns a hit into a miss: the smaller cache's residents are
      the front of the larger one's. */
  lemma RaisingBoundKeepsHits(max: int, max': int, catalog: Catalog, trace: seq<Ref>, r: Ref)
    requires max <= max' && CatalogOk(catalog) && TraceOk(trace) && NameOk(r.repo, r.chart)
    ensures Visits(max, catalog, trace).ll <= Visits(max', catalog, trace).ll
    ensures var key := VersionKey(r.repo, r.chart, r.version);
      key in Visits(max, catalog, trace).byID ==> key in Visits(max', catalog, trace).byID
  {
    var s, c, c' := Stack(catalog, trace), Visits(max, catalog, trace), Visits(max', catalog, trace);
    ResidentsAreLongestFit(max, catalog, trace);
    ResidentsAreLongestFit(max', catalog, trace);
    LongestFitMonotone(max, max', s, |c.ll|, |c'.ll|);
    assert c.ll == s[..|c.ll|] && c'.ll == s[..|c'.ll|];
    HitIffResident(max, catalog, c, s, r);
    HitIffResident(max', catalog, c', s, r);
  }
}
