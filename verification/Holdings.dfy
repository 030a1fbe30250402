/** What a replica can answer from its cache alone once it has built a version. */
module Holdings {
  import opened Wrappers
  import opened Oci
  import opened ArtifactCaches
  import opened CacheInvariants
  import opened Resolvers
  import opened Sessions

  /** The digests a client can ask for the artifact or a part of it by. */
  predicate AskedBy(art: Artifact, digest: string) {
    digest == art.manifestDigest || art.Blob(digest).Some?
  }

  predicate LeadsTo(c: Cache, id: string, e: CacheEntry) {
    id in c.byID && c.byID[id] == e
  }

  /** An entry's keys are that of its version and those of the digests it is asked for by. */
  lemma KeysExactly(repo: string, chart: string, art: Artifact, id: string)
    ensures id in NewEntry(repo, chart, art).ids <==>
      id == VersionKey(repo, chart, art.version)
      || exists digest :: AskedBy(art, digest) && id == DigestKey(repo, chart, digest)
  {
    hide VersionKey, DigestKey;
    var digests := Digests(art);
    var keys := DigestKeys(repo, chart, digests);
    DigestKeysAt(repo, chart, digests);
    assert forall digest :: AskedBy(art, digest) <==> digest in digests by { DigestsExactly(art); }
    if i :| 0 <= i < |keys| && keys[i] == id {
      assert AskedBy(art, digests[i]);
    }
    forall digest | digest in digests ensures DigestKey(repo, chart, digest) in keys {
      var i :| 0 <= i < |digests| && digests[i] == digest;
      assert keys[i] == DigestKey(repo, chart, digest);
    }
  }

  lemma DigestsExactly(art: Artifact)
    ensures forall digest :: AskedBy(art, digest) <==> digest in Digests(art)
  {
    var digests := Digests(art);
    assert digests[0] == art.manifestDigest && digests[1] == art.configDigest && digests[2] == art.chartDigest;
    assert art.prov.Some? ==> digests[3] == art.provDigest;
  }

  /** This insertion evicts an entry that owns the digest's key too. */
  ghost predicate EvictedOwns(max: int, c: Cache, repo: string, chart: string, art: Artifact, digest: string) {
    exists f :: f in c.ll && f !in Add(max, c, repo, chart, art).ll && DigestKey(repo, chart, digest) in f.ids
  }

  ghost predicate GoneOwner(c: Cache, c': Cache, id: string) {
    exists f :: f in c.ll && f !in c'.ll && id in f.ids
  }

  lemma {:induction false} ShrinkSpares(max: int, c: Cache, e: CacheEntry, id: string)
    requires NoDuplicates(c.ll) && LeadsTo(c, id, e)
    ensures LeadsTo(Shrink(max, c), id, e) <==> !GoneOwner(c, Shrink(max, c), id)
    decreases |c.ll|
  {
    if f :| f in c.ll && f !in Shrink(max, c).ll && id in f.ids {
      ShrinkForgets(max, c, f, id);
    } else if c.size > max && |c.ll| > 1 {
      var n := |c.ll| - 1;
      ShrinkFew(max, EvictOldest(c));
      assert c.ll[n] !in Shrink(max, c).ll;
      ShrinkSpares(max, EvictOldest(c), e, id);
    }
  }

  lemma {:induction false} ShrinkFew(max: int, c: Cache)
    ensures forall f | f in Shrink(max, c).ll :: f in c.ll
    decreases |c.ll|
  {
    if c.size > max && |c.ll| > 1 {
      ShrinkFew(max, EvictOldest(c));
    }
  }

  /** Once a version that was not resident is added, each digest it is asked for by leads to it, unless the same
      insertion evicted an entry that owned that digest's key too: then nothing answers to it. */
  lemma NewDigestLeadsIff(max: int, c: Cache, repo: string, chart: string, art: Artifact, digest: string)
    requires WellIndexed(c) && VersionKey(repo, chart, art.version) !in c.byID && AskedBy(art, digest)
    ensures LeadsTo(Add(max, c, repo, chart, art), DigestKey(repo, chart, digest), NewEntry(repo, chart, art)) <==>
      !EvictedOwns(max, c, repo, chart, art, digest)
  {
    hide Shrink, Owned, Total, VersionKey, DigestKey;
    var e, id := NewEntry(repo, chart, art), DigestKey(repo, chart, digest);
    KeysExactly(repo, chart, art, id);
    assert e in c.ll ==> Indexed(c, e);
    PushDistinct(c, e);
    ShrinkSpares(max, Push(c, e), e, id);
    ShrinkKeepsFront(max, Push(c, e));
    assert GoneOwner(Push(c, e), Shrink(max, Push(c, e)), id) <==> EvictedOwns(max, c, repo, chart, art, digest);
  }

  /** All of the artifact's digests lead to its entry. */
  ghost predicate Held(c: Cache, repo: string, chart: string, art: Artifact) {
    forall digest | AskedBy(art, digest) :: LeadsTo(c, DigestKey(repo, chart, digest), NewEntry(repo, chart, art))
  }

  lemma HeldIff(max: int, c: Cache, repo: string, chart: string, art: Artifact)
    requires WellIndexed(c) && VersionKey(repo, chart, art.version) !in c.byID
    ensures Held(Add(max, c, repo, chart, art), repo, chart, art) <==>
      forall digest | AskedBy(art, digest) :: !EvictedOwns(max, c, repo, chart, art, digest)
  {
    hide Add, WellIndexed, EvictedOwns, VersionKey, DigestKey;
    forall digest | AskedBy(art, digest)
      ensures LeadsTo(Add(max, c, repo, chart, art), DigestKey(repo, chart, digest), NewEntry(repo, chart, art)) <==>
        !EvictedOwns(max, c, repo, chart, art, digest)
    {
      NewDigestLeadsIff(max, c, repo, chart, art, digest);
    }
  }

  /** So of a version that fits beside what is there, or comes first, nothing is lost. */
  lemma RoomHolds(max: int, c: Cache, repo: string, chart: string, art: Artifact)
    requires WellIndexed(c) && VersionKey(repo, chart, art.version) !in c.byID
    requires c.ll == [] || c.size + |art.manifest| + |art.config| + |art.chart| + |Provenance(art)| <= max
    ensures Held(Add(max, c, repo, chart, art), repo, chart, art)
  {
    hide WellIndexed, VersionKey, DigestKey, AskedBy;
    var e := NewEntry(repo, chart, art);
    assert Shrink(max, Push(c, e)) == Push(c, e);
    HeldIff(max, c, repo, chart, art);
  }

  function Provenance(art: Artifact): Bytes {
    if art.prov.Some? then art.prov.value else []
  }

  /** Everything the entries can be asked for, one after the other. */
  function Contents(ll: seq<CacheEntry>): Bytes {
    if ll == [] then []
    else ll[0].art.manifest + ll[0].art.config + ll[0].art.chart + Provenance(ll[0].art) + Contents(ll[1..])
  }

  lemma {:induction false} TotalIsContents(ll: seq<CacheEntry>)
    requires forall e | e in ll :: Owned(e)
    ensures Total(ll) == |Contents(ll)|
  {
    if ll != [] {
      assert Owned(ll[0]) && ll[0].bytes == Weight(ll[0].art);
      TotalIsContents(ll[1..]);
    }
  }

  /** The size a replica's cache keeps count of is the number of bytes its residents hold, and is within the bound
      unless a single resident alone is over it. */
  lemma SizeIsContents(max: int, ops: seq<Operation>)
    requires Admissible(ops)
    ensures var c := RunOperations(max, EMPTY, ops);
      c.size == |Contents(c.ll)| && (|Contents(c.ll)| <= max || |c.ll| <= 1)
  {
    hide Owned, Total, RunOperations, Admissible;
    EveryRunWellIndexed(max, ops);
    TotalIsContents(RunOperations(max, EMPTY, ops).ll);
  }

  // What the replica answers.

  /** A lookup by version that had to build holds what it built, under all its digests and wherever the version stands
      in the index, exactly if no entry evicted for it owned one of them. */
  lemma BuiltIsHeldIff(k: Setup, w: World, s: State, repo: string, chart: string, version: string)
    requires Reachable(k, w, s) && NameOk(repo, chart) && VersionKey(repo, chart, version) !in s.cache.byID
    requires var r := VersionStep(k, w, s, repo, chart, version).1;
      r.Ok? && VersionKey(repo, chart, r.value.version) !in s.cache.byID
    ensures var (s', r) := VersionStep(k, w, s, repo, chart, version);
      Held(s'.cache, repo, chart, r.value) <==>
      forall digest | AskedBy(r.value, digest) ::
        !EvictedOwns(k.opts.cacheBytes, s.cache, repo, chart, r.value, digest)
  {
    hide Reachable, WellIndexed, Held, EvictedOwns, Add, Uncached, NameOk, AskedBy;
    ReachableIndexed(k, w, s);
    HeldIff(k.opts.cacheBytes, s.cache, repo, chart, VersionStep(k, w, s, repo, chart, version).1.value);
  }

  lemma ReachableIndexed(k: Setup, w: World, s: State)
    requires Reachable(k, w, s)
    ensures WellIndexed(s.cache) && Bounded(k.opts.cacheBytes, s.cache)
  {
    hide Reachable, WellIndexed, Establishes;
    EveryBuildSealed(k, w);
    ReachableVouched(k, w, IsSealed(k), s);
  }

  /** No exchange was made and no build started, and what was held still is. */
  ghost predicate Quiet(s: State, s': State, repo: string, chart: string, art: Artifact) {
    s'.now == s.now && s'.builds == s.builds && Held(s'.cache, repo, chart, art)
  }

  /** A held manifest is answered from the cache. */
  lemma HeldManifest(k: Setup, w: World, s: State, repo: string, chart: string, art: Artifact)
    requires Held(s.cache, repo, chart, art)
    ensures var (s', r) := ManifestStep(k, w, s, repo, chart, art.manifestDigest);
      r == Ok(art) && Quiet(s, s', repo, chart, art)
  {
    hide ManifestScanStep, DigestKey, MoveToFront;
    assert AskedBy(art, art.manifestDigest);
  }

  /** And so is every blob of a held artifact. */
  lemma HeldBlob(k: Setup, w: World, s: State, repo: string, chart: string, art: Artifact, digest: string)
    requires Held(s.cache, repo, chart, art) && art.Blob(digest).Some?
    ensures var (s', r) := ServeBlobStep(k, w, s, repo, chart, digest);
      r == Ok(art.Blob(digest).value.0) && Quiet(s, s', repo, chart, art)
  {
    hide BlobMissStep, SignatureBlobStep, DigestKey, MoveToFront;
    assert AskedBy(art, digest);
  }

  /** The requests of a client that follows the artifact's manifest. */
  predicate Follows(repo: string, chart: string, art: Artifact, q: Request) {
    || q == ManifestRequest(repo, chart, art.manifestDigest)
    || (q.BlobRequest? && q.repo == repo && q.chart == chart && art.Blob(q.digest).Some?)
  }

  /** However often it is pulled, a held artifact costs no exchange and no build, and stays held. */
  lemma {:induction false} PullsAreQuiet(k: Setup, w: World, s: State, repo: string, chart: string, art: Artifact,
                                         requests: seq<Request>)
    requires Held(s.cache, repo, chart, art) && forall q | q in requests :: Follows(repo, chart, art, q)
    ensures Quiet(s, Run(k, w, s, requests), repo, chart, art)
    decreases requests
  {
    hide Held, ManifestStep, ServeBlobStep;
    if requests != [] {
      var q := requests[0];
      assert q in requests;
      if q.ManifestRequest? {
        HeldManifest(k, w, s, repo, chart, art);
      } else {
        HeldBlob(k, w, s, repo, chart, art, q.digest);
      }
      PullsAreQuiet(k, w, After(k, w, s, q), repo, chart, art, requests[1..]);
    }
  }

  /** Pulling a version right after it was built: every blob of it, in whatever order and however often its parts are
      asked for, comes out of the cache, at any place in the index and whatever upstream has become. */
  lemma PullAfterBuild(k: Setup, w: World, s: State, repo: string, chart: string, version: string,
                       requests: seq<Request>, digest: string)
    requires Reachable(k, w, s) && NameOk(repo, chart) && VersionKey(repo, chart, version) !in s.cache.byID
    requires var r := VersionStep(k, w, s, repo, chart, version).1;
      && r.Ok? && VersionKey(repo, chart, r.value.version) !in s.cache.byID && r.value.Blob(digest).Some?
      && (forall digest | AskedBy(r.value, digest) ::
            !EvictedOwns(k.opts.cacheBytes, s.cache, repo, chart, r.value, digest))
      && forall q | q in requests :: Follows(repo, chart, r.value, q)
    ensures var (built, r) := VersionStep(k, w, s, repo, chart, version);
      var (s', blob) := ServeBlobStep(k, w, Run(k, w, built, requests), repo, chart, digest);
      blob == Ok(r.value.Blob(digest).value.0) && s'.now == built.now && s'.builds == built.builds
  {
    hide Reachable, VersionStep, ServeBlobStep, Run, Held, EvictedOwns, Follows, Artifact.Blob, AskedBy, NameOk,
      VersionKey;
    var (built, r) := VersionStep(k, w, s, repo, chart, version);
    BuiltIsHeldIff(k, w, s, repo, chart, version);
    PullsAreQuiet(k, w, built, repo, chart, r.value, requests);
    HeldBlob(k, w, Run(k, w, built, requests), repo, chart, r.value, digest);
  }
}
