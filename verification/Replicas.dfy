/** Digest lookups on a warm replica against a cold one. */
module Replicas {
  import opened Wrappers
  import opened Oci
  import opened ArtifactCaches
  import opened CacheInvariants
  import opened Upstreams
  import opened Signing
  import opened Resolvers
  import opened Sessions
  import opened Transparency

  /** The chart stands still, and none of its listed versions can be mistaken. */
  ghost predicate Settled(k: Setup, w: World, u: Site, repo: string, chart: string) {
    Steady(k, w, u, repo, chart) && ListedUnmistaken(k, u, repo, chart) && NameOk(repo, chart)
  }

  lemma ManifestScanCold(k: Setup, w: World, u: Site, s: State, repo: string, chart: string, digest: string)
    requires Settled(k, w, u, repo, chart) && Faithful(k, u, repo, chart, s)
    ensures ManifestScanStep(k, w, s, repo, chart, digest).1 == ColdManifest(k, u, repo, chart, digest)
  {
    hide ScanChartStep, ColdFind, Faithful, ListedUnmistaken, Steady, NameOk;
    ScanChartCold(k, w, u, s, repo, chart, HasManifest(digest));
  }

  lemma BlobScanCold(k: Setup, w: World, u: Site, s: State, repo: string, chart: string, digest: string)
    requires Settled(k, w, u, repo, chart) && Faithful(k, u, repo, chart, s)
    ensures var (s', r) := BlobScanStep(k, w, s, repo, chart, digest);
      Faithful(k, u, repo, chart, s') && r == ColdBlobScan(k, u, repo, chart, digest)
  {
    hide ScanChartStep, ColdFind, Faithful, ListedUnmistaken, Steady, NameOk;
    ScanChartCold(k, w, u, s, repo, chart, HasBlob(digest));
  }

  lemma LayerUnmistaken(k: Setup, u: Site, repo: string, chart: string, digest: string)
    requires ListedUnmistaken(k, u, repo, chart) && Entries(u, repo, chart).Ok?
    ensures var layer := FindLayerDigest(Entries(u, repo, chart).value, digest);
      layer.Some? ==> Unmistaken(k, u, repo, chart, layer.value.version)
  {
    hide Unmistaken, Entries;
    var layer := FindLayerDigest(Entries(u, repo, chart).value, digest);
    assert layer.Some? ==> Lists(u, repo, chart, layer.value);
  }

  lemma EntriesSteady(k: Setup, w: World, u: Site, t: nat, repo: string, chart: string)
    requires Steady(k, w, u, repo, chart)
    ensures Entries(w(t), repo, chart) == Entries(u, repo, chart)
  {
  }

  lemma BlobMissCold(k: Setup, w: World, u: Site, s: State, repo: string, chart: string, digest: string)
    requires Settled(k, w, u, repo, chart) && Faithful(k, u, repo, chart, s)
    ensures var (s', r) := BlobMissStep(k, w, s, repo, chart, digest);
      Faithful(k, u, repo, chart, s') && r == ColdBlob(k, u, repo, chart, digest)
  {
    hide BlobScanStep, ColdBlobScan, VersionStep, ColdVersion, ListedUnmistaken, Unmistaken, Steady, Vouched, Entries,
        NameOk;
    var s1 := s.(now := s.now + 1);
    EntriesSteady(k, w, u, s.now, repo, chart);
    BlobScanCold(k, w, u, s1, repo, chart, digest);
    if Entries(u, repo, chart).Ok? {
      LayerUnmistaken(k, u, repo, chart, digest);
      var layer := FindLayerDigest(Entries(u, repo, chart).value, digest);
      if layer.Some? {
        VersionStepCold(k, w, u, s1, repo, chart, layer.value.version);
        BlobScanCold(k, w, u, VersionStep(k, w, s1, repo, chart, layer.value.version).0, repo, chart, digest);
      }
    }
  }

  lemma SignatureBlobCold(k: Setup, w: World, u: Site, s: State, repo: string, chart: string, digest: string)
    requires Settled(k, w, u, repo, chart) && Faithful(k, u, repo, chart, s)
    ensures SignatureBlobStep(k, w, s, repo, chart, digest).1 == ColdSignatureBlob(k, u, repo, chart, digest)
  {
    hide ScanChartStep, ColdFind, Faithful, ListedUnmistaken, Steady, SignatureFor, NameOk;
    if k.opts.signer.Some? {
      ScanChartCold(k, w, u, s, repo, chart, SignatureHasBlob(k, k.opts.signer.value, repo, chart, digest));
    }
  }

  /** The replica answers this digest from its cache. */
  ghost predicate Warm(s: State, repo: string, chart: string, digest: string, held: Artifact -> bool) {
    var hit := Get(s.cache, DigestKey(repo, chart, digest)).1;
    hit.Some? && held(hit.value)
  }

  /** A digest lookup differs from the cold one only by answering from the cache. */
  lemma ManifestWarmOrCold(k: Setup, w: World, u: Site, s: State, repo: string, chart: string, digest: string)
    requires Settled(k, w, u, repo, chart) && Faithful(k, u, repo, chart, s)
    ensures var r := ManifestStep(k, w, s, repo, chart, digest).1;
      && (!Warm(s, repo, chart, digest, HasManifest(digest)) ==> r == ColdManifest(k, u, repo, chart, digest))
      && (Warm(s, repo, chart, digest, HasManifest(digest)) ==>
            r.Ok? && Yields(k, u, repo, chart, r.value) && r.value.manifestDigest == digest)
  {
    hide ManifestScanStep, ColdManifest, ListedUnmistaken, Steady, Yields, Vouched, NameOk;
    GetDigestSound(k, ChartYields(k, u, repo, chart), s.cache, repo, chart, digest);
    ManifestScanCold(k, w, u, s.(cache := Get(s.cache, DigestKey(repo, chart, digest)).0), repo, chart, digest);
  }

  /** The bytes come out of an artifact that some version of the chart resolves to. */
  ghost predicate BlobYielded(k: Setup, u: Site, repo: string, chart: string, digest: string, data: Bytes) {
    exists art: Artifact :: Yields(k, u, repo, chart, art) && Holds(art, digest, data)
  }

  lemma BlobWarmOrCold(k: Setup, w: World, u: Site, s: State, repo: string, chart: string, digest: string)
    requires Settled(k, w, u, repo, chart) && Faithful(k, u, repo, chart, s)
    ensures var (s', r) := BlobStep(k, w, s, repo, chart, digest);
      && Faithful(k, u, repo, chart, s')
      && (!Warm(s, repo, chart, digest, HasBlob(digest)) ==> r == ColdBlob(k, u, repo, chart, digest))
      && (Warm(s, repo, chart, digest, HasBlob(digest)) ==>
            r.Ok? && BlobYielded(k, u, repo, chart, digest, r.value))
  {
    hide BlobMissStep, ColdBlob, ListedUnmistaken, Steady, Yields, Vouched, NameOk;
    GetDigestSound(k, ChartYields(k, u, repo, chart), s.cache, repo, chart, digest);
    var (cache, hit) := Get(s.cache, DigestKey(repo, chart, digest));
    BlobMissCold(k, w, u, s.(cache := cache), repo, chart, digest);
    if hit.Some? && hit.value.Blob(digest).Some? {
      assert Yields(k, u, repo, chart, hit.value) && Holds(hit.value, digest, hit.value.Blob(digest).value.0);
    }
  }

  lemma YieldsSealed(k: Setup, u: Site, repo: string, chart: string, art: Artifact)
    requires Yields(k, u, repo, chart, art)
    ensures Sealed(k.codec, art)
  {
  }

  lemma YieldedBlobHasDigest(k: Setup, u: Site, repo: string, chart: string, digest: string, data: Bytes)
    requires BlobYielded(k, u, repo, chart, digest, data)
    ensures Digest(k.codec, data) == digest
  {
    hide Yields, Sealed;
    var art: Artifact :| Yields(k, u, repo, chart, art) && Holds(art, digest, data);
    YieldsSealed(k, u, repo, chart, art);
    BlobHasDigest(k.codec, art, digest);
  }

  // Cold answers carry their digests.

  lemma ColdManifestDigest(k: Setup, u: Site, repo: string, chart: string, digest: string)
    requires ColdManifest(k, u, repo, chart, digest).Ok?
    ensures var art := ColdManifest(k, u, repo, chart, digest).value;
      Yields(k, u, repo, chart, art) && art.manifestDigest == digest && Digest(k.codec, art.manifest) == digest
  {
    hide ColdScan, Yields;
    FoundIsWanted(k, u, repo, chart, HasManifest(digest), Candidates(k, Entries(u, repo, chart).value));
    YieldsSealed(k, u, repo, chart, ColdManifest(k, u, repo, chart, digest).value);
  }

  lemma ColdBlobScanDigest(k: Setup, u: Site, repo: string, chart: string, digest: string)
    requires ColdBlobScan(k, u, repo, chart, digest).Ok?
    ensures Digest(k.codec, ColdBlobScan(k, u, repo, chart, digest).value) == digest
  {
    hide ColdScan, Yields, Sealed;
    FoundIsWanted(k, u, repo, chart, HasBlob(digest), Candidates(k, Entries(u, repo, chart).value));
    var art := ColdFind(k, u, repo, chart, HasBlob(digest)).value.value;
    YieldsSealed(k, u, repo, chart, art);
    BlobHasDigest(k.codec, art, digest);
  }

  lemma VersionSealedCold(k: Setup, u: Site, repo: string, chart: string, version: string)
    requires ColdVersion(k, u, repo, chart, version).Ok?
    ensures Sealed(k.codec, ColdVersion(k, u, repo, chart, version).value)
  {
  }

  lemma ColdServeDigest(k: Setup, u: Site, repo: string, chart: string, digest: string)
    requires ColdServeBlob(k, u, repo, chart, digest).Ok?
    ensures Digest(k.codec, ColdServeBlob(k, u, repo, chart, digest).value) == digest
  {
    hide ColdBlobScan, ColdVersion, Sealed, SignatureFor, Entries, ColdFind;
    if ColdBlob(k, u, repo, chart, digest).Ok? {
      if ColdBlobScan(k, u, repo, chart, digest).Ok? {
        ColdBlobScanDigest(k, u, repo, chart, digest);
      }
      var layer := FindLayerDigest(Entries(u, repo, chart).value, digest);
      if layer.Some? {
        VersionSealedCold(k, u, repo, chart, layer.value.version);
        var art := ColdVersion(k, u, repo, chart, layer.value.version).value;
        if art.Blob(digest).Some? {
          BlobHasDigest(k.codec, art, digest);
        }
      }
    } else {
      var found :=
          ColdFind(k, u, repo, chart, SignatureHasBlob(k, k.opts.signer.value, repo, chart, digest)).value.value;
      SignatureBlobHasDigest(k.codec, k.opts.signer.value, repo + "/" + chart, found.manifestDigest, digest);
    }
  }

  /** Whatever a cold replica answers by manifest digest, a warm one answers with the same manifest bytes. */
  lemma ManifestColdImpliesWarm(k: Setup, w: World, u: Site, s: State, repo: string, chart: string, digest: string)
    requires Settled(k, w, u, repo, chart) && Reachable(k, w, s) && CollisionFree(k.codec)
    requires ColdManifest(k, u, repo, chart, digest).Ok?
    ensures var r := ManifestStep(k, w, s, repo, chart, digest).1;
      r.Ok? && r.value.manifest == ColdManifest(k, u, repo, chart, digest).value.manifest
  {
    hide ManifestStep, ColdManifest, ListedUnmistaken, Steady, Faithful, Reachable, NameOk, Yields;
    SteadyIsSteadyOrFailing(k, w, u, repo, chart);
    ReachableFaithful(k, w, u, repo, chart, s);
    ManifestWarmOrCold(k, w, u, s, repo, chart, digest);
    var warm := ManifestStep(k, w, s, repo, chart, digest).1.value;
    ContentAddressed(k, w, s, repo, chart, digest);
    ColdManifestDigest(k, u, repo, chart, digest);
    SameDigestSameBytes(k.codec, warm.manifest, ColdManifest(k, u, repo, chart, digest).value.manifest);
  }

  /** A cold answer is what a replica that has served nothing yet gives. */
  lemma ColdStart(k: Setup, w: World, u: Site, repo: string, chart: string, digest: string)
    requires Settled(k, w, u, repo, chart)
    ensures ManifestStep(k, w, COLD, repo, chart, digest).1 == ColdManifest(k, u, repo, chart, digest)
    ensures BlobStep(k, w, COLD, repo, chart, digest).1 == ColdBlob(k, u, repo, chart, digest)
    ensures ServeBlobStep(k, w, COLD, repo, chart, digest).1 == ColdServeBlob(k, u, repo, chart, digest)
  {
    hide ManifestStep, BlobStep, ColdManifest, ColdBlob, ListedUnmistaken, Steady, SignatureBlobStep, ColdSignatureBlob,
      Faithful, NameOk, Yields;
    SteadyIsSteadyOrFailing(k, w, u, repo, chart);
    ColdReachable(k, w);
    ReachableFaithful(k, w, u, repo, chart, COLD);
    ManifestWarmOrCold(k, w, u, COLD, repo, chart, digest);
    BlobWarmOrCold(k, w, u, COLD, repo, chart, digest);
    SignatureBlobCold(k, w, u, BlobStep(k, w, COLD, repo, chart, digest).0, repo, chart, digest);
  }

  lemma ColdReachable(k: Setup, w: World)
    ensures Reachable(k, w, COLD)
  {
    assert Dispatched([]) && Run(k, w, COLD, []) == COLD;
  }

  /** Whatever a cold replica serves as a blob, a warm one serves with the same bytes. */
  lemma BlobColdImpliesWarm(k: Setup, w: World, u: Site, s: State, repo: string, chart: string, digest: string)
    requires Settled(k, w, u, repo, chart) && Reachable(k, w, s) && CollisionFree(k.codec)
    requires ColdServeBlob(k, u, repo, chart, digest).Ok?
    ensures ServeBlobStep(k, w, s, repo, chart, digest).1 == ColdServeBlob(k, u, repo, chart, digest)
  {
    hide BlobStep, ColdBlob, ListedUnmistaken, Steady, Faithful, Reachable, SignatureBlobStep, ColdSignatureBlob,
      BlobYielded, NameOk;
    SteadyIsSteadyOrFailing(k, w, u, repo, chart);
    ReachableFaithful(k, w, u, repo, chart, s);
    BlobWarmOrCold(k, w, u, s, repo, chart, digest);
    var (s', r) := BlobStep(k, w, s, repo, chart, digest);
    SignatureBlobCold(k, w, u, s', repo, chart, digest);
    if Warm(s, repo, chart, digest, HasBlob(digest)) {
      YieldedBlobHasDigest(k, u, repo, chart, digest, r.value);
      ColdServeDigest(k, u, repo, chart, digest);
      SameDigestSameBytes(k.codec, r.value, ColdServeBlob(k, u, repo, chart, digest).value);
    }
  }
}
