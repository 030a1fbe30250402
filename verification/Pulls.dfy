/** What a client can pull after reading a manifest, from any replica in any reachable state. */
module Pulls {
  import opened Wrappers
  import opened Text
  import opened Metadata
  import opened Oci
  import opened CacheInvariants
  import opened Upstreams
  import opened Rewriting
  import opened Signing
  import opened Resolvers
  import opened Sessions
  import opened Transparency
  import opened Replicas

  /** The first n candidates each build or fail in a way a scan passes over. */
  ghost predicate Passable(k: Setup, u: Site, repo: string, chart: string, candidates: seq<IndexEntry>, n: nat)
    requires n <= |candidates|
  {
    forall j | 0 <= j < n :: PassableAt(k, u, repo, chart, candidates[j].version)
  }

  ghost predicate PassableAt(k: Setup, u: Site, repo: string, chart: string, version: string) {
    var r := ColdVersion(k, u, repo, chart, version);
    r.Ok? || Skippable(r.error)
  }

  /** If the index publishes this digest, the version it publishes it for resolves. */
  ghost predicate FastPathResolves(k: Setup, u: Site, repo: string, chart: string, entries: seq<IndexEntry>,
                                   digest: string) {
    var layer := FindLayerDigest(entries, digest);
    layer.Some? ==> ColdVersion(k, u, repo, chart, layer.value.version).Ok?
  }

  /** Every version the index publishes a digest for resolves. */
  ghost predicate HonestIndex(k: Setup, u: Site, repo: string, chart: string, entries: seq<IndexEntry>) {
    forall e | e in entries && e.digest != "" :: ColdVersion(k, u, repo, chart, e.version).Ok?
  }

  lemma HonestResolves(k: Setup, u: Site, repo: string, chart: string, entries: seq<IndexEntry>, digest: string)
    requires HonestIndex(k, u, repo, chart, entries)
    ensures FastPathResolves(k, u, repo, chart, entries, digest)
  {
  }

  lemma {:induction false} ScanReaches(k: Setup, u: Site, repo: string, chart: string, wanted: Artifact -> bool,
                                       candidates: seq<IndexEntry>, i: nat)
    requires i < |candidates| && Passable(k, u, repo, chart, candidates, i)
    requires ColdVersion(k, u, repo, chart, candidates[i].version).Ok?
    requires wanted(ColdVersion(k, u, repo, chart, candidates[i].version).value)
    ensures var r := ColdScan(k, u, repo, chart, wanted, candidates); r.Ok? && r.value.Some? && wanted(r.value.value)
    decreases i
  {
    hide ColdVersion;
    if i > 0 {
      assert PassableAt(k, u, repo, chart, candidates[0].version);
      forall j | 0 <= j < i - 1 ensures PassableAt(k, u, repo, chart, candidates[1..][j].version) {
        assert candidates[1..][j] == candidates[j + 1];
      }
      ScanReaches(k, u, repo, chart, wanted, candidates[1..], i - 1);
    }
  }

  lemma {:induction false} ScanCompletes(k: Setup, u: Site, repo: string, chart: string, wanted: Artifact -> bool,
                                         candidates: seq<IndexEntry>)
    requires Passable(k, u, repo, chart, candidates, |candidates|)
    ensures var r := ColdScan(k, u, repo, chart, wanted, candidates); r.Ok? && (r.value.Some? ==> wanted(r.value.value))
  {
    hide ColdVersion;
    if candidates != [] {
      assert PassableAt(k, u, repo, chart, candidates[0].version);
      forall j | 0 <= j < |candidates| - 1 ensures PassableAt(k, u, repo, chart, candidates[1..][j].version) {
        assert candidates[1..][j] == candidates[j + 1];
      }
      ScanCompletes(k, u, repo, chart, wanted, candidates[1..]);
    }
  }

  /** The chart is listed, and its i-th entry, one of the first ScanLimit, resolves to the artifact,
      the entries before it building or failing in a way a scan passes over. */
  ghost predicate WithinScan(k: Setup, u: Site, repo: string, chart: string, art: Artifact, entries: seq<IndexEntry>,
                             i: nat) {
    && Entries(u, repo, chart) == Ok(entries)
    && i < |entries| && i < k.opts.scanLimit
    && ColdVersion(k, u, repo, chart, entries[i].version) == Ok(art)
    && Passable(k, u, repo, chart, entries, i)
  }

  lemma WithinScanSealed(k: Setup, u: Site, repo: string, chart: string, art: Artifact, entries: seq<IndexEntry>,
                         i: nat)
    requires WithinScan(k, u, repo, chart, art, entries, i)
    ensures Sealed(k.codec, art)
  {
    hide ColdVersion, Sealed, Passable, Entries;
    VersionSealedCold(k, u, repo, chart, entries[i].version);
  }

  /** A scan gets to such an entry, if it is after what the entry resolves to. */
  lemma ScanReachesEntry(k: Setup, u: Site, repo: string, chart: string, art: Artifact, entries: seq<IndexEntry>,
                         i: nat,
                         wanted: Artifact -> bool)
    requires WithinScan(k, u, repo, chart, art, entries, i) && wanted(art)
    ensures var r := ColdFind(k, u, repo, chart, wanted); r.Ok? && r.value.Some? && wanted(r.value.value)
  {
    hide ColdVersion, ColdScan, PassableAt, Entries;
    ScanReaches(k, u, repo, chart, wanted, Candidates(k, entries), i);
  }

  /** A manifest within scan reach is answered cold by its digest, and by every replica in every reachable state. */
  lemma ManifestResolves(k: Setup, w: World, u: Site, s: State, repo: string, chart: string, art: Artifact,
                         entries: seq<IndexEntry>, i: nat)
    requires WithinScan(k, u, repo, chart, art, entries, i)
    ensures ColdManifest(k, u, repo, chart, art.manifestDigest).Ok?
    ensures Settled(k, w, u, repo, chart) && Reachable(k, w, s) && CollisionFree(k.codec) ==>
      var r := ManifestStep(k, w, s, repo, chart, art.manifestDigest).1; r.Ok? && r.value.manifest == art.manifest
  {
    hide WithinScan, Settled, Reachable, ManifestStep, ColdFind, ColdManifest, Sealed, NameOk, Yields;
    ManifestResolvesCold(k, u, repo, chart, art, entries, i);
    if Settled(k, w, u, repo, chart) && Reachable(k, w, s) && CollisionFree(k.codec) {
      ManifestColdImpliesWarm(k, w, u, s, repo, chart, art.manifestDigest);
      ColdManifestDigest(k, u, repo, chart, art.manifestDigest);
      WithinScanSealed(k, u, repo, chart, art, entries, i);
      SealedManifest(k.codec, art);
      SameDigestSameBytes(k.codec, ColdManifest(k, u, repo, chart, art.manifestDigest).value.manifest, art.manifest);
    }
  }

  lemma ManifestResolvesCold(k: Setup, u: Site, repo: string, chart: string, art: Artifact, entries: seq<IndexEntry>,
                             i: nat)
    requires WithinScan(k, u, repo, chart, art, entries, i)
    ensures ColdManifest(k, u, repo, chart, art.manifestDigest).Ok?
  {
    hide WithinScan, ColdFind;
    ScanReachesEntry(k, u, repo, chart, art, entries, i, HasManifest(art.manifestDigest));
  }

  lemma SealedManifest(codec: Codec, a: Artifact)
    requires Sealed(codec, a)
    ensures Digest(codec, a.manifest) == a.manifestDigest
  {
  }

  /** A blob of an artifact within scan reach is answered cold exactly when the index's fast path,
      if it applies to the digest, resolves. */
  lemma HeldBlobResolvesIff(k: Setup, u: Site, repo: string, chart: string, art: Artifact, entries: seq<IndexEntry>,
                            i: nat, digest: string)
    requires WithinScan(k, u, repo, chart, art, entries, i) && art.Blob(digest).Some?
    ensures ColdBlob(k, u, repo, chart, digest).Ok? <==> FastPathResolves(k, u, repo, chart, entries, digest)
  {
    hide ColdVersion, ColdFind;
    ScanReachesEntry(k, u, repo, chart, art, entries, i, HasBlob(digest));
  }

  /** Whatever artifact any replica hands out for the chart, though its upstream keep failing, some version of the chart
      resolves to it. */
  lemma ServedIsYielded(k: Setup, w: World, u: Site, s: State, repo: string, chart: string, reference: string)
    requires SteadyOrFailing(k, w, u, repo, chart) && Reachable(k, w, s) && NameOk(repo, chart)
    ensures var r := VersionStep(k, w, s, repo, chart, reference).1; r.Ok? ==> Yields(k, u, repo, chart, r.value)
    ensures var r := ManifestStep(k, w, s, repo, chart, reference).1; r.Ok? ==> Yields(k, u, repo, chart, r.value)
  {
    hide VersionStep, ManifestStep, Vouched, Yields, SteadyOrFailing, Establishes, Reachable;
    EveryBuildYields(k, w, u, repo, chart);
    ReachableFaithful(k, w, u, repo, chart, s);
    VersionStepSound(k, w, ChartYields(k, u, repo, chart), s, repo, chart, reference);
    ManifestStepSound(k, w, ChartYields(k, u, repo, chart), s, repo, chart, reference);
  }

  lemma ReferenceServedCold(k: Setup, u: Site, repo: string, chart: string, art: Artifact,
                            entries: seq<IndexEntry>, i: nat, m: Manifest, d: Descriptor)
    requires CollisionFree(k.codec) && ManifestRoundTrips(k.codec)
    requires WithinScan(k, u, repo, chart, art, entries, i)
    requires k.codec.parseManifest(art.manifest) == Some(m) && d in References(m)
    requires FastPathResolves(k, u, repo, chart, entries, d.digest)
    ensures ColdServeBlob(k, u, repo, chart, d.digest).Ok?
    ensures art.Blob(d.digest).Some? && |art.Blob(d.digest).value.0| == d.size
    ensures Digest(k.codec, art.Blob(d.digest).value.0) == d.digest
  {
    hide ColdBlob, FastPathResolves, ColdSignatureBlob, WithinScan, Sealed;
    WithinScanSealed(k, u, repo, chart, art, entries, i);
    ReferencesHeld(k.codec, art, m, d);
    HeldBlobResolvesIff(k, u, repo, chart, art, entries, i, d.digest);
    BlobHasDigest(k.codec, art, d.digest);
  }

  /** Pull closure: everything a served manifest references can be fetched from any replica, in any
      reachable state, with the stated digest and size. */
  lemma ReferencesPullable(k: Setup, w: World, u: Site, s: State, repo: string, chart: string, art: Artifact,
                           entries: seq<IndexEntry>, i: nat, m: Manifest, d: Descriptor)
    requires Settled(k, w, u, repo, chart) && Reachable(k, w, s)
    requires CollisionFree(k.codec) && ManifestRoundTrips(k.codec)
    requires WithinScan(k, u, repo, chart, art, entries, i)
    requires k.codec.parseManifest(art.manifest) == Some(m) && d in References(m)
    requires FastPathResolves(k, u, repo, chart, entries, d.digest)
    ensures var r := ServeBlobStep(k, w, s, repo, chart, d.digest).1;
      r.Ok? && |r.value| == d.size && Digest(k.codec, r.value) == d.digest
  {
    hide ServeBlobStep, ColdServeBlob, Settled, Reachable, FastPathResolves, WithinScan;
    ReferenceServedCold(k, u, repo, chart, art, entries, i, m, d);
    ServedWithDigest(k, w, u, s, repo, chart, d.digest, art.Blob(d.digest).value.0);
  }

  /** A cold success is served by every replica, as the one byte string with that digest. */
  lemma ServedWithDigest(k: Setup, w: World, u: Site, s: State, repo: string, chart: string, digest: string,
                         data: Bytes)
    requires Settled(k, w, u, repo, chart) && Reachable(k, w, s) && CollisionFree(k.codec)
    requires ColdServeBlob(k, u, repo, chart, digest).Ok? && Digest(k.codec, data) == digest
    ensures ServeBlobStep(k, w, s, repo, chart, digest).1 == Ok(data)
  {
    hide ServeBlobStep, ColdServeBlob, Settled, Reachable;
    BlobColdImpliesWarm(k, w, u, s, repo, chart, digest);
    ColdServeDigest(k, u, repo, chart, digest);
    SameDigestSameBytes(k.codec, ColdServeBlob(k, u, repo, chart, digest).value, data);
  }

  // Exactly what a scan finds.

  /** Among the first ScanLimit entries one is wanted, and those before it build or fail in a way a scan passes over. */
  ghost predicate WantedWithin(k: Setup, u: Site, repo: string, chart: string, wanted: Artifact -> bool,
                               entries: seq<IndexEntry>) {
    exists j: nat :: j < k.opts.scanLimit
      && WantedAt(k, u, repo, chart, wanted, entries, j) && Passable(k, u, repo, chart, entries, j)
  }

  /** Or all of them do. */
  ghost predicate AllPassable(k: Setup, u: Site, repo: string, chart: string, entries: seq<IndexEntry>) {
    forall j | 0 <= j < |entries| && j < k.opts.scanLimit :: PassableAt(k, u, repo, chart, entries[j].version)
  }

  lemma {:induction false} FoundWanted(k: Setup, u: Site, repo: string, chart: string, wanted: Artifact -> bool,
                                       candidates: seq<IndexEntry>) returns (j: nat)
    requires ColdScan(k, u, repo, chart, wanted, candidates).Ok?
    requires ColdScan(k, u, repo, chart, wanted, candidates).value.Some?
    ensures WantedAt(k, u, repo, chart, wanted, candidates, j) && Passable(k, u, repo, chart, candidates, j)
    decreases candidates
  {
    hide ColdVersion;
    if WantedAt(k, u, repo, chart, wanted, candidates, 0) {
      j := 0;
    } else {
      var rest := candidates[1..];
      var i := FoundWanted(k, u, repo, chart, wanted, rest);
      j := i + 1;
      assert PassableAt(k, u, repo, chart, candidates[0].version);
      forall n | 0 <= n < j ensures PassableAt(k, u, repo, chart, candidates[n].version) {
        assert n > 0 ==> candidates[n] == rest[n - 1] && PassableAt(k, u, repo, chart, rest[n - 1].version);
      }
    }
  }

  /** A manifest digest resolves cold exactly if one of the first ScanLimit entries has that manifest and is reached. */
  lemma ManifestResolvesIff(k: Setup, u: Site, repo: string, chart: string, entries: seq<IndexEntry>, digest: string)
    requires Entries(u, repo, chart) == Ok(entries)
    ensures ColdManifest(k, u, repo, chart, digest).Ok? <==>
      WantedWithin(k, u, repo, chart, HasManifest(digest), entries)
  {
    hide ColdVersion, ColdScan, PassableAt;
    var candidates := Candidates(k, entries);
    if ColdManifest(k, u, repo, chart, digest).Ok? {
      var j := FoundWanted(k, u, repo, chart, HasManifest(digest), candidates);
      assert WantedAt(k, u, repo, chart, HasManifest(digest), entries, j) && Passable(k, u, repo, chart, entries, j);
    }
    forall j: nat | j < k.opts.scanLimit
      && WantedAt(k, u, repo, chart, HasManifest(digest), entries, j) && Passable(k, u, repo, chart, entries, j)
      ensures ColdManifest(k, u, repo, chart, digest).Ok?
    {
      var art := ColdVersion(k, u, repo, chart, entries[j].version).value;
      assert WithinScan(k, u, repo, chart, art, entries, j);
      ManifestResolvesCold(k, u, repo, chart, art, entries, j);
    }
  }

  lemma ScanEndsWithin(k: Setup, u: Site, repo: string, chart: string, wanted: Artifact -> bool,
                       entries: seq<IndexEntry>)
    ensures ScanEnds(k, u, repo, chart, wanted, Candidates(k, entries)) <==>
      AllPassable(k, u, repo, chart, entries) || WantedWithin(k, u, repo, chart, wanted, entries)
  {
    hide ColdVersion, PassableAt;
    var candidates := Candidates(k, entries);
    forall j: nat | j < |candidates|
      ensures WantedAt(k, u, repo, chart, wanted, candidates, j) <==> WantedAt(k, u, repo, chart, wanted, entries, j)
      ensures Passable(k, u, repo, chart, candidates, j) <==> Passable(k, u, repo, chart, entries, j)
    {
    }
    assert AllPassable(k, u, repo, chart, entries) <==> Passable(k, u, repo, chart, candidates, |candidates|);
  }

  // Signatures.

  /** The first candidate that is wanted, or the end, is reached before any failure that aborts a scan. */
  ghost predicate ScanEnds(k: Setup, u: Site, repo: string, chart: string, wanted: Artifact -> bool,
                           candidates: seq<IndexEntry>) {
    || Passable(k, u, repo, chart, candidates, |candidates|)
    || exists j: nat :: WantedAt(k, u, repo, chart, wanted, candidates, j) && Passable(k, u, repo, chart, candidates, j)
  }

  ghost predicate WantedAt(k: Setup, u: Site, repo: string, chart: string, wanted: Artifact -> bool,
                           candidates: seq<IndexEntry>, j: nat) {
    j < |candidates| && ColdVersion(k, u, repo, chart, candidates[j].version).Ok?
    && wanted(ColdVersion(k, u, repo, chart, candidates[j].version).value)
  }

  lemma {:induction false} ScanEndsIff(k: Setup, u: Site, repo: string, chart: string, wanted: Artifact -> bool,
                                       candidates: seq<IndexEntry>)
    ensures ColdScan(k, u, repo, chart, wanted, candidates).Ok? <==> ScanEnds(k, u, repo, chart, wanted, candidates)
  {
    hide ColdVersion;
    if Passable(k, u, repo, chart, candidates, |candidates|) {
      ScanCompletes(k, u, repo, chart, wanted, candidates);
    }
    forall j: nat | WantedAt(k, u, repo, chart, wanted, candidates, j) && Passable(k, u, repo, chart, candidates, j)
      ensures ColdScan(k, u, repo, chart, wanted, candidates).Ok?
    {
      ScanReaches(k, u, repo, chart, wanted, candidates, j);
    }
    if ColdScan(k, u, repo, chart, wanted, candidates).Ok? {
      EndedScan(k, u, repo, chart, wanted, candidates);
    }
  }

  lemma {:induction false} EndedScan(k: Setup, u: Site, repo: string, chart: string, wanted: Artifact -> bool,
                                     candidates: seq<IndexEntry>)
    requires ColdScan(k, u, repo, chart, wanted, candidates).Ok?
    ensures ScanEnds(k, u, repo, chart, wanted, candidates)
    decreases candidates
  {
    hide ColdVersion;
    if candidates != [] {
      var rest := candidates[1..];
      if WantedAt(k, u, repo, chart, wanted, candidates, 0) {
        assert Passable(k, u, repo, chart, candidates, 0);
      } else {
        EndedScan(k, u, repo, chart, wanted, rest);
        assert PassableAt(k, u, repo, chart, candidates[0].version);
        forall n: nat | n <= |rest| && Passable(k, u, repo, chart, rest, n)
          ensures Passable(k, u, repo, chart, candidates, n + 1)
        {
          forall j | 0 <= j < n + 1 ensures PassableAt(k, u, repo, chart, candidates[j].version) {
            assert j > 0 ==> candidates[j] == rest[j - 1] && PassableAt(k, u, repo, chart, rest[j - 1].version);
          }
        }
        forall j: nat | WantedAt(k, u, repo, chart, wanted, rest, j)
          ensures WantedAt(k, u, repo, chart, wanted, candidates, j + 1)
        {
          assert candidates[j + 1] == rest[j];
        }
      }
    }
  }

  /** No build fails for want of a blob. */
  lemma VersionNeverLacksBlob(k: Setup, u: Site, repo: string, chart: string, version: string)
    requires Entries(u, repo, chart).Ok?
    ensures ColdVersion(k, u, repo, chart, version) != Err(BlobUnknown)
  {
    hide FirstChartYaml, Annotations, FindVersion;
    var entry := FindVersion(Entries(u, repo, chart).value, version);
    if entry.Some? {
      DeriveNeverLacksBlob(k, u, repo, entry.value);
    }
  }

  lemma DeriveNeverLacksBlob(k: Setup, u: Site, repo: string, entry: IndexEntry)
    ensures Derive(k, u, u, repo, entry) != Err(BlobUnknown)
  {
    hide Build, RewriteDependencies;
    var raw := ChartBytes(k.codec, k.resolve, u, k.opts.maxChartBytes, repo, entry);
    if raw.Ok? {
      RewritingFailsOther(k.codec, k.tools, raw.value, k.opts.rewriteHost);
    }
    forall chart, prov ensures Build(k.codec, chart, prov).Err? ==> Build(k.codec, chart, prov).error.Other? {
      BuildFailsOther(k.codec, chart, prov);
    }
  }

  lemma BuildFailsOther(codec: Codec, chart: Bytes, prov: Option<Bytes>)
    ensures Build(codec, chart, prov).Err? ==> Build(codec, chart, prov).error.Other?
  {
    hide FirstChartYaml, Annotations, StringField, Marshal;
    if codec.unpack(chart).Some? {
      MetadataFailsOther(codec, codec.unpack(chart).value.entries, codec.unpack(chart).value.corrupt);
    }
  }

  lemma {:induction false} MetadataFailsOther(codec: Codec, entries: seq<TarEntry>, corrupt: bool)
    ensures var r := FirstChartYaml(codec, entries, corrupt); r.Err? ==> r.error.Other?
  {
    if entries != [] {
      MetadataFailsOther(codec, entries[1..], corrupt);
    }
  }

  lemma RewritingFailsOther(codec: Codec, tools: Tools, chart: Bytes, host: string)
    ensures var r := RewriteDependencies(codec, tools, chart, host); r.Err? ==> r.error.Other?
  {
    hide RewriteEntries, RewriteDocument;
    if codec.unpack(chart).Some? {
      EntriesFailOther(tools, host, codec.unpack(chart).value.entries);
    }
  }

  lemma {:induction false} EntriesFailOther(tools: Tools, host: string, es: seq<TarEntry>)
    ensures var r := RewriteEntries(tools, host, es); r.Err? ==> r.error.Other?
  {
    hide RewriteDocument;
    if es != [] {
      EntriesFailOther(tools, host, es[..|es| - 1]);
    }
  }

  /** The index publishes this digest for an artifact that does hold it. */
  ghost predicate FastPathHolds(k: Setup, u: Site, repo: string, chart: string, entries: seq<IndexEntry>,
                                digest: string) {
    var layer := FindLayerDigest(entries, digest);
    layer.Some? && ColdVersion(k, u, repo, chart, layer.value.version).Ok?
    && ColdVersion(k, u, repo, chart, layer.value.version).value.Blob(digest).Some?
  }

  /** A blob of the signature of an artifact within scan reach is served cold exactly when the index's fast path,
      if it applies, resolves, and either holds the blob or leaves it to a scan for chart blobs that no failure
      aborts. */
  lemma SignatureBlobResolvesIff(k: Setup, u: Site, repo: string, chart: string, art: Artifact,
                                 entries: seq<IndexEntry>, i: nat, digest: string)
    requires WithinScan(k, u, repo, chart, art, entries, i) && k.opts.signer.Some?
    requires SignatureFor(k.codec, k.opts.signer.value, repo + "/" + chart, art.manifestDigest).Blob(digest).Some?
    ensures ColdServeBlob(k, u, repo, chart, digest).Ok? <==>
      && FastPathResolves(k, u, repo, chart, entries, digest)
      && (FastPathHolds(k, u, repo, chart, entries, digest)
          || AllPassable(k, u, repo, chart, entries)
          || WantedWithin(k, u, repo, chart, HasBlob(digest), entries))
  {
    hide ColdVersion, SignatureFor, ColdScan, ScanEnds, AllPassable, WantedWithin;
    var candidates := Candidates(k, entries);
    ScanEndsIff(k, u, repo, chart, HasBlob(digest), candidates);
    ScanEndsWithin(k, u, repo, chart, HasBlob(digest), entries);
    ScanReachesEntry(k, u, repo, chart, art, entries, i, SignatureHasBlob(k, k.opts.signer.value, repo, chart, digest));
    AbortedScan(k, u, repo, chart, HasBlob(digest), candidates);
    var layer := FindLayerDigest(entries, digest);
    if layer.Some? {
      VersionNeverLacksBlob(k, u, repo, chart, layer.value.version);
    }
    FoundIsWanted(k, u, repo, chart, HasBlob(digest), candidates);
  }

  lemma {:induction false} AbortedScan(k: Setup, u: Site, repo: string, chart: string, wanted: Artifact -> bool,
                                       candidates: seq<IndexEntry>)
    requires Entries(u, repo, chart).Ok?
    ensures ColdScan(k, u, repo, chart, wanted, candidates) != Err(BlobUnknown)
    decreases candidates
  {
    hide ColdVersion, Entries;
    if candidates != [] {
      VersionNeverLacksBlob(k, u, repo, chart, candidates[0].version);
      AbortedScan(k, u, repo, chart, wanted, candidates[1..]);
    }
  }

  /** However often the chart's upstream fails, nothing is signed but the manifest of an artifact that some version
      of the chart resolves to. */
  lemma SignedIsYielded(k: Setup, w: World, u: Site, s: State, repo: string, chart: string, target: string)
    requires SteadyOrFailing(k, w, u, repo, chart) && Reachable(k, w, s) && NameOk(repo, chart)
    requires SignatureStep(k, w, s, repo, chart, target).1.Ok?
    ensures exists art: Artifact :: Yields(k, u, repo, chart, art) && art.manifestDigest == target
  {
    hide SignatureStep, SteadyOrFailing, Reachable, NameOk, Yields, Establishes;
    EveryBuildYields(k, w, u, repo, chart);
    var p := ChartYields(k, u, repo, chart);
    SignedIsVouched(k, w, p, s, repo, chart, target);
    var art: Artifact :| p(repo, chart, art) && art.manifestDigest == target;
    assert Yields(k, u, repo, chart, art);
  }

  /** The pull closure of a signature: under that condition, its payload and config can be fetched from any replica. */
  lemma SignatureReferencesPullable(k: Setup, w: World, u: Site, s: State, repo: string, chart: string, art: Artifact,
                                    entries: seq<IndexEntry>, i: nat, m: Manifest, d: Descriptor)
    requires Settled(k, w, u, repo, chart) && Reachable(k, w, s)
    requires CollisionFree(k.codec) && ManifestRoundTrips(k.codec) && k.opts.signer.Some?
    requires WithinScan(k, u, repo, chart, art, entries, i)
    requires var signature := SignatureFor(k.codec, k.opts.signer.value, repo + "/" + chart, art.manifestDigest);
      k.codec.parseManifest(signature.manifest) == Some(m) && d in References(m)
    requires FastPathResolves(k, u, repo, chart, entries, d.digest)
    requires FastPathHolds(k, u, repo, chart, entries, d.digest)
          || AllPassable(k, u, repo, chart, entries)
          || WantedWithin(k, u, repo, chart, HasBlob(d.digest), entries)
    ensures var r := ServeBlobStep(k, w, s, repo, chart, d.digest).1;
      r.Ok? && |r.value| == d.size && Digest(k.codec, r.value) == d.digest
  {
    hide ServeBlobStep, ColdServeBlob, Settled, Reachable, FastPathResolves, FastPathHolds, AllPassable, WantedWithin,
      SignatureFor, WithinScan;
    var signer, name := k.opts.signer.value, repo + "/" + chart;
    SignatureReferencesHeld(k.codec, signer, name, art.manifestDigest, m, d);
    SignatureBlobHasDigest(k.codec, signer, name, art.manifestDigest, d.digest);
    SignatureBlobResolvesIff(k, u, repo, chart, art, entries, i, d.digest);
    ServedWithDigest(k, w, u, s, repo, chart, d.digest,
                     SignatureFor(k.codec, signer, name, art.manifestDigest).Blob(d.digest).value.0);
  }

  /** The layer fast path, without rewriting: the outcome is that of building the first entry that
      publishes the digest, wherever it stands relative to ScanLimit. */
  lemma FastPathExact(k: Setup, u: Site, repo: string, chart: string, entries: seq<IndexEntry>, entry: IndexEntry,
                      digest: string)
    requires k.opts.rewriteHost == "" && CollisionFree(k.codec) && HasPrefix(digest, "sha256:")
    requires Entries(u, repo, chart) == Ok(entries) && DistinctVersions(entries)
    requires FindLayerDigest(entries, digest) == Some(entry)
    ensures match Derive(k, u, u, repo, entry)
      case Err(e) => ColdBlob(k, u, repo, chart, digest) == Err(e)
      case Ok(art) => ColdBlob(k, u, repo, chart, digest) == Ok(art.chart) && Digest(k.codec, art.chart) == digest
  {
    FindVersionDistinct(entries, entry);
    var built := Derive(k, u, u, repo, entry);
    ColdVersionOfEntry(k, u, repo, chart, entries, entry);
    if built.Ok? {
      DerivedChartMatches(k, u, repo, entry, digest);
      hide ColdVersion, Derive, ColdBlobScan;
      BlobHasDigest(k.codec, built.value, digest);
      SameDigestSameBytes(k.codec, built.value.Blob(digest).value.0, built.value.chart);
    }
  }

  lemma ColdVersionOfEntry(k: Setup, u: Site, repo: string, chart: string, entries: seq<IndexEntry>, entry: IndexEntry)
    requires Entries(u, repo, chart) == Ok(entries) && FindVersion(entries, entry.version) == Some(entry)
    ensures ColdVersion(k, u, repo, chart, entry.version) == Derive(k, u, u, repo, entry)
  {
  }

  lemma DerivedChartMatches(k: Setup, u: Site, repo: string, entry: IndexEntry, digest: string)
    requires k.opts.rewriteHost == "" && Publishes(entry, digest) && HasPrefix(digest, "sha256:")
    requires Derive(k, u, u, repo, entry).Ok?
    ensures var art := Derive(k, u, u, repo, entry).value; art.chartDigest == digest == Digest(k.codec, art.chart)
  {
  }

  /** Hence a published layer whose first publisher builds is served by every replica in every reachable state. */
  lemma PublishedLayerServed(k: Setup, w: World, u: Site, s: State, repo: string, chart: string,
                             entries: seq<IndexEntry>,
                             entry: IndexEntry, digest: string)
    requires Settled(k, w, u, repo, chart) && Reachable(k, w, s)
    requires k.opts.rewriteHost == "" && CollisionFree(k.codec) && HasPrefix(digest, "sha256:")
    requires Entries(u, repo, chart) == Ok(entries) && DistinctVersions(entries)
    requires FindLayerDigest(entries, digest) == Some(entry) && Derive(k, u, u, repo, entry).Ok?
    ensures ServeBlobStep(k, w, s, repo, chart, digest).1 == Ok(Derive(k, u, u, repo, entry).value.chart)
  {
    hide ServeBlobStep, Settled, Reachable, ColdBlob, Derive, ColdSignatureBlob;
    FastPathExact(k, u, repo, chart, entries, entry, digest);
    ServedWithDigest(k, w, u, s, repo, chart, digest, Derive(k, u, u, repo, entry).value.chart);
  }
}
