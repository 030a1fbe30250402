/** Whole runs of requests against one replica, upstream changing at will between exchanges. */
module Sessions {
  import opened Wrappers
  import opened Oci
  import opened ArtifactCaches
  import opened CacheInvariants
  import opened Upstreams
  import opened Signing
  import opened Resolvers

  datatype Request =
    | VersionRequest(repo: string, chart: string, version: string)
    | ManifestRequest(repo: string, chart: string, digest: string)
    | BlobRequest(repo: string, chart: string, digest: string)
    | SignatureRequest(repo: string, chart: string, target: string)
    | TagsRequest(repo: string, chart: string)

  ghost function After(k: Setup, w: World, s: State, q: Request): State {
    match q
    case VersionRequest(repo, chart, version) => VersionStep(k, w, s, repo, chart, version).0
    case ManifestRequest(repo, chart, digest) => ManifestStep(k, w, s, repo, chart, digest).0
    case BlobRequest(repo, chart, digest) => ServeBlobStep(k, w, s, repo, chart, digest).0
    case SignatureRequest(repo, chart, target) => SignatureStep(k, w, s, repo, chart, target).0
    case TagsRequest(_, _) => s.(now := s.now + 1)
  }

  ghost function Run(k: Setup, w: World, s: State, requests: seq<Request>): State
    decreases requests
  {
    if requests == [] then s else Run(k, w, After(k, w, s, requests[0]), requests[1..])
  }

  ghost predicate Dispatched(requests: seq<Request>) {
    forall q | q in requests :: NameOk(q.repo, q.chart)
  }

  ghost predicate Reachable(k: Setup, w: World, s: State) {
    exists requests :: Dispatched(requests) && s == Run(k, w, COLD, requests)
  }

  lemma {:induction false} RunAppend(k: Setup, w: World, s: State, requests: seq<Request>, q: Request)
    ensures Run(k, w, s, requests + [q]) == After(k, w, Run(k, w, s, requests), q)
    decreases requests
  {
    hide After;
    if requests == [] {
      assert ([] + [q])[1..] == [];
    } else {
      assert (requests + [q])[1..] == requests[1..] + [q];
      RunAppend(k, w, After(k, w, s, requests[0]), requests[1..], q);
    }
  }

  /** One more request leads from a reachable state to a reachable state. */
  lemma ReachableAfter(k: Setup, w: World, s: State, q: Request)
    requires Reachable(k, w, s) && NameOk(q.repo, q.chart)
    ensures Reachable(k, w, After(k, w, s, q))
  {
    hide After, Run;
    var requests :| Dispatched(requests) && s == Run(k, w, COLD, requests);
    RunAppend(k, w, COLD, requests, q);
    assert Dispatched(requests + [q]);
  }

  /** A property of an artifact under the name it was built for. */
  type Claim = (string, string, Artifact) -> bool

  /** Everything any flight could ever build meets the claim. */
  ghost predicate Establishes(k: Setup, w: World, p: Claim) {
    forall t: nat, repo, chart, version |
      NameOk(repo, chart) && Uncached(k, w, t, repo, chart, version).Ok? ::
      p(repo, chart, Uncached(k, w, t, repo, chart, version).value)
  }

  /** The cache invariant, with every resident entry made under a name for which the claim holds. */
  ghost predicate Vouched(k: Setup, p: Claim, c: Cache) {
    && WellIndexed(c) && Bounded(k.opts.cacheBytes, c)
    && forall e | e in c.ll :: VouchedEntry(p, e)
  }

  ghost predicate VouchedEntry(p: Claim, e: CacheEntry) {
    exists repo, chart :: NameOk(repo, chart) && e == NewEntry(repo, chart, e.art) && p(repo, chart, e.art)
  }

  lemma GetVouched(k: Setup, p: Claim, c: Cache, id: string)
    requires Vouched(k, p, c)
    ensures Vouched(k, p, Get(c, id).0)
  {
    GetKeeps(k.opts.cacheBytes, c, id);
  }

  /** A version hit is an artifact of exactly that name and version. */
  lemma VersionHit(k: Setup, p: Claim, c: Cache, repo: string, chart: string, version: string)
    requires Vouched(k, p, c) && NameOk(repo, chart) && VersionKey(repo, chart, version) in c.byID
    ensures var art := c.byID[VersionKey(repo, chart, version)].art; p(repo, chart, art) && art.version == version
  {
    var key := VersionKey(repo, chart, version);
    var e := c.byID[key];
    var repo', chart' :| NameOk(repo', chart') && e == NewEntry(repo', chart', e.art) && p(repo', chart', e.art);
    OwnedKinds(e);
    VersionKeyKind(repo, chart, version);
    VersionKeyInjective(repo, chart, version, repo', chart', e.art.version);
  }

  /** A digest hit is an artifact of that name. */
  lemma DigestHit(k: Setup, p: Claim, c: Cache, repo: string, chart: string, digest: string)
    requires Vouched(k, p, c) && NameOk(repo, chart) && DigestKey(repo, chart, digest) in c.byID
    ensures p(repo, chart, c.byID[DigestKey(repo, chart, digest)].art)
  {
    var key := DigestKey(repo, chart, digest);
    var e := c.byID[key];
    var repo', chart' :| NameOk(repo', chart') && e == NewEntry(repo', chart', e.art) && p(repo', chart', e.art);
    DigestKeyOf(repo', chart', e.art, key, repo, chart, digest);
  }

  lemma DigestKeyOf(repo: string, chart: string, art: Artifact, key: string, repo': string, chart': string,
                    digest: string)
    requires NameOk(repo, chart) && NameOk(repo', chart')
    requires key in NewEntry(repo, chart, art).ids && key == DigestKey(repo', chart', digest)
    ensures repo == repo' && chart == chart'
  {
    DigestKeyKind(repo', chart', digest);
    VersionKeyKind(repo, chart, art.version);
    DigestKeysAt(repo, chart, Digests(art));
    var i :| 0 <= i < |Digests(art)| && key == DigestKeys(repo, chart, Digests(art))[i];
    DigestKeyInjective(repo, chart, Digests(art)[i], repo', chart', digest);
  }

  lemma AddVouched(k: Setup, p: Claim, c: Cache, repo: string, chart: string, art: Artifact)
    requires Vouched(k, p, c) && NameOk(repo, chart) && p(repo, chart, art)
    ensures Vouched(k, p, Add(k.opts.cacheBytes, c, repo, chart, art))
  {
    AddKeeps(k.opts.cacheBytes, c, repo, chart, art);
    assert VouchedEntry(p, NewEntry(repo, chart, art));
  }

  /** A lookup by version keeps the invariant and returns an artifact meeting the claim. */
  lemma VersionStepSound(k: Setup, w: World, p: Claim, s: State, repo: string, chart: string, version: string)
    requires Establishes(k, w, p) && Vouched(k, p, s.cache) && NameOk(repo, chart)
    ensures var (s', r) := VersionStep(k, w, s, repo, chart, version);
      && Vouched(k, p, s'.cache)
      && (r.Ok? ==> p(repo, chart, r.value))
  {
    var key := VersionKey(repo, chart, version);
    GetVouched(k, p, s.cache, key);
    if key in s.cache.byID {
      VersionHit(k, p, s.cache, repo, chart, version);
    } else if Uncached(k, w, s.now, repo, chart, version).Ok? {
      AddVouched(k, p, s.cache, repo, chart, Uncached(k, w, s.now, repo, chart, version).value);
    }
  }

  lemma {:induction false} ScanStepSound(k: Setup, w: World, p: Claim, s: State, repo: string, chart: string,
                                         wanted: Artifact -> bool, candidates: seq<IndexEntry>)
    requires Establishes(k, w, p) && Vouched(k, p, s.cache) && NameOk(repo, chart)
    ensures var (s', r) := ScanStep(k, w, s, repo, chart, wanted, candidates);
      && Vouched(k, p, s'.cache)
      && (r.Ok? && r.value.Some? ==> p(repo, chart, r.value.value) && wanted(r.value.value))
    decreases candidates
  {
    if candidates != [] {
      VersionStepSound(k, w, p, s, repo, chart, candidates[0].version);
      var s' := VersionStep(k, w, s, repo, chart, candidates[0].version).0;
      ScanStepSound(k, w, p, s', repo, chart, wanted, candidates[1..]);
    }
  }

  lemma ScanChartSound(k: Setup, w: World, p: Claim, s: State, repo: string, chart: string, wanted: Artifact -> bool)
    requires Establishes(k, w, p) && Vouched(k, p, s.cache) && NameOk(repo, chart)
    ensures var (s', r) := ScanChartStep(k, w, s, repo, chart, wanted);
      && Vouched(k, p, s'.cache)
      && (r.Ok? && r.value.Some? ==> p(repo, chart, r.value.value) && wanted(r.value.value))
  {
    hide Establishes, Vouched, ScanStep, Candidates;
    var s' := s.(now := s.now + 1);
    match Entries(w(s.now), repo, chart) {
      case Err(_) =>
      case Ok(entries) => ScanStepSound(k, w, p, s', repo, chart, wanted, Candidates(k, entries));
    }
  }

  /** Looking a digest up keeps the invariant, and a hit meets the claim. */
  lemma GetDigestSound(k: Setup, p: Claim, c: Cache, repo: string, chart: string, digest: string)
    requires Vouched(k, p, c) && NameOk(repo, chart)
    ensures var (c', hit) := Get(c, DigestKey(repo, chart, digest));
      Vouched(k, p, c') && (hit.Some? ==> p(repo, chart, hit.value))
  {
    GetVouched(k, p, c, DigestKey(repo, chart, digest));
    if DigestKey(repo, chart, digest) in c.byID {
      DigestHit(k, p, c, repo, chart, digest);
    }
  }

  lemma ManifestScanSound(k: Setup, w: World, p: Claim, s: State, repo: string, chart: string, digest: string)
    requires Establishes(k, w, p) && Vouched(k, p, s.cache) && NameOk(repo, chart)
    ensures var (s', r) := ManifestScanStep(k, w, s, repo, chart, digest);
      && Vouched(k, p, s'.cache)
      && (r.Ok? ==> p(repo, chart, r.value) && r.value.manifestDigest == digest)
  {
    ScanChartSound(k, w, p, s, repo, chart, HasManifest(digest));
    var found := ScanChartStep(k, w, s, repo, chart, HasManifest(digest)).1;
    assert found.Ok? && found.value.Some? ==> p(repo, chart, found.value.value);
  }

  lemma ManifestStepSound(k: Setup, w: World, p: Claim, s: State, repo: string, chart: string, digest: string)
    requires Establishes(k, w, p) && Vouched(k, p, s.cache) && NameOk(repo, chart)
    ensures var (s', r) := ManifestStep(k, w, s, repo, chart, digest);
      && Vouched(k, p, s'.cache)
      && (r.Ok? ==> p(repo, chart, r.value) && r.value.manifestDigest == digest)
  {
    GetDigestSound(k, p, s.cache, repo, chart, digest);
    var (cache, hit) := Get(s.cache, DigestKey(repo, chart, digest));
    if hit.None? || hit.value.manifestDigest != digest {
      ManifestScanSound(k, w, p, s.(cache := cache), repo, chart, digest);
    }
  }

  /** The bytes come out of an artifact meeting the claim, under the digest asked for. */
  ghost predicate BlobOf(p: Claim, repo: string, chart: string, digest: string, data: Bytes) {
    exists art: Artifact :: p(repo, chart, art) && Holds(art, digest, data)
  }

  predicate Holds(art: Artifact, digest: string, data: Bytes) {
    art.Blob(digest).Some? && art.Blob(digest).value.0 == data
  }

  lemma BlobOfArtifact(p: Claim, repo: string, chart: string, digest: string, art: Artifact)
    requires p(repo, chart, art) && art.Blob(digest).Some?
    ensures BlobOf(p, repo, chart, digest, art.Blob(digest).value.0)
  {
  }

  lemma BlobScanSound(k: Setup, w: World, p: Claim, s: State, repo: string, chart: string, digest: string)
    requires Establishes(k, w, p) && Vouched(k, p, s.cache) && NameOk(repo, chart)
    ensures var (s', r) := BlobScanStep(k, w, s, repo, chart, digest);
      && Vouched(k, p, s'.cache)
      && (r.Ok? ==> BlobOf(p, repo, chart, digest, r.value))
  {
    ScanChartSound(k, w, p, s, repo, chart, HasBlob(digest));
    var found := ScanChartStep(k, w, s, repo, chart, HasBlob(digest)).1;
    if found.Ok? && found.value.Some? {
      BlobOfArtifact(p, repo, chart, digest, found.value.value);
    }
  }

  /** The part of a blob lookup after a cache miss. */
  lemma BlobMissSound(k: Setup, w: World, p: Claim, s: State, repo: string, chart: string, digest: string)
    requires Establishes(k, w, p) && Vouched(k, p, s.cache) && NameOk(repo, chart)
    ensures var (s', r) := BlobMissStep(k, w, s, repo, chart, digest);
      && Vouched(k, p, s'.cache)
      && (r.Ok? ==> BlobOf(p, repo, chart, digest, r.value))
  {
    var s1 := s.(now := s.now + 1);
    if Entries(w(s.now), repo, chart).Ok? {
      var layer := FindLayerDigest(Entries(w(s.now), repo, chart).value, digest);
      if layer.None? {
        BlobScanSound(k, w, p, s1, repo, chart, digest);
      } else {
        VersionStepSound(k, w, p, s1, repo, chart, layer.value.version);
        var (s2, r) := VersionStep(k, w, s1, repo, chart, layer.value.version);
        if r.Ok? && r.value.Blob(digest).Some? {
          BlobOfArtifact(p, repo, chart, digest, r.value);
        } else if r.Ok? {
          BlobScanSound(k, w, p, s2, repo, chart, digest);
        }
      }
    }
  }

  lemma BlobStepSound(k: Setup, w: World, p: Claim, s: State, repo: string, chart: string, digest: string)
    requires Establishes(k, w, p) && Vouched(k, p, s.cache) && NameOk(repo, chart)
    ensures var (s', r) := BlobStep(k, w, s, repo, chart, digest);
      && Vouched(k, p, s'.cache)
      && (r.Ok? ==> BlobOf(p, repo, chart, digest, r.value))
  {
    GetDigestSound(k, p, s.cache, repo, chart, digest);
    var (cache, hit) := Get(s.cache, DigestKey(repo, chart, digest));
    if hit.Some? && hit.value.Blob(digest).Some? {
      BlobOfArtifact(p, repo, chart, digest, hit.value);
    } else {
      BlobMissSound(k, w, p, s.(cache := cache), repo, chart, digest);
    }
  }

  lemma SignatureBlobSound(k: Setup, w: World, p: Claim, s: State, repo: string, chart: string, digest: string)
    requires Establishes(k, w, p) && Vouched(k, p, s.cache) && NameOk(repo, chart)
    ensures var (s', r) := SignatureBlobStep(k, w, s, repo, chart, digest);
      && Vouched(k, p, s'.cache)
      && (r.Ok? ==> SignatureBlobOf(k, p, repo, chart, digest, r.value))
  {
    if k.opts.signer.Some? {
      var signer := k.opts.signer.value;
      var wanted := SignatureHasBlob(k, signer, repo, chart, digest);
      ScanChartSound(k, w, p, s, repo, chart, wanted);
      var found := ScanChartStep(k, w, s, repo, chart, wanted).1;
      if found.Ok? && found.value.Some? {
        SignatureBlobOfTarget(k, p, repo, chart, digest, found.value.value);
      }
    }
  }

  /** The bytes come out of the signature of a manifest this replica can derive. */
  ghost predicate SignatureBlobOf(k: Setup, p: Claim, repo: string, chart: string, digest: string, data: Bytes) {
    exists art: Artifact :: p(repo, chart, art) && SignatureHolds(k, repo, chart, art.manifestDigest, digest, data)
  }

  predicate SignatureHolds(k: Setup, repo: string, chart: string, target: string, digest: string, data: Bytes) {
    && k.opts.signer.Some?
    && var blob := SignatureFor(k.codec, k.opts.signer.value, repo + "/" + chart, target).Blob(digest);
    blob.Some? && blob.value.0 == data
  }

  lemma SignatureBlobOfTarget(k: Setup, p: Claim, repo: string, chart: string, digest: string, art: Artifact)
    requires k.opts.signer.Some? && p(repo, chart, art)
    requires SignatureFor(k.codec, k.opts.signer.value, repo + "/" + chart, art.manifestDigest).Blob(digest).Some?
    ensures SignatureBlobOf(k, p, repo, chart, digest,
      SignatureFor(k.codec, k.opts.signer.value, repo + "/" + chart, art.manifestDigest).Blob(digest).value.0)
  {
  }

  /** A served blob comes out of an artifact meeting the claim, or out of the signature of one. */
  lemma ServeBlobSound(k: Setup, w: World, p: Claim, s: State, repo: string, chart: string, digest: string)
    requires Establishes(k, w, p) && Vouched(k, p, s.cache) && NameOk(repo, chart)
    ensures var (s', r) := ServeBlobStep(k, w, s, repo, chart, digest);
      && Vouched(k, p, s'.cache)
      && (r.Ok? ==> BlobOf(p, repo, chart, digest, r.value) || SignatureBlobOf(k, p, repo, chart, digest, r.value))
  {
    hide BlobStep, SignatureBlobStep, BlobOf, SignatureBlobOf, Vouched;
    BlobStepSound(k, w, p, s, repo, chart, digest);
    SignatureBlobSound(k, w, p, BlobStep(k, w, s, repo, chart, digest).0, repo, chart, digest);
  }

  lemma AfterSound(k: Setup, w: World, p: Claim, s: State, q: Request)
    requires Establishes(k, w, p) && Vouched(k, p, s.cache) && NameOk(q.repo, q.chart)
    ensures Vouched(k, p, After(k, w, s, q).cache)
  {
    hide VersionStep, ManifestStep, ServeBlobStep, Vouched;
    match q
    case VersionRequest(repo, chart, version) => VersionStepSound(k, w, p, s, repo, chart, version);
    case ManifestRequest(repo, chart, digest) => ManifestStepSound(k, w, p, s, repo, chart, digest);
    case BlobRequest(repo, chart, digest) => ServeBlobSound(k, w, p, s, repo, chart, digest);
    case SignatureRequest(repo, chart, target) => ManifestStepSound(k, w, p, s, repo, chart, target);
    case TagsRequest(_, _) =>
  }

  lemma {:induction false} RunSound(k: Setup, w: World, p: Claim, s: State, requests: seq<Request>)
    requires Establishes(k, w, p) && Vouched(k, p, s.cache) && Dispatched(requests)
    ensures Vouched(k, p, Run(k, w, s, requests).cache)
    decreases requests
  {
    hide After, Vouched;
    if requests != [] {
      assert requests[0] in requests;
      AfterSound(k, w, p, s, requests[0]);
      RunSound(k, w, p, After(k, w, s, requests[0]), requests[1..]);
    }
  }

  /** In every reachable state, every cached artifact meets a claim that all builds meet. */
  lemma ReachableVouched(k: Setup, w: World, p: Claim, s: State)
    requires Establishes(k, w, p) && Reachable(k, w, s)
    ensures Vouched(k, p, s.cache)
  {
    var requests :| Dispatched(requests) && s == Run(k, w, COLD, requests);
    assert Vouched(k, p, EMPTY);
    RunSound(k, w, p, COLD, requests);
  }

  // Content addressing: upstream may change arbitrarily between any two exchanges.

  ghost function IsSealed(k: Setup): Claim {
    (repo: string, chart: string, art: Artifact) => Sealed(k.codec, art)
  }

  lemma EveryBuildSealed(k: Setup, w: World)
    ensures Establishes(k, w, IsSealed(k))
  {
  }

  /** Any success of a digest lookup, from any reachable state, returns bytes with the digest asked for. */
  lemma ContentAddressed(k: Setup, w: World, s: State, repo: string, chart: string, digest: string)
    requires Reachable(k, w, s) && NameOk(repo, chart)
    ensures var r := ManifestStep(k, w, s, repo, chart, digest).1;
      r.Ok? ==> r.value.manifestDigest == digest && Digest(k.codec, r.value.manifest) == digest
    ensures var r := BlobStep(k, w, s, repo, chart, digest).1;
      r.Ok? ==> Digest(k.codec, r.value) == digest
    ensures var r := ServeBlobStep(k, w, s, repo, chart, digest).1;
      r.Ok? ==> Digest(k.codec, r.value) == digest
  {
    hide ManifestStep, BlobStep, ServeBlobStep, Vouched;
    var p := IsSealed(k);
    EveryBuildSealed(k, w);
    ReachableVouched(k, w, p, s);
    ManifestStepSound(k, w, p, s, repo, chart, digest);
    BlobStepSound(k, w, p, s, repo, chart, digest);
    ServeBlobSound(k, w, p, s, repo, chart, digest);
    forall data | BlobOf(p, repo, chart, digest, data) || SignatureBlobOf(k, p, repo, chart, digest, data)
      ensures Digest(k.codec, data) == digest
    {
      HeldHasDigest(k, repo, chart, digest, data);
    }
  }

  /** A signature is given exactly if there is a signer and the same replica would answer a manifest request for its
      target; and it is then the signer's for the chart's name and that target. */
  lemma SignatureGivenIff(k: Setup, w: World, s: State, repo: string, chart: string, target: string)
    ensures var r := SignatureStep(k, w, s, repo, chart, target).1;
      && (r.Ok? <==> k.opts.signer.Some? && ManifestStep(k, w, s, repo, chart, target).1.Ok?)
      && (r.Ok? ==> r.value == SignatureFor(k.codec, k.opts.signer.value, repo + "/" + chart, target))
      && (k.opts.signer.Some? && r.Err? ==> ManifestStep(k, w, s, repo, chart, target).1 == Err(r.error))
      && (k.opts.signer.None? ==> r == Err(VersionUnknown))
  {
    hide ManifestStep, SignatureFor;
  }

  /** Nothing is signed but manifests of artifacts that builds vouch for. */
  lemma SignedIsVouched(k: Setup, w: World, p: Claim, s: State, repo: string, chart: string, target: string)
    requires Establishes(k, w, p) && Reachable(k, w, s) && NameOk(repo, chart)
    requires SignatureStep(k, w, s, repo, chart, target).1.Ok?
    ensures exists art: Artifact :: p(repo, chart, art) && art.manifestDigest == target
  {
    hide ManifestStep, Vouched, Establishes, Reachable, NameOk;
    ReachableVouched(k, w, p, s);
    ManifestStepSound(k, w, p, s, repo, chart, target);
    SignatureGivenIff(k, w, s, repo, chart, target);
    var art := ManifestStep(k, w, s, repo, chart, target).1.value;
    assert p(repo, chart, art) && art.manifestDigest == target;
  }

  lemma HeldHasDigest(k: Setup, repo: string, chart: string, digest: string, data: Bytes)
    requires BlobOf(IsSealed(k), repo, chart, digest, data)
        || SignatureBlobOf(k, IsSealed(k), repo, chart, digest, data)
    ensures Digest(k.codec, data) == digest
  {
  }

  /** A version lookup returns a sealed artifact, and, from the cache, one of exactly the version asked for. */
  lemma VersionSealed(k: Setup, w: World, s: State, repo: string, chart: string, version: string)
    requires Reachable(k, w, s) && NameOk(repo, chart)
    ensures var r := VersionStep(k, w, s, repo, chart, version).1;
      && (r.Ok? ==> Sealed(k.codec, r.value))
      && (VersionKey(repo, chart, version) in s.cache.byID ==> r.Ok? && r.value.version == version)
  {
    EveryBuildSealed(k, w);
    ReachableVouched(k, w, IsSealed(k), s);
    VersionStepSound(k, w, IsSealed(k), s, repo, chart, version);
    if VersionKey(repo, chart, version) in s.cache.byID {
      VersionHit(k, IsSealed(k), s.cache, repo, chart, version);
    }
  }
}
