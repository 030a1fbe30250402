/** How many chart builds one request can start, from any state and however upstream changes. */
module Work {
  import opened Oci
  import opened ArtifactCaches
  import opened Upstreams
  import opened Resolvers
  import opened Sessions

  /** How many candidates a scan would visit at this moment: min(number of entries, ScanLimit). */
  function Width(k: Setup, site: Site, repo: string, chart: string): nat {
    match Entries(site, repo, chart)
    case Err(_) => 0
    case Ok(entries) => |Candidates(k, entries)|
  }

  /** No scan of this chart is ever wider than m. */
  ghost predicate NeverWider(k: Setup, w: World, repo: string, chart: string, m: nat) {
    forall t: nat :: Width(k, w(t), repo, chart) <= m
  }

  lemma VersionWork(k: Setup, w: World, s: State, repo: string, chart: string, version: string)
    ensures s.builds <= VersionStep(k, w, s, repo, chart, version).0.builds <= s.builds + 1
  {
  }

  /** A lookup by version starts a build, and makes the three exchanges of one, exactly if the version is not cached and
      the index lists it; if only the latter fails it makes the one exchange that says so, and from the cache none. */
  lemma VersionWorkExactly(k: Setup, w: World, s: State, repo: string, chart: string, version: string)
    ensures var s' := VersionStep(k, w, s, repo, chart, version).0;
      var cached := VersionKey(repo, chart, version) in s.cache.byID;
      var entries := Entries(w(s.now), repo, chart);
      var listed := entries.Ok? && exists i :: 0 <= i < |entries.value| && entries.value[i].version == version;
      && s'.builds - s.builds == (if !cached && listed then 1 else 0)
      && s'.now - s.now == if cached then 0 else if listed then 3 else 1
  {
    hide Entries, Derive, Add, VersionKey, MoveToFront;
    var entries := Entries(w(s.now), repo, chart);
    if entries.Ok? {
      var found := FindVersion(entries.value, version);
      assert found.None? ==> forall i | 0 <= i < |entries.value| :: entries.value[i] in entries.value;
    }
  }

  lemma {:induction false} ScanWork(k: Setup, w: World, s: State, repo: string, chart: string,
                                    wanted: Artifact -> bool, candidates: seq<IndexEntry>)
    ensures s.builds <= ScanStep(k, w, s, repo, chart, wanted, candidates).0.builds <= s.builds + |candidates|
    decreases candidates
  {
    hide VersionStep;
    if candidates != [] {
      VersionWork(k, w, s, repo, chart, candidates[0].version);
      ScanWork(k, w, VersionStep(k, w, s, repo, chart, candidates[0].version).0, repo, chart, wanted, candidates[1..]);
    }
  }

  lemma WidthOf(k: Setup, site: Site, repo: string, chart: string)
    ensures Entries(site, repo, chart).Ok? ==>
      |Candidates(k, Entries(site, repo, chart).value)| == Width(k, site, repo, chart)
  {
  }

  lemma ScanChartWork(k: Setup, w: World, s: State, repo: string, chart: string, wanted: Artifact -> bool, m: nat)
    requires NeverWider(k, w, repo, chart, m)
    ensures s.builds <= ScanChartStep(k, w, s, repo, chart, wanted).0.builds <= s.builds + m
  {
    hide ScanStep, Candidates;
    WidthOf(k, w(s.now), repo, chart);
    assert Width(k, w(s.now), repo, chart) <= m;
    match Entries(w(s.now), repo, chart)
    case Err(_) =>
    case Ok(entries) => ScanWork(k, w, s.(now := s.now + 1), repo, chart, wanted, Candidates(k, entries));
  }

  lemma ManifestWork(k: Setup, w: World, s: State, repo: string, chart: string, digest: string, m: nat)
    requires NeverWider(k, w, repo, chart, m)
    ensures s.builds <= ManifestStep(k, w, s, repo, chart, digest).0.builds <= s.builds + m
  {
    hide ScanChartStep, NeverWider;
    ScanChartWork(k, w, s.(cache := Get(s.cache, DigestKey(repo, chart, digest)).0), repo, chart, HasManifest(digest),
                  m);
  }

  lemma BlobMissWork(k: Setup, w: World, s: State, repo: string, chart: string, digest: string, m: nat)
    requires NeverWider(k, w, repo, chart, m)
    ensures s.builds <= BlobMissStep(k, w, s, repo, chart, digest).0.builds <= s.builds + m + 1
  {
    hide ScanChartStep, NeverWider, VersionStep;
    var s1 := s.(now := s.now + 1);
    ScanChartWork(k, w, s1, repo, chart, HasBlob(digest), m);
    if Entries(w(s.now), repo, chart).Ok? {
      var layer := FindLayerDigest(Entries(w(s.now), repo, chart).value, digest);
      if layer.Some? {
        VersionWork(k, w, s1, repo, chart, layer.value.version);
        ScanChartWork(k, w, VersionStep(k, w, s1, repo, chart, layer.value.version).0, repo, chart, HasBlob(digest), m);
      }
    }
  }

  lemma ServeBlobWork(k: Setup, w: World, s: State, repo: string, chart: string, digest: string, m: nat)
    requires NeverWider(k, w, repo, chart, m)
    ensures s.builds <= ServeBlobStep(k, w, s, repo, chart, digest).0.builds
         <= s.builds + m + 1 + (if k.opts.signer.Some? then m else 0)
  {
    hide ScanChartStep, NeverWider, BlobMissStep;
    BlobMissWork(k, w, s.(cache := Get(s.cache, DigestKey(repo, chart, digest)).0), repo, chart, digest, m);
    if k.opts.signer.Some? {
      ScanChartWork(k, w, BlobStep(k, w, s, repo, chart, digest).0, repo, chart,
        SignatureHasBlob(k, k.opts.signer.value, repo, chart, digest), m);
    }
  }

  /** Builds started by one request, for m = min(number of entries, ScanLimit): one by version, m by manifest
      or signature target, m + 1 by blob without signing and 2m + 1 with. */
  lemma WorkBounded(k: Setup, w: World, s: State, q: Request, m: nat)
    requires NeverWider(k, w, q.repo, q.chart, m)
    ensures var started := After(k, w, s, q).builds - s.builds;
      match q
      case VersionRequest(_, _, _) => 0 <= started <= 1
      case ManifestRequest(_, _, _) => 0 <= started <= m
      case BlobRequest(_, _, _) => 0 <= started <= (if k.opts.signer.Some? then 2 * m + 1 else m + 1)
      case SignatureRequest(_, _, _) => 0 <= started <= m
      case TagsRequest(_, _) => started == 0
  {
    hide VersionStep, ManifestStep, ServeBlobStep, NeverWider;
    match q
    case VersionRequest(repo, chart, version) => VersionWork(k, w, s, repo, chart, version);
    case ManifestRequest(repo, chart, digest) => ManifestWork(k, w, s, repo, chart, digest, m);
    case BlobRequest(repo, chart, digest) => ServeBlobWork(k, w, s, repo, chart, digest, m);
    case SignatureRequest(repo, chart, target) => ManifestWork(k, w, s, repo, chart, target, m);
    case TagsRequest(_, _) =>
  }

  /** ScanLimit itself always bounds the width. */
  lemma ScanLimitBoundsWidth(k: Setup, w: World, repo: string, chart: string)
    ensures NeverWider(k, w, repo, chart, k.opts.scanLimit)
  {
  }
}
