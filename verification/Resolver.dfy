/** Lookups by version, manifest digest, blob digest and signature blob (resolve.go). */
module Resolvers {
  import opened Wrappers
  import opened Oci
  import opened ArtifactCaches
  import opened Upstreams
  import opened Rewriting
  import opened Signing

  datatype Options = Options(
    provenance: bool, scanLimit: nat, cacheBytes: int, maxChartBytes: nat,
    signer: Option<Signer>, rewriteHost: string)

  /** Everything about a replica that never changes: its options and the pure functions it calls. */
  datatype Setup = Setup(codec: Codec, tools: Tools, resolve: Resolution, opts: Options)

  /** What upstream is at the moment of each successive exchange: it may change arbitrarily in between. */
  type World = nat -> Site

  /** The cache, the number of upstream exchanges so far, and how many chart builds were started. */
  datatype State = State(cache: Cache, now: nat, builds: nat)

  const COLD := State(EMPTY, 0, 0)

  // What the lookups are made of.

  function Entries(site: Site, repo: string, chart: string): Result<seq<IndexEntry>, Error> {
    var idx :- site.index(repo);
    if Versions(idx, chart) == [] then Err(ChartUnknown) else Ok(Versions(idx, chart))
  }

  /** build: download, verify, perhaps rewrite, perhaps fetch provenance, derive. */
  function Derive(k: Setup, chartSite: Site, provSite: Site, repo: string, entry: IndexEntry)
    : (r: Result<Artifact, Error>)
    ensures r.Ok? ==> Sealed(k.codec, r.value)
  {
    var raw :- ChartBytes(k.codec, k.resolve, chartSite, k.opts.maxChartBytes, repo, entry);
    var chart :-
      if k.opts.rewriteHost == "" then Ok(raw) else RewriteDependencies(k.codec, k.tools, raw, k.opts.rewriteHost);
    var prov :-
      if k.opts.provenance then ProvBytes(k.resolve, provSite, k.opts.maxChartBytes, repo, entry) else Ok(None);
    Build(k.codec, chart, prov)
  }

  /** The failures that leave a scan to go on: they rule the candidate out without saying anything of the others. */
  predicate Skippable(e: Error) {
    e == DigestMismatch || e == NotFound
  }

  /** The entries a scan visits: the first ScanLimit, or all if they are fewer. */
  function Candidates(k: Setup, entries: seq<IndexEntry>): (r: seq<IndexEntry>)
    ensures |r| == if |entries| < k.opts.scanLimit then |entries| else k.opts.scanLimit
    ensures forall i | 0 <= i < |r| :: r[i] == entries[i]
  {
    if |entries| <= k.opts.scanLimit then entries else entries[..k.opts.scanLimit]
  }

  function HasManifest(digest: string): Artifact -> bool {
    (a: Artifact) => a.manifestDigest == digest
  }

  function HasBlob(digest: string): Artifact -> bool {
    (a: Artifact) => a.Blob(digest).Some?
  }

  function SignatureHasBlob(k: Setup, signer: Signer, repo: string, chart: string, digest: string): Artifact -> bool {
    (a: Artifact) => SignatureFor(k.codec, signer, repo + "/" + chart, a.manifestDigest).Blob(digest).Some?
  }

  // Each lookup as a step on the state.

  /** What a flight does on a miss, starting at moment t: read the index, find the version, build it. */
  function Uncached(k: Setup, w: World, t: nat, repo: string, chart: string, version: string): Result<Artifact, Error> {
    var entries :- Entries(w(t), repo, chart);
    match FindVersion(entries, version)
    case None => Err(VersionUnknown)
    case Some(entry) => Derive(k, w(t + 1), w(t + 2), repo, entry)
  }

  /** Whether that gets as far as starting a build. */
  predicate ReachesBuild(w: World, t: nat, repo: string, chart: string, version: string) {
    Entries(w(t), repo, chart).Ok? && FindVersion(Entries(w(t), repo, chart).value, version).Some?
  }

  /** The body a flight runs: recheck, look the version up, build, add. */
  ghost function FlightStep(k: Setup, w: World, s: State, repo: string, chart: string, version: string)
    : (State, Result<Artifact, Error>)
  {
    var (cache, hit) := Get(s.cache, VersionKey(repo, chart, version));
    if hit.Some? then (s.(cache := cache), Ok(hit.value))
    else
      var r := Uncached(k, w, s.now, repo, chart, version);
      var s' := if ReachesBuild(w, s.now, repo, chart, version)
                then s.(now := s.now + 3, builds := s.builds + 1) else s.(now := s.now + 1);
      match r
      case Err(e) => (s', Err(e))
      case Ok(art) => (s'.(cache := Add(k.opts.cacheBytes, s.cache, repo, chart, art)), Ok(art))
  }

  ghost function VersionStep(k: Setup, w: World, s: State, repo: string, chart: string, version: string)
    : (State, Result<Artifact, Error>)
  {
    var (cache, hit) := Get(s.cache, VersionKey(repo, chart, version));
    if hit.Some? then (s.(cache := cache), Ok(hit.value))
    else FlightStep(k, w, s, repo, chart, version)
  }

  ghost function ScanStep(k: Setup, w: World, s: State, repo: string, chart: string, wanted: Artifact -> bool,
                          candidates: seq<IndexEntry>): (State, Result<Option<Artifact>, Error>)
    decreases candidates
  {
    if candidates == [] then (s, Ok(None))
    else
      var (s', r) := VersionStep(k, w, s, repo, chart, candidates[0].version);
      match r
      case Err(e) => if Skippable(e) then ScanStep(k, w, s', repo, chart, wanted, candidates[1..]) else (s', Err(e))
      case Ok(art) =>
        if wanted(art) then (s', Ok(Some(art))) else ScanStep(k, w, s', repo, chart, wanted, candidates[1..])
  }

  lemma ScanStepFrom(k: Setup, w: World, s: State, repo: string, chart: string, wanted: Artifact -> bool,
                     candidates: seq<IndexEntry>, i: nat)
    requires i < |candidates|
    ensures var (s', r) := VersionStep(k, w, s, repo, chart, candidates[i].version);
      ScanStep(k, w, s, repo, chart, wanted, candidates[i..])
      == if r.Err? && !Skippable(r.error) then (s', Err(r.error))
         else if r.Ok? && wanted(r.value) then (s', Ok(Some(r.value)))
         else ScanStep(k, w, s', repo, chart, wanted, candidates[i + 1..])
  {
    hide VersionStep;
    var rest := candidates[i..];
    assert rest != [] && rest[0] == candidates[i] && rest[1..] == candidates[i + 1..];
    var (s', r) := VersionStep(k, w, s, repo, chart, rest[0].version);
    assert r.Err? ==> r == Err(r.error);
  }

  lemma ScanStepEnds(k: Setup, w: World, s: State, repo: string, chart: string, wanted: Artifact -> bool,
                     candidates: seq<IndexEntry>)
    ensures ScanStep(k, w, s, repo, chart, wanted, candidates[|candidates|..]) == (s, Ok(None))
    ensures candidates[0..] == candidates
  {
  }

  ghost function ScanChartStep(k: Setup, w: World, s: State, repo: string, chart: string, wanted: Artifact -> bool)
    : (State, Result<Option<Artifact>, Error>)
  {
    var s' := s.(now := s.now + 1);
    match Entries(w(s.now), repo, chart)
    case Err(e) => (s', Err(e))
    case Ok(entries) => ScanStep(k, w, s', repo, chart, wanted, Candidates(k, entries))
  }

  ghost function ManifestScanStep(k: Setup, w: World, s: State, repo: string, chart: string, digest: string)
    : (State, Result<Artifact, Error>)
  {
    var (s', r) := ScanChartStep(k, w, s, repo, chart, HasManifest(digest));
    match r
    case Err(e) => (s', Err(e))
    case Ok(None) => (s', Err(VersionUnknown))
    case Ok(Some(art)) => (s', Ok(art))
  }

  ghost function ManifestStep(k: Setup, w: World, s: State, repo: string, chart: string, digest: string)
    : (State, Result<Artifact, Error>)
  {
    var (cache, hit) := Get(s.cache, DigestKey(repo, chart, digest));
    var s' := s.(cache := cache);
    if hit.Some? && hit.value.manifestDigest == digest then (s', Ok(hit.value))
    else ManifestScanStep(k, w, s', repo, chart, digest)
  }

  ghost function BlobScanStep(k: Setup, w: World, s: State, repo: string, chart: string, digest: string)
    : (State, Result<Bytes, Error>)
  {
    var (s', r) := ScanChartStep(k, w, s, repo, chart, HasBlob(digest));
    match r
    case Err(e) => (s', Err(e))
    case Ok(None) => (s', Err(BlobUnknown))
    case Ok(Some(art)) => (s', if art.Blob(digest).Some? then Ok(art.Blob(digest).value.0) else Err(BlobUnknown))
  }

  /** A blob lookup past the cache: the index's layer digests first, then the scan. */
  ghost function BlobMissStep(k: Setup, w: World, s: State, repo: string, chart: string, digest: string)
    : (State, Result<Bytes, Error>)
  {
    var s1 := s.(now := s.now + 1);
    match Entries(w(s.now), repo, chart)
    case Err(e) => (s1, Err(e))
    case Ok(entries) =>
      match FindLayerDigest(entries, digest)
      case None => BlobScanStep(k, w, s1, repo, chart, digest)
      case Some(entry) =>
        var (s2, r) := VersionStep(k, w, s1, repo, chart, entry.version);
        match r
        case Err(e) => (s2, Err(e))
        case Ok(art) =>
          if art.Blob(digest).Some? then (s2, Ok(art.Blob(digest).value.0))
          else BlobScanStep(k, w, s2, repo, chart, digest)
  }

  ghost function BlobStep(k: Setup, w: World, s: State, repo: string, chart: string, digest: string)
    : (State, Result<Bytes, Error>)
  {
    var (cache, hit) := Get(s.cache, DigestKey(repo, chart, digest));
    var s' := s.(cache := cache);
    if hit.Some? && hit.value.Blob(digest).Some? then (s', Ok(hit.value.Blob(digest).value.0))
    else BlobMissStep(k, w, s', repo, chart, digest)
  }

  ghost function SignatureStep(k: Setup, w: World, s: State, repo: string, chart: string, target: string)
    : (State, Result<Signature, Error>)
  {
    if k.opts.signer.None? then (s, Err(VersionUnknown))
    else
      var (s', r) := ManifestStep(k, w, s, repo, chart, target);
      match r
      case Err(e) => (s', Err(e))
      case Ok(_) => (s', Ok(SignatureFor(k.codec, k.opts.signer.value, repo + "/" + chart, target)))
  }

  ghost function SignatureBlobStep(k: Setup, w: World, s: State, repo: string, chart: string, digest: string)
    : (State, Result<Bytes, Error>)
  {
    if k.opts.signer.None? then (s, Err(BlobUnknown))
    else
      var signer := k.opts.signer.value;
      var (s', r) := ScanChartStep(k, w, s, repo, chart, SignatureHasBlob(k, signer, repo, chart, digest));
      match r
      case Err(e) => (s', Err(e))
      case Ok(None) => (s', Err(BlobUnknown))
      case Ok(Some(art)) =>
        var blob := SignatureFor(k.codec, signer, repo + "/" + chart, art.manifestDigest).Blob(digest);
        (s', if blob.Some? then Ok(blob.value.0) else Err(BlobUnknown))
  }

  /** handleBlob: a chart blob, or failing that a blob of some signature. */
  ghost function ServeBlobStep(k: Setup, w: World, s: State, repo: string, chart: string, digest: string)
    : (State, Result<Bytes, Error>)
  {
    var (s', r) := BlobStep(k, w, s, repo, chart, digest);
    if r == Err(BlobUnknown) && k.opts.signer.Some? then SignatureBlobStep(k, w, s', repo, chart, digest)
    else (s', r)
  }

  /** One replica's resolver: its cache and its exchanges with upstream. */
  class Resolver {
    const k: Setup
    const world: World
    const cache: ArtifactCache
    var now: nat
    var builds: nat

    constructor (k: Setup, world: World)
      ensures this.k == k && this.world == world && fresh(cache)
      ensures Valid() && Model() == COLD
    {
      this.k, this.world := k, world;
      cache := new ArtifactCache(k.opts.cacheBytes);
      now, builds := 0, 0;
    }

    ghost predicate Valid() {
      cache.max == k.opts.cacheBytes
    }

    ghost function Model(): State
      reads this, cache
    {
      State(cache.Model(), now, builds)
    }

    method ChartEntries(repo: string, chart: string) returns (r: Result<seq<IndexEntry>, Error>)
      modifies this
      ensures r == Entries(world(old(now)), repo, chart)
      ensures now == old(now) + 1 && builds == old(builds)
    {
      r := Entries(world(now), repo, chart);
      now := now + 1;
    }

    method BuildEntry(repo: string, entry: IndexEntry) returns (r: Result<Artifact, Error>)
      modifies this
      ensures r == Derive(k, world(old(now)), world(old(now) + 1), repo, entry)
      ensures now == old(now) + 2 && builds == old(builds) + 1
    {
      r := Derive(k, world(now), world(now + 1), repo, entry);
      now := now + 2;
      builds := builds + 1;
    }

    /** Read the index, find the version and build it. */
    method BuildVersion(repo: string, chart: string, version: string) returns (r: Result<Artifact, Error>)
      modifies this
      ensures r == Uncached(k, world, old(now), repo, chart, version)
      ensures ReachesBuild(world, old(now), repo, chart, version) ==> now == old(now) + 3 && builds == old(builds) + 1
      ensures !ReachesBuild(world, old(now), repo, chart, version) ==> now == old(now) + 1 && builds == old(builds)
    {
      hide Entries, Derive, FindVersion;
      var entries := ChartEntries(repo, chart);
      if entries.Err? {
        return Err(entries.error);
      }
      var entry := FindVersion(entries.value, version);
      if entry.None? {
        return Err(VersionUnknown);
      }
      r := BuildEntry(repo, entry.value);
    }

    method Flight(repo: string, chart: string, version: string) returns (r: Result<Artifact, Error>)
      requires Valid()
      modifies this, cache
      ensures (Model(), r) == FlightStep(k, world, old(Model()), repo, chart, version)
    {
      hide Uncached, ReachesBuild, Add, VersionKey;
      var hit := cache.Lookup(VersionKey(repo, chart, version));
      if hit.Some? {
        return Ok(hit.value);
      }
      assert Model() == old(Model());
      ghost var s := Model();
      r := BuildVersion(repo, chart, version);
      assert cache.Model() == s.cache;
      assert r == Uncached(k, world, s.now, repo, chart, version);
      if r.Ok? {
        cache.Insert(repo, chart, r.value);
        assert cache.Model() == Add(k.opts.cacheBytes, s.cache, repo, chart, r.value);
      }
    }

    method ByVersion(repo: string, chart: string, version: string) returns (r: Result<Artifact, Error>)
      requires Valid()
      modifies this, cache
      ensures (Model(), r) == VersionStep(k, world, old(Model()), repo, chart, version)
    {
      var hit := cache.Lookup(VersionKey(repo, chart, version));
      if hit.Some? {
        return Ok(hit.value);
      }
      r := Flight(repo, chart, version);
    }

    method Scan(repo: string, chart: string, wanted: Artifact -> bool) returns (r: Result<Option<Artifact>, Error>)
      requires Valid()
      modifies this, cache
      ensures (Model(), r) == ScanChartStep(k, world, old(Model()), repo, chart, wanted)
    {
      var entries := ChartEntries(repo, chart);
      if entries.Err? {
        return Err(entries.error);
      }
      r := ScanCandidates(repo, chart, wanted, Candidates(k, entries.value));
    }

    method ScanCandidates(repo: string, chart: string, wanted: Artifact -> bool, candidates: seq<IndexEntry>)
      returns (r: Result<Option<Artifact>, Error>)
      requires Valid()
      modifies this, cache
      ensures (Model(), r) == ScanStep(k, world, old(Model()), repo, chart, wanted, candidates)
    {
      hide VersionStep, ScanStep;
      ghost var start := Model();
      ScanStepEnds(k, world, start, repo, chart, wanted, candidates);
      for i := 0 to |candidates|
        invariant ScanStep(k, world, Model(), repo, chart, wanted, candidates[i..])
               == ScanStep(k, world, start, repo, chart, wanted, candidates)
      {
        ScanStepFrom(k, world, Model(), repo, chart, wanted, candidates, i);
        var version := ByVersion(repo, chart, candidates[i].version);
        if version.Err? {
          if !Skippable(version.error) {
            return Err(version.error);
          }
        } else if wanted(version.value) {
          return Ok(Some(version.value));
        }
      }
      ScanStepEnds(k, world, Model(), repo, chart, wanted, candidates);
      return Ok(None);
    }

    method ByManifestDigest(repo: string, chart: string, digest: string) returns (r: Result<Artifact, Error>)
      requires Valid()
      modifies this, cache
      ensures (Model(), r) == ManifestStep(k, world, old(Model()), repo, chart, digest)
    {
      var hit := cache.Lookup(DigestKey(repo, chart, digest));
      if hit.Some? && hit.value.manifestDigest == digest {
        return Ok(hit.value);
      }
      var found := Scan(repo, chart, HasManifest(digest));
      match found {
        case Err(e) => return Err(e);
        case Ok(None) => return Err(VersionUnknown);
        case Ok(Some(art)) => return Ok(art);
      }
    }

    method ScanForBlob(repo: string, chart: string, digest: string) returns (r: Result<Bytes, Error>)
      requires Valid()
      modifies this, cache
      ensures (Model(), r) == BlobScanStep(k, world, old(Model()), repo, chart, digest)
    {
      var found := Scan(repo, chart, HasBlob(digest));
      match found {
        case Err(e) => return Err(e);
        case Ok(None) => return Err(BlobUnknown);
        case Ok(Some(art)) =>
          var blob := art.Blob(digest);
          return if blob.Some? then Ok(blob.value.0) else Err(BlobUnknown);
      }
    }

    method Blob(repo: string, chart: string, digest: string) returns (r: Result<Bytes, Error>)
      requires Valid()
      modifies this, cache
      ensures (Model(), r) == BlobStep(k, world, old(Model()), repo, chart, digest)
    {
      var hit := cache.Lookup(DigestKey(repo, chart, digest));
      if hit.Some? {
        var blob := hit.value.Blob(digest);
        if blob.Some? {
          return Ok(blob.value.0);
        }
      }
      var entries := ChartEntries(repo, chart);
      if entries.Err? {
        return Err(entries.error);
      }
      var entry := FindLayerDigest(entries.value, digest);
      if entry.Some? {
        var version := ByVersion(repo, chart, entry.value.version);
        if version.Err? {
          return Err(version.error);
        }
        var blob := version.value.Blob(digest);
        if blob.Some? {
          return Ok(blob.value.0);
        }
      }
      r := ScanForBlob(repo, chart, digest);
    }

    method Signature(repo: string, chart: string, target: string) returns (r: Result<Signature, Error>)
      requires Valid()
      modifies this, cache
      ensures (Model(), r) == SignatureStep(k, world, old(Model()), repo, chart, target)
    {
      if k.opts.signer.None? {
        return Err(VersionUnknown);
      }
      var art := ByManifestDigest(repo, chart, target);
      if art.Err? {
        return Err(art.error);
      }
      return Ok(SignatureFor(k.codec, k.opts.signer.value, repo + "/" + chart, target));
    }

    method SignatureBlob(repo: string, chart: string, digest: string) returns (r: Result<Bytes, Error>)
      requires Valid()
      modifies this, cache
      ensures (Model(), r) == SignatureBlobStep(k, world, old(Model()), repo, chart, digest)
    {
      if k.opts.signer.None? {
        return Err(BlobUnknown);
      }
      var signer := k.opts.signer.value;
      var found := Scan(repo, chart, SignatureHasBlob(k, signer, repo, chart, digest));
      match found {
        case Err(e) => return Err(e);
        case Ok(None) => return Err(BlobUnknown);
        case Ok(Some(art)) =>
          var blob := SignatureFor(k.codec, signer, repo + "/" + chart, art.manifestDigest).Blob(digest);
          return if blob.Some? then Ok(blob.value.0) else Err(BlobUnknown);
      }
    }

    method ServeBlob(repo: string, chart: string, digest: string) returns (r: Result<Bytes, Error>)
      requires Valid()
      modifies this, cache
      ensures (Model(), r) == ServeBlobStep(k, world, old(Model()), repo, chart, digest)
    {
      r := Blob(repo, chart, digest);
      if r == Err(BlobUnknown) && k.opts.signer.Some? {
        r := SignatureBlob(repo, chart, digest);
      }
    }
  }
}
