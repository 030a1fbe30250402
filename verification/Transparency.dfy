/** While one chart's upstream stands still, caches and fast paths never change an answer about that chart,
    whatever other charts and repositories do. */
module Transparency {
  import opened Wrappers
  import opened Oci
  import opened ArtifactCaches
  import opened CacheInvariants
  import opened Upstreams
  import opened Rewriting
  import opened Signing
  import opened Resolvers
  import opened Sessions

  // The reference definitions: no cache, no clock, no state.

  function ColdVersion(k: Setup, u: Site, repo: string, chart: string, version: string): Result<Artifact, Error> {
    var entries :- Entries(u, repo, chart);
    match FindVersion(entries, version)
    case None => Err(VersionUnknown)
    case Some(entry) => Derive(k, u, u, repo, entry)
  }

  function ColdScan(k: Setup, u: Site, repo: string, chart: string, wanted: Artifact -> bool,
                    candidates: seq<IndexEntry>)
    : Result<Option<Artifact>, Error>
    decreases candidates
  {
    if candidates == [] then Ok(None)
    else match ColdVersion(k, u, repo, chart, candidates[0].version)
      case Err(e) => if Skippable(e) then ColdScan(k, u, repo, chart, wanted, candidates[1..]) else Err(e)
      case Ok(art) => if wanted(art) then Ok(Some(art)) else ColdScan(k, u, repo, chart, wanted, candidates[1..])
  }

  function ColdFind(k: Setup, u: Site, repo: string, chart: string,
                    wanted: Artifact -> bool): Result<Option<Artifact>, Error> {
    var entries :- Entries(u, repo, chart);
    ColdScan(k, u, repo, chart, wanted, Candidates(k, entries))
  }

  function ColdManifest(k: Setup, u: Site, repo: string, chart: string, digest: string): Result<Artifact, Error> {
    var found :- ColdFind(k, u, repo, chart, HasManifest(digest));
    if found.None? then Err(VersionUnknown) else Ok(found.value)
  }

  function ColdBlobScan(k: Setup, u: Site, repo: string, chart: string, digest: string): Result<Bytes, Error> {
    var found :- ColdFind(k, u, repo, chart, HasBlob(digest));
    if found.None? || found.value.Blob(digest).None? then Err(BlobUnknown) else Ok(found.value.Blob(digest).value.0)
  }

  function ColdBlob(k: Setup, u: Site, repo: string, chart: string, digest: string): Result<Bytes, Error> {
    var entries :- Entries(u, repo, chart);
    match FindLayerDigest(entries, digest)
    case None => ColdBlobScan(k, u, repo, chart, digest)
    case Some(entry) =>
      var art :- ColdVersion(k, u, repo, chart, entry.version);
      if art.Blob(digest).Some? then Ok(art.Blob(digest).value.0) else ColdBlobScan(k, u, repo, chart, digest)
  }

  function ColdSignatureBlob(k: Setup, u: Site, repo: string, chart: string, digest: string): Result<Bytes, Error> {
    if k.opts.signer.None? then Err(BlobUnknown)
    else
      var signer := k.opts.signer.value;
      var found :- ColdFind(k, u, repo, chart, SignatureHasBlob(k, signer, repo, chart, digest));
      if found.None? then Err(BlobUnknown)
      else
        var blob := SignatureFor(k.codec, signer, repo + "/" + chart, found.value.manifestDigest).Blob(digest);
        if blob.Some? then Ok(blob.value.0) else Err(BlobUnknown)
  }

  function ColdServeBlob(k: Setup, u: Site, repo: string, chart: string, digest: string): Result<Bytes, Error> {
    var r := ColdBlob(k, u, repo, chart, digest);
    if r == Err(BlobUnknown) && k.opts.signer.Some? then ColdSignatureBlob(k, u, repo, chart, digest) else r
  }

  // Upstream, as far as one chart is concerned.

  /** The chart's own part of upstream stands still: the entries listed for it, and what each of them derives. */
  ghost predicate Steady(k: Setup, w: World, u: Site, repo: string, chart: string) {
    && (forall t: nat :: Entries(w(t), repo, chart) == Entries(u, repo, chart))
    && (forall t: nat, entry | Lists(u, repo, chart, entry) ::
          Derive(k, w(t), w(t + 1), repo, entry) == Derive(k, u, u, repo, entry))
  }

  /** It stands still but may fail at any moment. */
  ghost predicate SteadyOrFailing(k: Setup, w: World, u: Site, repo: string, chart: string) {
    && (forall t: nat :: Entries(w(t), repo, chart).Ok? ==> Entries(w(t), repo, chart) == Entries(u, repo, chart))
    && (forall t: nat, entry | Lists(u, repo, chart, entry) && Derive(k, w(t), w(t + 1), repo, entry).Ok? ::
          Derive(k, w(t), w(t + 1), repo, entry) == Derive(k, u, u, repo, entry))
  }

  ghost predicate Lists(u: Site, repo: string, chart: string, entry: IndexEntry) {
    Entries(u, repo, chart).Ok? && entry in Entries(u, repo, chart).value
  }

  lemma SteadyIsSteadyOrFailing(k: Setup, w: World, u: Site, repo: string, chart: string)
    requires Steady(k, w, u, repo, chart)
    ensures SteadyOrFailing(k, w, u, repo, chart)
  {
    hide Entries, Derive;
  }

  /** All of upstream standing still. */
  ghost function Frozen(u: Site): World {
    (t: nat) => u
  }

  lemma FrozenSteady(k: Setup, u: Site, repo: string, chart: string)
    ensures Steady(k, Frozen(u), u, repo, chart)
  {
    hide Entries, Derive;
  }

  /** The URLs from which the chart's listed entries are built. */
  ghost predicate Sourced(k: Setup, u: Site, repo: string, chart: string, url: string) {
    exists entry :: Lists(u, repo, chart, entry) && SourcedFrom(k, repo, entry, url)
  }

  ghost predicate SourcedFrom(k: Setup, repo: string, entry: IndexEntry, url: string) {
    var source := EntryUrl(k.resolve, repo, entry);
    source.Ok? && (url == source.value || url == source.value + ".prov")
  }

  /** A failure that says nothing of whether the file is there: no 404, no 410. */
  predicate Transient(r: Response) {
    r.Failed? || (r.status != 200 && r.status != 404 && r.status != 410)
  }

  /** Each exchange about this chart is answered as u answers it. */
  ghost predicate Undisturbed(k: Setup, w: World, u: Site, repo: string, chart: string) {
    forall t: nat ::
      && Entries(w(t), repo, chart) == Entries(u, repo, chart)
      && forall url | Sourced(k, u, repo, chart, url) :: w(t).get(url) == u.get(url)
  }

  /** Each exchange about this chart is answered as u answers it, or fails: the index in any way, a download
      transiently. */
  ghost predicate Disturbed(k: Setup, w: World, u: Site, repo: string, chart: string) {
    forall t: nat ::
      && (Entries(w(t), repo, chart).Ok? ==> Entries(w(t), repo, chart) == Entries(u, repo, chart))
      && forall url | Sourced(k, u, repo, chart, url) :: w(t).get(url) == u.get(url) || Transient(w(t).get(url))
  }

  lemma UndisturbedSteady(k: Setup, w: World, u: Site, repo: string, chart: string)
    requires Undisturbed(k, w, u, repo, chart)
    ensures Steady(k, w, u, repo, chart)
  {
    hide Entries;
    forall t: nat, entry | Lists(u, repo, chart, entry)
      ensures Derive(k, w(t), w(t + 1), repo, entry) == Derive(k, u, u, repo, entry)
    {
      forall url | SourcedFrom(k, repo, entry, url)
        ensures w(t).get(url) == u.get(url) && w(t + 1).get(url) == u.get(url)
      {
        assert Sourced(k, u, repo, chart, url);
      }
      DeriveSame(k, w(t), w(t + 1), u, repo, entry);
    }
  }

  lemma DeriveSame(k: Setup, chartSite: Site, provSite: Site, u: Site, repo: string, entry: IndexEntry)
    requires forall url | SourcedFrom(k, repo, entry, url) ::
      chartSite.get(url) == u.get(url) && provSite.get(url) == u.get(url)
    ensures Derive(k, chartSite, provSite, repo, entry) == Derive(k, u, u, repo, entry)
  {
    hide Build, RewriteDependencies, Fetch;
    var source := EntryUrl(k.resolve, repo, entry);
    if source.Ok? {
      assert SourcedFrom(k, repo, entry, source.value) && SourcedFrom(k, repo, entry, source.value + ".prov");
    }
  }

  /** Failing transiently, a chart never derives anything else. */
  lemma DisturbedSteadyOrFailing(k: Setup, w: World, u: Site, repo: string, chart: string)
    requires Disturbed(k, w, u, repo, chart)
    ensures SteadyOrFailing(k, w, u, repo, chart)
  {
    hide Entries;
    forall t: nat, entry | Lists(u, repo, chart, entry) && Derive(k, w(t), w(t + 1), repo, entry).Ok?
      ensures Derive(k, w(t), w(t + 1), repo, entry) == Derive(k, u, u, repo, entry)
    {
      forall url | SourcedFrom(k, repo, entry, url)
        ensures w(t).get(url) == u.get(url) || Transient(w(t).get(url))
        ensures w(t + 1).get(url) == u.get(url) || Transient(w(t + 1).get(url))
      {
        assert Sourced(k, u, repo, chart, url);
      }
      DeriveSameOrFails(k, w(t), w(t + 1), u, repo, entry);
    }
  }

  lemma DeriveSameOrFails(k: Setup, chartSite: Site, provSite: Site, u: Site, repo: string, entry: IndexEntry)
    requires forall url | SourcedFrom(k, repo, entry, url) ::
      && (chartSite.get(url) == u.get(url) || Transient(chartSite.get(url)))
      && (provSite.get(url) == u.get(url) || Transient(provSite.get(url)))
    requires Derive(k, chartSite, provSite, repo, entry).Ok?
    ensures Derive(k, chartSite, provSite, repo, entry) == Derive(k, u, u, repo, entry)
  {
    hide Build, RewriteDependencies;
    var source := EntryUrl(k.resolve, repo, entry);
    if source.Ok? {
      assert SourcedFrom(k, repo, entry, source.value) && SourcedFrom(k, repo, entry, source.value + ".prov");
    }
  }

  // What a version may be mistaken for.

  /** Some version of the chart resolves to the artifact. */
  ghost predicate Yields(k: Setup, u: Site, repo: string, chart: string, art: Artifact) {
    exists version :: ColdVersion(k, u, repo, chart, version) == Ok(art)
  }

  /** Of artifacts of this chart, that some version resolves to them; of others nothing. */
  ghost function ChartYields(k: Setup, u: Site, repo: string, chart: string): Claim {
    (r: string, c: string, art: Artifact) => r == repo && c == chart ==> Yields(k, u, repo, chart, art)
  }

  /** Whatever version of the chart resolves to an artifact that declares this version, this version does too. */
  ghost predicate Unmistaken(k: Setup, u: Site, repo: string, chart: string, version: string) {
    forall other | Declares(k, u, repo, chart, other, version) ::
      ColdVersion(k, u, repo, chart, version) == ColdVersion(k, u, repo, chart, other)
  }

  ghost predicate Declares(k: Setup, u: Site, repo: string, chart: string, listed: string, version: string) {
    var cold := ColdVersion(k, u, repo, chart, listed);
    cold.Ok? && cold.value.version == version
  }

  /** No version that the index lists for the chart can be mistaken. */
  ghost predicate ListedUnmistaken(k: Setup, u: Site, repo: string, chart: string) {
    forall entry | Lists(u, repo, chart, entry) :: Unmistaken(k, u, repo, chart, entry.version)
  }

  /** Whatever a version of the chart resolves to, the version it declares in Chart.yaml resolves to the same. */
  ghost predicate DeclaredVersionsResolve(k: Setup, u: Site, repo: string, chart: string) {
    forall version :: Unmistaken(k, u, repo, chart, version)
  }

  /** Every entry listed for the chart that builds declares the version it is listed under. */
  ghost predicate VersionAgreement(k: Setup, u: Site, repo: string, chart: string) {
    forall entry | Lists(u, repo, chart, entry) && Derive(k, u, u, repo, entry).Ok? ::
      Derive(k, u, u, repo, entry).value.version == entry.version
  }

  lemma AgreementDeclares(k: Setup, u: Site, repo: string, chart: string, version: string)
    requires VersionAgreement(k, u, repo, chart) && ColdVersion(k, u, repo, chart, version).Ok?
    ensures ColdVersion(k, u, repo, chart, version).value.version == version
  {
    hide Derive;
    var entry := FindVersion(Entries(u, repo, chart).value, version).value;
    assert Lists(u, repo, chart, entry);
  }

  lemma AgreementResolves(k: Setup, u: Site, repo: string, chart: string)
    requires VersionAgreement(k, u, repo, chart)
    ensures DeclaredVersionsResolve(k, u, repo, chart) && ListedUnmistaken(k, u, repo, chart)
  {
    hide ColdVersion;
    forall version, other | Declares(k, u, repo, chart, other, version) ensures other == version {
      AgreementDeclares(k, u, repo, chart, other);
    }
  }

  // Lookups by version.

  lemma UncachedIsCold(k: Setup, w: World, u: Site, t: nat, repo: string, chart: string, version: string)
    ensures Steady(k, w, u, repo, chart)
        ==> Uncached(k, w, t, repo, chart, version) == ColdVersion(k, u, repo, chart, version)
    ensures SteadyOrFailing(k, w, u, repo, chart) && Uncached(k, w, t, repo, chart, version).Ok? ==>
      Uncached(k, w, t, repo, chart, version) == ColdVersion(k, u, repo, chart, version)
  {
    hide Derive;
    if Entries(u, repo, chart).Ok? {
      var entry := FindVersion(Entries(u, repo, chart).value, version);
      assert entry.Some? ==> Lists(u, repo, chart, entry.value);
    }
    assert t + 1 + 1 == t + 2;
  }

  lemma EveryBuildYields(k: Setup, w: World, u: Site, repo: string, chart: string)
    requires SteadyOrFailing(k, w, u, repo, chart)
    ensures Establishes(k, w, ChartYields(k, u, repo, chart))
  {
    hide Uncached, ColdVersion, SteadyOrFailing;
    forall t: nat, r, c, version | NameOk(r, c) && Uncached(k, w, t, r, c, version).Ok?
      ensures ChartYields(k, u, repo, chart)(r, c, Uncached(k, w, t, r, c, version).value)
    {
      if r == repo && c == chart {
        UncachedIsCold(k, w, u, t, repo, chart, version);
        assert ColdVersion(k, u, repo, chart, version) == Ok(Uncached(k, w, t, r, c, version).value);
      }
    }
  }

  /** Of this chart, the cache holds only what some version resolves to. */
  ghost predicate Faithful(k: Setup, u: Site, repo: string, chart: string, s: State) {
    Vouched(k, ChartYields(k, u, repo, chart), s.cache)
  }

  lemma ReachableFaithful(k: Setup, w: World, u: Site, repo: string, chart: string, s: State)
    requires SteadyOrFailing(k, w, u, repo, chart) && Reachable(k, w, s)
    ensures Faithful(k, u, repo, chart, s)
  {
    hide SteadyOrFailing, Reachable, Establishes, Vouched;
    EveryBuildYields(k, w, u, repo, chart);
    ReachableVouched(k, w, ChartYields(k, u, repo, chart), s);
  }

  lemma VersionStepFaithful(k: Setup, w: World, u: Site, s: State, repo: string, chart: string, version: string)
    requires SteadyOrFailing(k, w, u, repo, chart) && Faithful(k, u, repo, chart, s) && NameOk(repo, chart)
    ensures var (s', r) := VersionStep(k, w, s, repo, chart, version);
      Faithful(k, u, repo, chart, s') && (r.Ok? ==> Yields(k, u, repo, chart, r.value))
  {
    hide SteadyOrFailing, VersionStep, Vouched, Yields, Establishes;
    EveryBuildYields(k, w, u, repo, chart);
    VersionStepSound(k, w, ChartYields(k, u, repo, chart), s, repo, chart, version);
  }

  /** A version hit that cannot be mistaken is the cold answer. */
  lemma HitIsCold(k: Setup, u: Site, s: State, repo: string, chart: string, version: string)
    requires Faithful(k, u, repo, chart, s) && NameOk(repo, chart) && Unmistaken(k, u, repo, chart, version)
    requires VersionKey(repo, chart, version) in s.cache.byID
    ensures ColdVersion(k, u, repo, chart, version) == Ok(s.cache.byID[VersionKey(repo, chart, version)].art)
  {
    hide ColdVersion, Vouched, VersionKey, NameOk;
    VersionHit(k, ChartYields(k, u, repo, chart), s.cache, repo, chart, version);
    var art := s.cache.byID[VersionKey(repo, chart, version)].art;
    assert ChartYields(k, u, repo, chart)(repo, chart, art);
    assert Yields(k, u, repo, chart, art);
    var other :| ColdVersion(k, u, repo, chart, other) == Ok(art);
    assert Declares(k, u, repo, chart, other, version);
  }

  lemma VersionStepCold(k: Setup, w: World, u: Site, s: State, repo: string, chart: string, version: string)
    requires Steady(k, w, u, repo, chart) && Faithful(k, u, repo, chart, s) && NameOk(repo, chart)
    requires Unmistaken(k, u, repo, chart, version)
    ensures var (s', r) := VersionStep(k, w, s, repo, chart, version);
      Faithful(k, u, repo, chart, s') && r == ColdVersion(k, u, repo, chart, version)
  {
    hide Uncached, ColdVersion, Faithful, Unmistaken, Steady;
    SteadyIsSteadyOrFailing(k, w, u, repo, chart);
    VersionStepFaithful(k, w, u, s, repo, chart, version);
    UncachedIsCold(k, w, u, s.now, repo, chart, version);
    if VersionKey(repo, chart, version) in s.cache.byID {
      HitIsCold(k, u, s, repo, chart, version);
    }
  }

  /** A lookup by version equals the cache-free definition, from every reachable state, provided the chart stands
      still and the version cannot be mistaken. */
  lemma VersionTransparent(k: Setup, w: World, u: Site, s: State, repo: string, chart: string, version: string)
    requires Steady(k, w, u, repo, chart) && Reachable(k, w, s) && NameOk(repo, chart)
    requires Unmistaken(k, u, repo, chart, version)
    ensures VersionStep(k, w, s, repo, chart, version).1 == ColdVersion(k, u, repo, chart, version)
  {
    hide VersionStep, ColdVersion, Faithful, Unmistaken, Steady, Reachable;
    SteadyIsSteadyOrFailing(k, w, u, repo, chart);
    ReachableFaithful(k, w, u, repo, chart, s);
    VersionStepCold(k, w, u, s, repo, chart, version);
  }

  /** Even while the chart's upstream keeps failing, a lookup by version that succeeds equals the cache-free
      definition. */
  lemma SuccessTransparent(k: Setup, w: World, u: Site, s: State, repo: string, chart: string, version: string)
    requires SteadyOrFailing(k, w, u, repo, chart) && Reachable(k, w, s) && NameOk(repo, chart)
    requires Unmistaken(k, u, repo, chart, version)
    requires VersionStep(k, w, s, repo, chart, version).1.Ok?
    ensures VersionStep(k, w, s, repo, chart, version).1 == ColdVersion(k, u, repo, chart, version)
  {
    hide Uncached, ColdVersion, Faithful, Unmistaken, SteadyOrFailing, Reachable;
    ReachableFaithful(k, w, u, repo, chart, s);
    UncachedIsCold(k, w, u, s.now, repo, chart, version);
    if VersionKey(repo, chart, version) in s.cache.byID {
      HitIsCold(k, u, s, repo, chart, version);
    }
  }

  /** The answer for the version, after every run, is the cache-free one. */
  ghost predicate AlwaysCold(k: Setup, w: World, u: Site, repo: string, chart: string, version: string) {
    forall s | Reachable(k, w, s) ::
        VersionStep(k, w, s, repo, chart, version).1 == ColdVersion(k, u, repo, chart, version)
  }

  lemma BuiltOnEmpty(k: Setup, w: World, u: Site, repo: string, chart: string, version: string)
    requires Steady(k, w, u, repo, chart) && ColdVersion(k, u, repo, chart, version).Ok?
    ensures var art := ColdVersion(k, u, repo, chart, version).value;
      After(k, w, COLD, VersionRequest(repo, chart, version)).cache
      == Add(k.opts.cacheBytes, EMPTY, repo, chart, art)
  {
    hide Uncached, ColdVersion, Steady, VersionKey, Add;
    UncachedIsCold(k, w, u, 0, repo, chart, version);
  }

  lemma AddedIsFound(max: int, repo: string, chart: string, art: Artifact)
    requires NameOk(repo, chart)
    ensures var (_, hit) := Get(Add(max, EMPTY, repo, chart, art), VersionKey(repo, chart, art.version));
      hit == Some(art)
  {
    hide Add, VersionKey, NameOk, Owned;
    AddKeeps(max, EMPTY, repo, chart, art) by { assert WellIndexed(EMPTY); }
    var c := Add(max, EMPTY, repo, chart, art);
    assert Indexed(c, c.ll[0]);
  }

  /** After building one version on an empty cache, the version the artifact declares is answered from the cache. */
  lemma DeclaredVersionCached(k: Setup, w: World, u: Site, repo: string, chart: string, version: string)
    requires Steady(k, w, u, repo, chart) && NameOk(repo, chart) && ColdVersion(k, u, repo, chart, version).Ok?
    ensures var art := ColdVersion(k, u, repo, chart, version).value;
      var s := Run(k, w, COLD, [VersionRequest(repo, chart, version)]);
      Reachable(k, w, s) && VersionStep(k, w, s, repo, chart, art.version).1 == Ok(art)
  {
    hide ColdVersion, Steady, VersionKey, After, Add, NameOk, FlightStep;
    var q := VersionRequest(repo, chart, version);
    BuiltOnEmpty(k, w, u, repo, chart, version);
    AddedIsFound(k.opts.cacheBytes, repo, chart, ColdVersion(k, u, repo, chart, version).value);
    assert [q][1..] == [];
    assert Run(k, w, COLD, [q]) == After(k, w, COLD, q);
    assert Dispatched([q]);
  }

  /** The exact condition, version by version: a chart standing still, its version is always answered as a cold
      replica answers it exactly if it cannot be mistaken. */
  lemma AlwaysColdIffUnmistaken(k: Setup, w: World, u: Site, repo: string, chart: string, version: string)
    requires Steady(k, w, u, repo, chart) && NameOk(repo, chart)
    ensures AlwaysCold(k, w, u, repo, chart, version) <==> Unmistaken(k, u, repo, chart, version)
  {
    hide VersionStep, ColdVersion, Steady, Reachable, NameOk;
    if Unmistaken(k, u, repo, chart, version) {
      forall s | Reachable(k, w, s)
        ensures VersionStep(k, w, s, repo, chart, version).1 == ColdVersion(k, u, repo, chart, version)
      {
        VersionTransparent(k, w, u, s, repo, chart, version);
      }
    }
    if AlwaysCold(k, w, u, repo, chart, version) {
      forall other | Declares(k, u, repo, chart, other, version)
        ensures ColdVersion(k, u, repo, chart, version) == ColdVersion(k, u, repo, chart, other)
      {
        DeclaredVersionCached(k, w, u, repo, chart, other);
      }
    }
  }

  /** And chart by chart: all its versions are, exactly if every declared version resolves to what declares it. */
  lemma TransparentIffDeclaredVersionsResolve(k: Setup, w: World, u: Site, repo: string, chart: string)
    requires Steady(k, w, u, repo, chart) && NameOk(repo, chart)
    ensures (forall version :: AlwaysCold(k, w, u, repo, chart, version))
        <==> DeclaredVersionsResolve(k, u, repo, chart)
  {
    hide AlwaysCold, Unmistaken, Steady, NameOk;
    forall version ensures AlwaysCold(k, w, u, repo, chart, version) <==> Unmistaken(k, u, repo, chart, version) {
      AlwaysColdIffUnmistaken(k, w, u, repo, chart, version);
    }
  }

  // Scans.

  ghost predicate AllUnmistaken(k: Setup, u: Site, repo: string, chart: string, candidates: seq<IndexEntry>) {
    forall e | e in candidates :: Unmistaken(k, u, repo, chart, e.version)
  }

  lemma {:induction false} ScanStepCold(k: Setup, w: World, u: Site, s: State, repo: string, chart: string,
                                        wanted: Artifact -> bool, candidates: seq<IndexEntry>)
    requires Steady(k, w, u, repo, chart) && Faithful(k, u, repo, chart, s) && NameOk(repo, chart)
    requires AllUnmistaken(k, u, repo, chart, candidates)
    ensures var (s', r) := ScanStep(k, w, s, repo, chart, wanted, candidates);
      Faithful(k, u, repo, chart, s') && r == ColdScan(k, u, repo, chart, wanted, candidates)
    decreases candidates
  {
    hide VersionStep, ColdVersion, Faithful, Unmistaken, Steady, NameOk;
    if candidates != [] {
      assert candidates[0] in candidates;
      VersionStepCold(k, w, u, s, repo, chart, candidates[0].version);
      ScanStepCold(k, w, u, VersionStep(k, w, s, repo, chart, candidates[0].version).0, repo, chart, wanted,
                   candidates[1..]);
    }
  }

  lemma CandidatesUnmistaken(k: Setup, u: Site, repo: string, chart: string, entries: seq<IndexEntry>)
    requires ListedUnmistaken(k, u, repo, chart) && Entries(u, repo, chart) == Ok(entries)
    ensures AllUnmistaken(k, u, repo, chart, Candidates(k, entries))
  {
    hide Unmistaken, Entries;
    forall e | e in Candidates(k, entries) ensures Unmistaken(k, u, repo, chart, e.version) {
      assert Lists(u, repo, chart, e);
    }
  }

  lemma ScanChartCold(k: Setup, w: World, u: Site, s: State, repo: string, chart: string, wanted: Artifact -> bool)
    requires Steady(k, w, u, repo, chart) && Faithful(k, u, repo, chart, s) && NameOk(repo, chart)
    requires ListedUnmistaken(k, u, repo, chart)
    ensures var (s', r) := ScanChartStep(k, w, s, repo, chart, wanted);
      Faithful(k, u, repo, chart, s') && r == ColdFind(k, u, repo, chart, wanted)
  {
    hide ScanStep, ColdScan, ListedUnmistaken, AllUnmistaken, Derive, Candidates, Entries, Vouched, NameOk;
    var s' := s.(now := s.now + 1);
    match Entries(u, repo, chart)
    case Err(_) =>
    case Ok(entries) =>
      CandidatesUnmistaken(k, u, repo, chart, entries);
      ScanStepCold(k, w, u, s', repo, chart, wanted, Candidates(k, entries));
  }

  /** What a cold scan finds is wanted, and some version resolves to it. */
  lemma {:induction false} FoundIsWanted(k: Setup, u: Site, repo: string, chart: string, wanted: Artifact -> bool,
                                         candidates: seq<IndexEntry>)
    ensures var r := ColdScan(k, u, repo, chart, wanted, candidates);
      r.Ok? && r.value.Some? ==> wanted(r.value.value) && Yields(k, u, repo, chart, r.value.value)
    decreases candidates
  {
    hide ColdVersion;
    if candidates != [] {
      FoundIsWanted(k, u, repo, chart, wanted, candidates[1..]);
    }
  }
}
