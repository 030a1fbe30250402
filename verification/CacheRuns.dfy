/** The recency-stack results for a resolver's own runs: what its lookups by version do to its cache. */
module CacheRuns {
  import opened Wrappers
  import opened Oci
  import opened ArtifactCaches
  import opened CacheInvariants
  import opened CacheStack
  import opened Upstreams
  import opened Rewriting
  import opened Resolvers
  import opened Sessions
  import opened Transparency

  /** The reference resolves, to an artifact that declares the version asked for. */
  predicate Resolves(k: Setup, u: Site, r: Ref) {
    var cold := ColdVersion(k, u, r.repo, r.chart, r.version);
    cold.Ok? && cold.value.version == r.version
  }

  /** What each reference resolves to; where it does not, some artifact of that version. */
  function ColdCatalog(k: Setup, u: Site): Catalog {
    (r: Ref) =>
      if Resolves(k, u, r) then ColdVersion(k, u, r.repo, r.chart, r.version).value
      else Artifact("", r.version, [], "", [], "", [], "", None, "")
  }

  function Requests(trace: seq<Ref>): seq<Request> {
    seq(|trace|, i requires 0 <= i < |trace| => VersionRequest(trace[i].repo, trace[i].chart, trace[i].version))
  }

  /** The references of a trace that resolve; the others leave the cache alone. */
  function Resolving(k: Setup, u: Site, trace: seq<Ref>): seq<Ref> {
    if trace == [] then []
    else
      var last := trace[|trace| - 1];
      Resolving(k, u, trace[..|trace| - 1]) + if Resolves(k, u, last) then [last] else []
  }

  /** The chart referred to stands still, its version cannot be mistaken, and if it resolves at all it resolves to what
      declares that version. Of other charts nothing is supposed. */
  ghost predicate RefFit(k: Setup, w: World, u: Site, r: Ref) {
    && NameOk(r.repo, r.chart) && Steady(k, w, u, r.repo, r.chart)
    && Unmistaken(k, u, r.repo, r.chart, r.version)
    && (ColdVersion(k, u, r.repo, r.chart, r.version).Ok? ==> Resolves(k, u, r))
  }

  ghost predicate TraceFit(k: Setup, w: World, u: Site, trace: seq<Ref>) {
    forall r | r in trace :: RefFit(k, w, u, r)
  }

  /** A chart standing still whose listed versions are those declared fits. */
  lemma AgreementFits(k: Setup, w: World, u: Site, r: Ref)
    requires Steady(k, w, u, r.repo, r.chart) && VersionAgreement(k, u, r.repo, r.chart) && NameOk(r.repo, r.chart)
    ensures RefFit(k, w, u, r)
  {
    hide Steady, ColdVersion, VersionAgreement, Unmistaken, NameOk;
    AgreementResolves(k, u, r.repo, r.chart);
    if ColdVersion(k, u, r.repo, r.chart, r.version).Ok? {
      AgreementDeclares(k, u, r.repo, r.chart, r.version);
    }
  }

  /** A successful lookup by version changes the cache as one visit does; a failed one not at all. */
  lemma VersionStepVisits(k: Setup, w: World, u: Site, s: State, r: Ref)
    requires Reachable(k, w, s) && RefFit(k, w, u, r)
    ensures var (s', result) := VersionStep(k, w, s, r.repo, r.chart, r.version);
      && (result.Ok? <==> Resolves(k, u, r))
      && s'.cache == if result.Ok? then Visit(k.opts.cacheBytes, ColdCatalog(k, u), s.cache, r) else s.cache
  {
    hide ColdVersion, Uncached, Faithful, Unmistaken, Steady, Add, MoveToFront, Reachable, NameOk, VersionKey;
    VersionTransparent(k, w, u, s, r.repo, r.chart, r.version);
    UncachedIsCold(k, w, u, s.now, r.repo, r.chart, r.version);
  }

  lemma {:induction false} RequestsReach(k: Setup, w: World, u: Site, trace: seq<Ref>)
    requires TraceFit(k, w, u, trace)
    ensures Reachable(k, w, Run(k, w, COLD, Requests(trace)))
  {
    hide Run, Steady, Unmistaken, ColdVersion, NameOk;
    forall q | q in Requests(trace) ensures NameOk(q.repo, q.chart) {
      var i :| 0 <= i < |trace| && Requests(trace)[i] == q;
      assert RefFit(k, w, u, trace[i]);
    }
  }

  /** After any lookups by version the cache is that of visiting, in turn, the references that resolve. */
  lemma {:induction false} RunVisits(k: Setup, w: World, u: Site, trace: seq<Ref>)
    requires TraceFit(k, w, u, trace)
    ensures var s := Run(k, w, COLD, Requests(trace));
      s.cache == Visits(k.opts.cacheBytes, ColdCatalog(k, u), Resolving(k, u, trace))
    decreases trace
  {
    hide RefFit, VersionStep, Visit, Resolves, ColdCatalog, Reachable;
    if trace != [] {
      var n := |trace| - 1;
      var front, last := trace[..n], trace[n];
      assert last in trace;
      RunVisits(k, w, u, front);
      assert Requests(trace) == Requests(front) + [VersionRequest(last.repo, last.chart, last.version)];
      RunAppend(k, w, COLD, Requests(front), VersionRequest(last.repo, last.chart, last.version));
      RequestsReach(k, w, u, front);
      VersionStepVisits(k, w, u, Run(k, w, COLD, Requests(front)), last);
      var before, all := Resolving(k, u, front), Resolving(k, u, trace);
      if Resolves(k, u, last) {
        assert all[..|all| - 1] == before && all[|all| - 1] == last;
      } else {
        assert all == before;
      }
    }
  }

  lemma FitNamed(k: Setup, w: World, u: Site, trace: seq<Ref>)
    requires TraceFit(k, w, u, trace)
    ensures TraceOk(trace)
  {
    hide Steady, Unmistaken, ColdVersion, NameOk;
    forall r | r in trace ensures NameOk(r.repo, r.chart) {
      assert RefFit(k, w, u, r);
    }
  }

  lemma {:induction false} ResolvingOk(k: Setup, u: Site, trace: seq<Ref>)
    requires TraceOk(trace)
    ensures TraceOk(Resolving(k, u, trace))
  {
    hide Resolves, NameOk;
    if trace != [] {
      ResolvingOk(k, u, trace[..|trace| - 1]);
      assert trace[|trace| - 1] in trace;
    }
  }

  /** The same replica with another bound on its cache. */
  function WithBound(k: Setup, bytes: int): Setup {
    k.(opts := k.opts.(cacheBytes := bytes))
  }

  lemma ColdUnseen(k: Setup, chartSite: Site, provSite: Site, bytes: int, repo: string, entry: IndexEntry)
    ensures Derive(WithBound(k, bytes), chartSite, provSite, repo, entry) == Derive(k, chartSite, provSite, repo, entry)
  {
    hide Build, RewriteDependencies, ChartBytes, ProvBytes;
  }

  lemma CatalogUnseen(k: Setup, u: Site, bytes: int, r: Ref)
    ensures Resolves(WithBound(k, bytes), u, r) == Resolves(k, u, r)
    ensures ColdCatalog(WithBound(k, bytes), u)(r) == ColdCatalog(k, u)(r)
  {
    hide ColdVersion, WithBound;
    VersionUnseen(k, u, bytes, r.repo, r.chart, r.version);
  }

  lemma VersionUnseen(k: Setup, u: Site, bytes: int, repo: string, chart: string, version: string)
    ensures ColdVersion(WithBound(k, bytes), u, repo, chart, version) == ColdVersion(k, u, repo, chart, version)
  {
    hide Derive;
    forall entry ensures Derive(WithBound(k, bytes), u, u, repo, entry) == Derive(k, u, u, repo, entry) {
      ColdUnseen(k, u, u, bytes, repo, entry);
    }
  }

  lemma SteadyUnseen(k: Setup, w: World, u: Site, bytes: int, repo: string, chart: string)
    requires Steady(k, w, u, repo, chart)
    ensures Steady(WithBound(k, bytes), w, u, repo, chart)
  {
    hide Derive, Entries, WithBound;
    forall t: nat, entry | Lists(u, repo, chart, entry)
      ensures Derive(WithBound(k, bytes), w(t), w(t + 1), repo, entry) == Derive(WithBound(k, bytes), u, u, repo, entry)
    {
      ColdUnseen(k, w(t), w(t + 1), bytes, repo, entry);
      ColdUnseen(k, u, u, bytes, repo, entry);
    }
  }

  lemma FitUnseen(k: Setup, w: World, u: Site, bytes: int, r: Ref)
    requires RefFit(k, w, u, r)
    ensures RefFit(WithBound(k, bytes), w, u, r)
  {
    hide ColdVersion, Steady, WithBound, NameOk;
    SteadyUnseen(k, w, u, bytes, r.repo, r.chart);
    forall version
      ensures ColdVersion(WithBound(k, bytes), u, r.repo, r.chart, version)
          == ColdVersion(k, u, r.repo, r.chart, version)
    {
      VersionUnseen(k, u, bytes, r.repo, r.chart, version);
    }
    forall other | Declares(WithBound(k, bytes), u, r.repo, r.chart, other, r.version)
      ensures Declares(k, u, r.repo, r.chart, other, r.version)
    {
    }
  }

  lemma {:induction false} ResolvingUnseen(k: Setup, u: Site, bytes: int, trace: seq<Ref>)
    ensures Resolving(WithBound(k, bytes), u, trace) == Resolving(k, u, trace)
  {
    hide Resolves, WithBound;
    if trace != [] {
      ResolvingUnseen(k, u, bytes, trace[..|trace| - 1]);
      CatalogUnseen(k, u, bytes, trace[|trace| - 1]);
    }
  }

  lemma {:induction false} VisitsUnseen(k: Setup, u: Site, max: int, bytes: int, trace: seq<Ref>)
    ensures Visits(max, ColdCatalog(WithBound(k, bytes), u), trace) == Visits(max, ColdCatalog(k, u), trace)
  {
    hide ColdCatalog, WithBound, Add, Get;
    if trace != [] {
      VisitsUnseen(k, u, max, bytes, trace[..|trace| - 1]);
      CatalogUnseen(k, u, bytes, trace[|trace| - 1]);
    }
  }

  /** A replica's residents, after any lookups by version, are the longest prefix of the recency stack of the
      references that resolved that fits its bound, or its top alone. */
  lemma RunResidents(k: Setup, w: World, u: Site, trace: seq<Ref>)
    requires TraceFit(k, w, u, trace)
    ensures Matches(k.opts.cacheBytes, ColdCatalog(k, u), Run(k, w, COLD, Requests(trace)).cache,
                    Stack(ColdCatalog(k, u), Resolving(k, u, trace)))
  {
    hide TraceFit, Run, Matches;
    RunVisits(k, w, u, trace);
    FitNamed(k, w, u, trace);
    ResolvingOk(k, u, trace);
    ResidentsAreLongestFit(k.opts.cacheBytes, ColdCatalog(k, u), Resolving(k, u, trace));
  }

  /** After the same lookups, whatever version hits in a replica's cache hits in that of one with a larger bound,
      though the two meet upstream at different moments. */
  lemma RunKeepsHits(k: Setup, w: World, w': World, u: Site, bytes: int, trace: seq<Ref>, r: Ref)
    requires TraceFit(k, w, u, trace) && TraceFit(k, w', u, trace) && NameOk(r.repo, r.chart)
        && k.opts.cacheBytes <= bytes
    ensures var small := Run(k, w, COLD, Requests(trace)).cache;
      var large := Run(WithBound(k, bytes), w', COLD, Requests(trace)).cache;
      && small.ll <= large.ll
      && (VersionKey(r.repo, r.chart, r.version) in small.byID ==> VersionKey(r.repo, r.chart, r.version) in large.byID)
  {
    hide RefFit, Run, NameOk, ColdCatalog, Resolving, VersionKey;
    forall q | q in trace ensures RefFit(WithBound(k, bytes), w', u, q) {
      FitUnseen(k, w', u, bytes, q);
    }
    RunVisits(k, w, u, trace);
    RunVisits(WithBound(k, bytes), w', u, trace);
    ResolvingUnseen(k, u, bytes, trace);
    VisitsUnseen(k, u, bytes, bytes, Resolving(k, u, trace));
    FitNamed(k, w, u, trace);
    ResolvingOk(k, u, trace);
    CatalogAgrees(k, u);
    RaisingBoundKeepsHits(k.opts.cacheBytes, bytes, ColdCatalog(k, u), Resolving(k, u, trace), r);
  }

  lemma CatalogAgrees(k: Setup, u: Site)
    ensures CatalogOk(ColdCatalog(k, u))
  {
    hide ColdVersion;
  }
}
