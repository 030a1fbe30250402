/** The resolver over the index cache: what upstream comes to when every index is one that the index client returns. */
module IndexedWorlds {
  import opened Wrappers
  import opened Oci
  import opened CacheInvariants
  import opened Upstreams
  import opened IndexCaches
  import IndexRuns
  import opened Resolvers
  import opened Sessions
  import opened Transparency

  /** The answer is one that a call for the repo returned in some run of the index client, all of whose replies for
      that repo were good. */
  ghost predicate Returned(p: IndexRuns.Policy, repo: string, good: Index -> bool, answer: Result<Index, Error>) {
    exists start, events, c :: ReturnedBy(p, repo, good, answer, start, events, c)
  }

  ghost predicate ReturnedBy(p: IndexRuns.Policy, repo: string, good: Index -> bool, answer: Result<Index, Error>,
                             start: int, events: seq<IndexRuns.Event>, c: nat) {
    && IndexRuns.RepliesGood(p, start, repo, good, events)
    && var m := IndexRuns.Run(p, start, events);
    && c in m.calls && m.calls[c].repo == repo && m.calls[c].pc.Returned? && m.calls[c].pc.result == answer
  }

  /** The index lists the chart as idx does; its other charts are its own affair. */
  function ListsAs(idx: Index, chart: string): Index -> bool {
    (i: Index) => Versions(i, chart) == Versions(idx, chart)
  }

  /** Every index the resolver meets for the repo comes from the index client, whose upstream, whenever it answers a
      fetch of the repo with an index, answers with one that lists this chart as idx does. */
  ghost predicate Indexed(p: IndexRuns.Policy, w: World, repo: string, chart: string, idx: Index) {
    forall t: nat :: Returned(p, repo, ListsAs(idx, chart), w(t).index(repo))
  }

  lemma ReturnedListsAs(p: IndexRuns.Policy, repo: string, chart: string, idx: Index, answer: Result<Index, Error>)
    requires LimitsOk(p.limits) && Returned(p, repo, ListsAs(idx, chart), answer)
    ensures answer.Ok? ==> Versions(answer.value, chart) == Versions(idx, chart)
  {
    hide IndexRuns.Run, IndexRuns.RepliesGood;
    var start, events, c :| ReturnedBy(p, repo, ListsAs(idx, chart), answer, start, events, c);
    if answer.Ok? {
      IndexRuns.ReturnedIndexGood(p, start, repo, ListsAs(idx, chart), events, c);
    }
  }

  lemma IndexedEntries(p: IndexRuns.Policy, w: World, u: Site, repo: string, chart: string, idx: Index, t: nat)
    requires LimitsOk(p.limits) && Indexed(p, w, repo, chart, idx) && u.index(repo) == Ok(idx)
    ensures w(t).index(repo).Ok? ==> Entries(w(t), repo, chart) == Entries(u, repo, chart)
    ensures w(t).index(repo).Err? ==> Entries(w(t), repo, chart).Err?
  {
    hide Returned;
    ReturnedListsAs(p, repo, chart, idx, w(t).index(repo));
  }

  /** Downloads of the chart's sources are answered as u answers them, or fail transiently. */
  ghost predicate DownloadsDisturbed(k: Setup, w: World, u: Site, repo: string, chart: string) {
    forall t: nat, url | Sourced(k, u, repo, chart, url) ::
      w(t).get(url) == u.get(url) || Transient(w(t).get(url))
  }

  /** The index client in between, with its cache, its stale answers and its failures: a lookup by version that succeeds
      is the cold one. */
  lemma IndexedSuccessTransparent(k: Setup, p: IndexRuns.Policy, w: World, u: Site, idx: Index, s: State,
                                  repo: string, chart: string, version: string)
    requires LimitsOk(p.limits) && Indexed(p, w, repo, chart, idx) && u.index(repo) == Ok(idx)
    requires DownloadsDisturbed(k, w, u, repo, chart)
    requires Reachable(k, w, s) && NameOk(repo, chart) && Unmistaken(k, u, repo, chart, version)
    ensures VersionStep(k, w, s, repo, chart, version).1.Ok? ==>
      VersionStep(k, w, s, repo, chart, version).1 == ColdVersion(k, u, repo, chart, version)
  {
    hide Indexed, Entries, Sourced, Reachable, NameOk, Unmistaken, VersionStep, ColdVersion, SteadyOrFailing;
    forall t: nat
      ensures Entries(w(t), repo, chart).Ok? ==> Entries(w(t), repo, chart) == Entries(u, repo, chart)
    {
      IndexedEntries(p, w, u, repo, chart, idx, t);
    }
    DisturbedSteadyOrFailing(k, w, u, repo, chart);
    if VersionStep(k, w, s, repo, chart, version).1.Ok? {
      SuccessTransparent(k, w, u, s, repo, chart, version);
    }
  }

  /** And while neither the index client nor a download fails, the chart stands still: all that is proved of such charts
      holds over the index client. */
  lemma IndexedSteady(k: Setup, p: IndexRuns.Policy, w: World, u: Site, idx: Index, repo: string, chart: string)
    requires LimitsOk(p.limits) && Indexed(p, w, repo, chart, idx) && u.index(repo) == Ok(idx)
    requires forall t: nat :: w(t).index(repo).Ok?
    requires forall t: nat, url | Sourced(k, u, repo, chart, url) :: w(t).get(url) == u.get(url)
    ensures Steady(k, w, u, repo, chart)
  {
    hide Indexed, Entries, Sourced, Steady;
    forall t: nat ensures Entries(w(t), repo, chart) == Entries(u, repo, chart) {
      IndexedEntries(p, w, u, repo, chart, idx, t);
    }
    UndisturbedSteady(k, w, u, repo, chart);
  }
}
