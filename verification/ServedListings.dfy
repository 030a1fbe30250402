/** Paging through the tags an index gives rise to. */
module ServedListings {
  import opened Wrappers
  import opened Text
  import opened Upstreams
  import opened Resolvers
  import opened Tagging
  import opened TagLists
  import opened Queries
  import opened Routes
  import opened Pagination
  import opened Crawls
  import opened Serving

  /** The tags of every chart at one moment, none where the chart is not listed. */
  function IndexListing(u: Site): Listing {
    (repo: string, chart: string) =>
      var entries := Entries(u, repo, chart);
      if entries.Ok? then TagList(entries.value) else []
  }

  lemma IndexListed(u: Site)
    ensures Pagination.Listed(IndexListing(u))
  {
    hide TagList, ValidTag;
    forall repo, chart
      ensures Sorted(IndexListing(u)(repo, chart)) && AllValid(IndexListing(u)(repo, chart))
    {
      if Entries(u, repo, chart).Ok? {
        TagListPaged(Entries(u, repo, chart).value);
      }
    }
  }

  /** A link's target as the call it is. */
  function CallFor(target: string): Call {
    var cut := Cut(target, '?');
    if cut.Some? then Call(cut.value.0, cut.value.1) else Call(target, "")
  }

  /** What the registry serves at a target is what paging through the index's listing answers there. */
  lemma ListingServed(k: Setup, w: World, s: State, target: string)
    requires Parse(CallFor(target).path).ListTags?
    requires var route := Parse(CallFor(target).path); Entries(w(s.now), route.repo, route.chart).Ok?
    ensures Pagination.Listed(IndexListing(w(s.now)))
    ensures Serve(k, w, s, CallFor(target)).1 == PageContent(Pagination.Request(IndexListing(w(s.now)), target))
  {
    hide Parse, Cut, HandleTags, TagList, Classify;
    IndexListed(w(s.now));
  }

  /** A finished crawl of a chart's listing, the index standing still. */
  ghost predicate FullCrawl(u: Site, q: Ask, pages: seq<Page>) {
    && AskOk(q) && Pagination.Listed(IndexListing(u))
    && Crawl(Still(IndexListing(u)), q, pages) && Complete(pages)
  }

  /** Whatever the page size. */
  ghost predicate EveryCrawlShows(u: Site, repo: string, chart: string, tags: seq<string>) {
    forall n, limit, pages | FullCrawl(u, Ask(repo, chart, n, limit), pages) :: Shown(pages) == tags
  }

  /** For every page size, the pages put together are exactly the listing of the index's entries,
      provided no two versions share a tag; and if two do, some page size loses one. */
  lemma ListingConcatenates(u: Site, repo: string, chart: string, entries: seq<IndexEntry>)
    requires WellNamed(repo, chart) && Entries(u, repo, chart) == Ok(entries)
    ensures EveryCrawlShows(u, repo, chart, TagList(entries)) <==> DistinctTags(entries)
  {
    hide TagList, Crawl, WellNamed, Shown, Aligned, Distinct, DistinctTags, Entries, AllValid, Sorted, Decimal;
    var tags := TagList(entries);
    ListDistinct(entries);
    TagListPaged(entries);
    IndexListed(u);
    assert IndexListing(u)(repo, chart) == tags;
    if DistinctTags(entries) {
      forall n, limit, pages | FullCrawl(u, Ask(repo, chart, n, limit), pages) ensures Shown(pages) == tags {
        CrawlConcatenates(IndexListing(u), Ask(repo, chart, n, limit), pages);
        DistinctAligned(tags, limit);
      }
    }
    if EveryCrawlShows(u, repo, chart, tags) {
      SizeOne();
      var pages := CrawlFinishes(IndexListing(u), Ask(repo, chart, "1", 1));
      assert FullCrawl(u, Ask(repo, chart, "1", 1), pages);
      CrawlConcatenates(IndexListing(u), Ask(repo, chart, "1", 1), pages);
      OneAligned(tags);
    }
  }

  lemma SizeOne()
    ensures PageSize("1", 1)
  {
    assert "1"[..0] == "" && Decimal("1") == 1;
  }

  ghost predicate ListedThroughout(w: nat -> Site, q: Ask, requests: nat, tag: string) {
    forall i: nat | i < requests :: tag in IndexListing(w(i))(q.repo, q.chart)
  }

  ghost predicate ShownOn(pages: seq<Page>, i: nat, tag: string) {
    i < |pages| && tag in pages[i].tags
  }

  /** However the index changes between the requests: pages go up in byte order, and a finished crawl
      has shown every tag that was listed throughout. */
  lemma ChangingIndexCrawl(w: nat -> Site, q: Ask, pages: seq<Page>)
    requires AskOk(q)
    ensures AllListed((t: nat) => IndexListing(w(t)))
    ensures Crawl((t: nat) => IndexListing(w(t)), q, pages) ==>
      && (forall i, j, t, v | i < j && ShownOn(pages, i, t) && ShownOn(pages, j, v) :: Less(t, v))
      && (Complete(pages) ==> forall t | ListedThroughout(w, q, |pages|, t) :: exists i :: ShownOn(pages, i, t))
  {
    hide Crawl, AskOk, Less, IndexListing;
    var sites := (t: nat) => IndexListing(w(t));
    forall t: nat ensures Pagination.Listed(sites(t)) {
      IndexListed(w(t));
    }
    if Crawl(sites, q, pages) {
      forall i, j, t, v | i < j && ShownOn(pages, i, t) && ShownOn(pages, j, v) ensures Less(t, v) {
        PagesAscend(sites, q, pages, i, j, t, v);
      }
      forall t | Complete(pages) && ListedThroughout(w, q, |pages|, t) ensures exists i :: ShownOn(pages, i, t) {
        CrawlCovers(sites, q, pages, t);
        var i: nat :| i < |pages| && t in pages[i].tags;
        assert ShownOn(pages, i, t);
      }
    }
  }
}
