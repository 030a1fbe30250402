/** Following a tag listing's links from the first page to the last. */
module Crawls {
  import opened Wrappers
  import opened Tagging
  import opened TagLists
  import opened Queries
  import opened Routes
  import opened Pagination

  /** Which chart is listed, and the page size as text and number. */
  datatype Ask = Ask(repo: string, chart: string, n: string, limit: nat)

  ghost predicate AskOk(q: Ask) {
    WellNamed(q.repo, q.chart) && PageSize(q.n, q.limit)
  }

  /** The listings at the moment of each request: the index may be refreshed in between. */
  type Listings = nat -> Listing

  ghost predicate AllListed(sites: Listings) {
    forall t :: Listed(sites(t))
  }

  /** The pages of a client that starts at the first page and follows each link. */
  ghost predicate Crawl(sites: Listings, q: Ask, pages: seq<Page>)
    requires AllListed(sites)
  {
    && |pages| >= 1
    && Request(sites(0), FirstTarget(q.repo, q.chart, q.n)) == Ok(pages[0])
    && forall i | 1 <= i < |pages| :: Followed(sites(i), pages[i - 1], pages[i])
  }

  ghost predicate Followed(site: Listing, page: Page, next: Page)
    requires Listed(site)
  {
    page.next.Some? && Request(site, page.next.value) == Ok(next)
  }

  ghost predicate Complete(pages: seq<Page>) {
    |pages| >= 1 && pages[|pages| - 1].next.None?
  }

  /** What was still to be shown when page i was made. */
  ghost function Remaining(sites: Listings, q: Ask, pages: seq<Page>, i: nat): seq<string>
    requires i < |pages|
  {
    var tags := sites(i)(q.repo, q.chart);
    if i == 0 || pages[i - 1].tags == [] then tags else After(tags, Last(pages[i - 1]))
  }

  function Last(page: Page): string
    requires page.tags != []
  {
    page.tags[|page.tags| - 1]
  }

  /** A page with a link is full. */
  ghost predicate LinkedFull(q: Ask, page: Page) {
    page.next.Some? ==> page.tags != [] && |page.tags| == q.limit && ValidTag(Last(page))
  }

  ghost predicate PageShape(sites: Listings, q: Ask, pages: seq<Page>, i: nat)
    requires AllListed(sites) && q.limit >= 1 && i < |pages|
  {
    && (i > 0 ==> pages[i - 1].tags != [])
    && LinkedFull(q, pages[i])
    && var rest := Remaining(sites, q, pages, i);
    && AllValid(rest) && Sorted(rest)
    && pages[i] == PageOf(rest, q.repo + "/" + q.chart, q.n, q.limit)
  }

  lemma {:induction false} CrawlShape(sites: Listings, q: Ask, pages: seq<Page>, i: nat)
    requires AllListed(sites) && AskOk(q) && Crawl(sites, q, pages) && i < |pages|
    ensures PageShape(sites, q, pages, i)
  {
    hide Request, Parse, Print, After, WellNamed, Atoi, LinkTarget, FirstTarget;
    assert Listed(sites(i));
    var tags := sites(i)(q.repo, q.chart);
    if i == 0 {
      FirstAnswer(sites(0), q.repo, q.chart, q.n, q.limit);
    } else {
      CrawlShape(sites, q, pages, i - 1);
      assert Followed(sites(i), pages[i - 1], pages[i]);
      LinkOfPage(Remaining(sites, q, pages, i - 1), q, pages[i - 1]);
      NextAnswer(sites(i), q.repo, q.chart, q.n, q.limit, Last(pages[i - 1]));
      AfterKeeps(tags, Last(pages[i - 1]));
    }
    LinkOfPage(Remaining(sites, q, pages, i), q, pages[i]);
  }

  lemma LinkOfPage(rest: seq<string>, q: Ask, page: Page)
    requires AllValid(rest) && q.limit >= 1 && page == PageOf(rest, q.repo + "/" + q.chart, q.n, q.limit)
    ensures LinkedFull(q, page)
    ensures page.next.Some? <==> |rest| > q.limit
    ensures page.next.Some?
        ==> AllBytes(Last(page)) && page.next.value == LinkTarget(q.repo + "/" + q.chart, q.n, Last(page))
    ensures page.tags == if |rest| > q.limit then rest[..q.limit] else rest
  {
  }

  /** Each page is the front of what remained, with a link exactly if more was left. */
  lemma PageFacts(sites: Listings, q: Ask, pages: seq<Page>, i: nat)
    requires AllListed(sites) && AskOk(q) && Crawl(sites, q, pages) && i < |pages|
    ensures q.limit >= 1 && (i > 0 ==> pages[i - 1].tags != [] && pages[i - 1].next.Some?)
    ensures var rest := Remaining(sites, q, pages, i);
      && Sorted(rest)
      && pages[i].tags == (if |rest| > q.limit then rest[..q.limit] else rest)
      && (pages[i].next.Some? <==> |rest| > q.limit)
  {
    hide Request, Parse, After, WellNamed, Atoi, LinkTarget, FirstTarget;
    CrawlShape(sites, q, pages, i);
    assert i > 0 ==> Followed(sites(i), pages[i - 1], pages[i]);
    LinkOfPage(Remaining(sites, q, pages, i), q, pages[i]);
  }

  /** On a page every tag is at most its last, and beyond the last of the page before. */
  lemma PageBounds(sites: Listings, q: Ask, pages: seq<Page>, i: nat, t: string)
    requires AllListed(sites) && AskOk(q) && Crawl(sites, q, pages) && i < |pages| && t in pages[i].tags
    ensures pages[i].tags != [] && Leq(t, Last(pages[i]))
    ensures i > 0 ==> pages[i - 1].tags != [] && !Leq(t, Last(pages[i - 1]))
  {
    hide Request, Parse, After, WellNamed, Atoi, LinkTarget, FirstTarget, Crawl, Leq, AskOk;
    assert AskOk(q) ==> q.limit >= 1 by { LimitPositive(q); }
    CrawlShape(sites, q, pages, i);
    var rest := Remaining(sites, q, pages, i);
    LinkOfPage(rest, q, pages[i]);
    LeqTotal(t, t);
    if i > 0 {
      assert Listed(sites(i));
      AfterKeeps(sites(i)(q.repo, q.chart), Last(pages[i - 1]));
    }
  }

  lemma LimitPositive(q: Ask)
    requires AskOk(q)
    ensures q.limit >= 1
  {
  }

  /** Pages go up in byte order, whatever the listing does between requests: no tag recurs. */
  lemma {:induction false} PagesAscend(sites: Listings, q: Ask, pages: seq<Page>, i: nat, j: nat, t: string, u: string)
    requires AllListed(sites) && AskOk(q) && Crawl(sites, q, pages)
    requires i < j < |pages| && t in pages[i].tags && u in pages[j].tags
    ensures Less(t, u)
    decreases j
  {
    hide Request, Parse, After, WellNamed, Atoi, LinkTarget, FirstTarget, Crawl, Leq, AskOk;
    LimitPositive(q);
    PageBounds(sites, q, pages, j, u);
    var bound := Last(pages[j - 1]);
    if i < j - 1 {
      PagesAscend(sites, q, pages, i, j - 1, t, bound);
    } else {
      PageBounds(sites, q, pages, i, t);
    }
    LeqTotal(u, bound);
    LeqTransitive(t, bound, u);
  }

  /** Within a page the tags are in byte order too. */
  lemma PageSorted(sites: Listings, q: Ask, pages: seq<Page>, i: nat)
    requires AllListed(sites) && AskOk(q) && Crawl(sites, q, pages) && i < |pages|
    ensures Sorted(pages[i].tags)
  {
    hide Request, Parse, After, WellNamed, Atoi, LinkTarget, FirstTarget, Crawl, Leq, AskOk;
    LimitPositive(q);
    CrawlShape(sites, q, pages, i);
    LinkOfPage(Remaining(sites, q, pages, i), q, pages[i]);
  }

  /** A tag listed throughout has been shown by page i, or is still to come. */
  lemma {:induction false} ShownOrAhead(sites: Listings, q: Ask, pages: seq<Page>, i: nat, t: string)
    requires AllListed(sites) && AskOk(q) && Crawl(sites, q, pages) && i < |pages|
    requires forall k | 0 <= k <= i :: t in sites(k)(q.repo, q.chart)
    ensures (exists k :: 0 <= k <= i && t in pages[k].tags)
         || (pages[i].next.Some? && pages[i].tags != [] && !Leq(t, Last(pages[i])))
  {
    hide Request, Parse, After, WellNamed, Atoi, LinkTarget, FirstTarget, Crawl, Leq, AskOk;
    LimitPositive(q);
    CrawlShape(sites, q, pages, i);
    var rest := Remaining(sites, q, pages, i);
    LinkOfPage(rest, q, pages[i]);
    if i > 0 {
      ShownOrAhead(sites, q, pages, i - 1, t);
      assert Listed(sites(i));
      AfterKeeps(sites(i)(q.repo, q.chart), Last(pages[i - 1]));
    }
    if t in rest && t !in pages[i].tags {
      var k :| 0 <= k < |rest| && rest[k] == t;
      assert Leq(Last(pages[i]), t) && Last(pages[i]) in pages[i].tags;
      if Leq(t, Last(pages[i])) {
        LeqAntisymmetric(t, Last(pages[i]));
      }
    }
  }

  /** A finished crawl has shown every tag that was listed throughout. */
  lemma CrawlCovers(sites: Listings, q: Ask, pages: seq<Page>, t: string)
    requires AllListed(sites) && AskOk(q) && Crawl(sites, q, pages) && Complete(pages)
    requires forall k | 0 <= k < |pages| :: t in sites(k)(q.repo, q.chart)
    ensures exists k :: 0 <= k < |pages| && t in pages[k].tags
  {
    ShownOrAhead(sites, q, pages, |pages| - 1, t);
  }

  /** A crawl that is not finished can go on. */
  lemma CrawlGoesOn(sites: Listings, q: Ask, pages: seq<Page>) returns (next: Page)
    requires AllListed(sites) && AskOk(q) && Crawl(sites, q, pages) && !Complete(pages)
    ensures Crawl(sites, q, pages + [next])
  {
    hide Request, Parse, After, WellNamed, Atoi, LinkTarget, FirstTarget, AskOk;
    LimitPositive(q);
    var i := |pages|;
    CrawlShape(sites, q, pages, i - 1);
    LinkOfPage(Remaining(sites, q, pages, i - 1), q, pages[i - 1]);
    NextAnswerFor(sites(i), q, Last(pages[i - 1]));
    next := Request(sites(i), pages[i - 1].next.value).value;
    var all := pages + [next];
    forall j | 1 <= j < |all| ensures Followed(sites(j), all[j - 1], all[j]) {
      assert j < i ==> Followed(sites(j), pages[j - 1], pages[j]);
    }
  }

  lemma NextAnswerFor(site: Listing, q: Ask, last: string)
    requires Listed(site) && AskOk(q) && ValidTag(last)
    ensures AllBytes(last) && Request(site, LinkTarget(q.repo + "/" + q.chart, q.n, last)).Ok?
  {
    NextAnswer(site, q.repo, q.chart, q.n, q.limit, last);
  }

  // The listing standing still.

  ghost function Still(site: Listing): Listings {
    (t: nat) => site
  }

  lemma {:induction false} AfterPast(rest: seq<string>, k: nat, last: string)
    requires k <= |rest| && forall i | 0 <= i < k :: Leq(rest[i], last)
    ensures After(rest, last) == After(rest[k..], last)
  {
    if k > 0 {
      AfterPast(rest[1..], k - 1, last);
      assert rest[1..][k - 1..] == rest[k..];
    }
  }

  /** What remains after the first page of limit tags. */
  function Onward(rest: seq<string>, limit: nat): seq<string>
    requires 1 <= limit < |rest|
  {
    After(rest[limit..], rest[limit - 1])
  }

  lemma StillAfter(site: Listing, q: Ask, pages: seq<Page>, i: nat)
    requires Listed(site) && AskOk(q) && Crawl(Still(site), q, pages) && i < |pages| && pages[i].tags != []
    ensures i > 0 ==> pages[i - 1].tags != []
    ensures After(site(q.repo, q.chart), Last(pages[i])) == After(Remaining(Still(site), q, pages, i), Last(pages[i]))
  {
    hide Request, Parse, After, WellNamed, Atoi, LinkTarget, FirstTarget, AskOk, Leq, Crawl;
    if i > 0 {
      var last := Last(pages[i]);
      PageBounds(Still(site), q, pages, i, last);
      LeqTotal(Last(pages[i - 1]), last);
      AfterTwice(site(q.repo, q.chart), Last(pages[i - 1]), last);
    }
  }

  predicate MovesOn(before: seq<string>, after: seq<string>, limit: nat) {
    1 <= limit < |before| && after == Onward(before, limit)
  }

  lemma StillRemaining(site: Listing, q: Ask, pages: seq<Page>, i: nat)
    requires Listed(site) && AskOk(q) && Crawl(Still(site), q, pages) && 1 <= i < |pages|
    ensures pages[i - 1].tags != [] && (i > 1 ==> pages[i - 2].tags != [])
    ensures MovesOn(Remaining(Still(site), q, pages, i - 1), Remaining(Still(site), q, pages, i), q.limit)
  {
    hide Request, Parse, After, WellNamed, Atoi, LinkTarget, FirstTarget, AskOk, Leq;
    hide Crawl, PageOf;
    var sites := Still(site);
    PageFacts(sites, q, pages, i - 1);
    PageFacts(sites, q, pages, i);
    var before, last := Remaining(sites, q, pages, i - 1), Last(pages[i - 1]);
    StillAfter(site, q, pages, i - 1);
    LeqTotal(last, last);
    AfterPast(before, q.limit, last);
  }

  lemma {:induction false} StillShrinks(site: Listing, q: Ask, pages: seq<Page>, i: nat)
    requires Listed(site) && AskOk(q) && Crawl(Still(site), q, pages) && i < |pages|
    ensures i > 0 ==> pages[i - 1].tags != []
    ensures |Remaining(Still(site), q, pages, i)| <= |site(q.repo, q.chart)| - i * q.limit
  {
    hide Request, Parse, After, WellNamed, Atoi, LinkTarget, FirstTarget, AskOk, Leq, Crawl;
    if i > 0 {
      StillRemaining(site, q, pages, i);
      StillShrinks(site, q, pages, i - 1);
      var before := Remaining(Still(site), q, pages, i - 1);
      AfterSuffix(before[q.limit..], before[q.limit - 1]);
      assert i * q.limit == (i - 1) * q.limit + q.limit;
    }
  }

  function Ceil(a: nat, b: nat): nat
    requires b >= 1
  {
    (a + b - 1) / b
  }

  /** A crawl of a listing standing still takes at most ceil(|tags| / n) requests, one for an empty listing. */
  lemma CrawlBounded(site: Listing, q: Ask, pages: seq<Page>)
    requires Listed(site) && AskOk(q) && Crawl(Still(site), q, pages)
    ensures q.limit >= 1
    ensures |pages| == 1 || |pages| <= Ceil(|site(q.repo, q.chart)|, q.limit)
    ensures |pages| <= |site(q.repo, q.chart)| + 1
  {
    LimitPositive(q);
    if |pages| > 1 {
      var k := |pages| - 1;
      StillShrinks(site, q, pages, k - 1);
      StillRemaining(site, q, pages, k);
      CeilAbove(|site(q.repo, q.chart)|, k, q.limit);
    }
  }

  lemma CeilAbove(a: nat, k: nat, b: nat)
    requires b >= 1 && k >= 1 && b < a - (k - 1) * b
    ensures k + 1 <= Ceil(a, b)
    ensures k <= a
  {
  }

  /** Following links from the first page ends. */
  lemma CrawlFinishes(site: Listing, q: Ask) returns (pages: seq<Page>)
    requires Listed(site) && AskOk(q)
    ensures Crawl(Still(site), q, pages) && Complete(pages)
  {
    hide Request, Parse, After, WellNamed, Atoi, LinkTarget, FirstTarget, Leq, AskOk;
    FirstAnswerFor(site, q);
    var first := Request(site, FirstTarget(q.repo, q.chart, q.n)).value;
    pages := Finish(site, q, [first]);
  }

  lemma FirstAnswerFor(site: Listing, q: Ask)
    requires Listed(site) && AskOk(q)
    ensures Request(site, FirstTarget(q.repo, q.chart, q.n)).Ok?
  {
    FirstAnswer(site, q.repo, q.chart, q.n, q.limit);
  }

  lemma {:induction false} Finish(site: Listing, q: Ask, start: seq<Page>) returns (pages: seq<Page>)
    requires Listed(site) && AskOk(q) && Crawl(Still(site), q, start)
    ensures Crawl(Still(site), q, pages) && Complete(pages)
    decreases |site(q.repo, q.chart)| + 1 - |start|
  {
    hide Crawl;
    if Complete(start) {
      pages := start;
    } else {
      var next := CrawlGoesOn(Still(site), q, start);
      CrawlBounded(site, q, start + [next]);
      assert |start| >= 1 by { CrawlNotEmpty(Still(site), q, start); }
      pages := Finish(site, q, start + [next]);
    }
  }

  lemma CrawlNotEmpty(sites: Listings, q: Ask, pages: seq<Page>)
    requires AllListed(sites) && Crawl(sites, q, pages)
    ensures |pages| >= 1
  {
  }

  // What is shown in all.

  ghost function Shown(pages: seq<Page>): seq<string> {
    if pages == [] then [] else pages[0].tags + Shown(pages[1..])
  }

  /** No page boundary falls between two equal tags. */
  predicate Aligned(rest: seq<string>, limit: nat)
    requires limit >= 1
  {
    |rest| <= limit || (rest[limit - 1] != rest[limit] && Aligned(rest[limit..], limit))
  }

  lemma OnwardWhole(rest: seq<string>, limit: nat)
    requires Sorted(rest) && 1 <= limit < |rest|
    ensures |Onward(rest, limit)| <= |rest| - limit && Sorted(Onward(rest, limit))
    ensures Onward(rest, limit) == rest[limit..] <==> rest[limit - 1] != rest[limit]
    ensures rest[limit - 1] == rest[limit] ==> |Onward(rest, limit)| < |rest| - limit
  {
    var tail, last := rest[limit..], rest[limit - 1];
    AfterSuffix(tail, last);
    AfterKeeps(tail, last);
    LeqTotal(last, last);
    assert tail[0] == rest[limit] && Leq(last, tail[0]);
    if Leq(tail[0], last) {
      LeqAntisymmetric(tail[0], last);
      AfterSuffix(tail[1..], last);
    }
  }

  lemma {:induction false} ShownFrom(site: Listing, q: Ask, pages: seq<Page>, i: nat)
    requires Listed(site) && AskOk(q) && Crawl(Still(site), q, pages) && Complete(pages) && i < |pages|
    ensures i > 0 ==> pages[i - 1].tags != []
    ensures q.limit >= 1
    ensures var rest := Remaining(Still(site), q, pages, i);
      |Shown(pages[i..])| <= |rest| && (Shown(pages[i..]) == rest <==> Aligned(rest, q.limit))
    decreases |pages| - i
  {
    hide Request, Parse, After, WellNamed, Atoi, LinkTarget, FirstTarget, AskOk, Leq, Crawl, Onward;
    LimitPositive(q);
    var sites := Still(site);
    CrawlShape(sites, q, pages, i);
    var rest := Remaining(sites, q, pages, i);
    LinkOfPage(rest, q, pages[i]);
    assert pages[i..][1..] == pages[i + 1..];
    if |rest| > q.limit {
      StillRemaining(site, q, pages, i + 1);
      ShownFrom(site, q, pages, i + 1);
      OnwardWhole(rest, q.limit);
      assert rest == rest[..q.limit] + rest[q.limit..];
      var shown := Shown(pages[i + 1..]);
      assert Shown(pages[i..]) == rest[..q.limit] + shown;
      assert rest[..q.limit] + shown == rest ==> shown == rest[q.limit..] by {
        assert (rest[..q.limit] + shown)[q.limit..] == shown;
      }
    } else {
      assert i + 1 == |pages| by {
        if i + 1 < |pages| { StillRemaining(site, q, pages, i + 1); }
      }
    }
  }

  /** The pages of a finished crawl put together are the listing exactly when no page boundary
      falls between two equal tags. */
  lemma CrawlConcatenates(site: Listing, q: Ask, pages: seq<Page>)
    requires Listed(site) && AskOk(q) && Crawl(Still(site), q, pages) && Complete(pages)
    ensures q.limit >= 1
    ensures Shown(pages) == site(q.repo, q.chart) <==> Aligned(site(q.repo, q.chart), q.limit)
  {
    ShownFrom(site, q, pages, 0);
    assert pages[0..] == pages;
  }

  lemma {:induction false} DistinctAligned(tags: seq<string>, limit: nat)
    requires Distinct(tags) && limit >= 1
    ensures Aligned(tags, limit)
  {
    if |tags| > limit {
      DistinctAligned(tags[limit..], limit);
    }
  }

  /** A page size of one puts a boundary between any two tags. */
  lemma {:induction false} OneAligned(tags: seq<string>)
    requires Sorted(tags) && Aligned(tags, 1)
    ensures Distinct(tags)
  {
    hide Leq;
    if |tags| > 1 {
      OneAligned(tags[1..]);
      forall j | 0 < j < |tags| ensures tags[0] != tags[j] {
        if tags[0] == tags[j] {
          LeqTotal(tags[0], tags[0]);
          LeqAntisymmetric(tags[0], tags[1]);
        }
      }
      assert forall i, j | 0 < i < j < |tags| :: tags[i] == tags[1..][i - 1] && tags[j] == tags[1..][j - 1];
    }
  }
}
