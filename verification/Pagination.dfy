/** Pages of tags and the links between them (handler.go's handleTags). */
module Pagination {
  import opened Wrappers
  import opened Text
  import opened Tagging
  import opened Upstreams
  import opened TagLists
  import opened Queries
  import opened Routes

  /** One response: its tags, and where its Link header points. */
  datatype Page = Page(tags: seq<string>, next: Option<string>)

  /** The listing without the tags up to and including last. */
  function After(tags: seq<string>, last: string): seq<string> {
    if tags != [] && Leq(tags[0], last) then After(tags[1..], last) else tags
  }

  function LinkTarget(name: string, n: string, last: string): string
    requires AllBytes(last)
  {
    "/v2/" + name + "/tags/list" + ("?" + ("n=" + n + "&last=" + QueryEscape(last)))
  }

  ghost predicate AllValid(tags: seq<string>) {
    forall i | 0 <= i < |tags| :: ValidTag(tags[i])
  }

  /** The page that a list of remaining tags gives rise to. */
  function PageOf(rest: seq<string>, name: string, n: string, limit: nat): Page
    requires AllValid(rest)
  {
    if |rest| <= limit then Page(rest, None)
    else if limit == 0 then Page([], None)
    else
      ValidTagEscape(rest[limit - 1]);
      Page(rest[..limit], Some(LinkTarget(name, n, rest[limit - 1])))
  }

  lemma {:induction false} AfterValid(tags: seq<string>, last: string)
    requires AllValid(tags)
    ensures AllValid(After(tags, last))
  {
    if tags != [] {
      AfterValid(tags[1..], last);
    }
  }

  function HandleTags(tags: seq<string>, name: string, query: string): Result<Page, string>
    requires AllValid(tags)
  {
    var last := QueryGet(query, "last");
    AfterValid(tags, last);
    var rest := if last == "" then tags else After(tags, last);
    var n := QueryGet(query, "n");
    if n == "" then Ok(Page(rest, None))
    else
      var limit := Atoi(n);
      if limit.None? || limit.value < 0 then Err("invalid n parameter") else Ok(PageOf(rest, name, n, limit.value))
  }

  /** The handler: reslice past last, then to the page size. */
  method ServeTags(listed: seq<string>, name: string, query: string) returns (r: Result<Page, string>)
    requires AllValid(listed)
    ensures r == HandleTags(listed, name, query)
  {
    var tags := listed;
    var last := QueryGet(query, "last");
    AfterValid(listed, last);
    if last != "" {
      while |tags| > 0 && Leq(tags[0], last)
        invariant After(tags, last) == After(listed, last)
      {
        tags := tags[1..];
      }
    }
    var truncated := false;
    var n := QueryGet(query, "n");
    if n != "" {
      var limit := Atoi(n);
      if limit.None? || limit.value < 0 {
        return Err("invalid n parameter");
      }
      if |tags| > limit.value {
        tags := tags[..limit.value];
        truncated := true;
      }
    }
    var next: Option<string> := None;
    if truncated && |tags| > 0 {
      ValidTagEscape(tags[|tags| - 1]);
      next := Some(LinkTarget(name, n, tags[|tags| - 1]));
    }
    return Ok(Page(tags, next));
  }

  /** Without a page size all that is beyond last is shown, without a link; with one that is no 64-bit number or below
      zero nothing is. */
  lemma UnpagedExactly(tags: seq<string>, name: string, query: string)
    requires AllValid(tags) && Sorted(tags)
    ensures var r, n, last := HandleTags(tags, name, query), QueryGet(query, "n"), QueryGet(query, "last");
      && (r.Err? <==> n != "" && (Atoi(n).None? || Atoi(n).value < 0))
      && (n == "" && last == "" ==> r == Ok(Page(tags, None)))
      && (n == "" ==>
            && r.Ok? && r.value.next.None? && Sorted(r.value.tags)
            && forall t :: t in r.value.tags <==> t in tags && (last == "" || !Leq(t, last)))
  {
    hide QueryGet, Atoi, Leq;
    AfterKeeps(tags, QueryGet(query, "last"));
  }

  // What After leaves.

  lemma {:induction false} AfterSuffix(tags: seq<string>, last: string)
    ensures |After(tags, last)| <= |tags| && After(tags, last) == tags[|tags| - |After(tags, last)|..]
  {
    if tags != [] && Leq(tags[0], last) {
      AfterSuffix(tags[1..], last);
    }
  }

  /** Of a sorted listing exactly the tags beyond last remain. */
  lemma {:induction false} AfterKeeps(tags: seq<string>, last: string)
    requires Sorted(tags)
    ensures Sorted(After(tags, last))
    ensures forall t :: t in After(tags, last) <==> t in tags && !Leq(t, last)
  {
    if tags != [] {
      if Leq(tags[0], last) {
        AfterKeeps(tags[1..], last);
        assert tags == [tags[0]] + tags[1..];
      } else {
        forall t | t in tags ensures !Leq(t, last) {
          var i :| 0 <= i < |tags| && tags[i] == t;
          if Leq(t, last) {
            LeqTotal(t, t);
            LeqTransitive(tags[0], t, last);
          }
        }
      }
    }
  }

  lemma {:induction false} AfterTwice(tags: seq<string>, x: string, y: string)
    requires Leq(x, y)
    ensures After(After(tags, x), y) == After(tags, y)
  {
    if tags != [] && Leq(tags[0], x) {
      LeqTransitive(tags[0], x, y);
      AfterTwice(tags[1..], x, y);
    }
  }

  // Following links.

  /** The tags every repo and chart lists at one moment. */
  type Listing = (string, string) -> seq<string>

  ghost predicate Listed(site: Listing) {
    forall repo, chart :: Sorted(site(repo, chart)) && AllValid(site(repo, chart))
  }

  /** A request for a URL path and query. */
  function Request(site: Listing, target: string): Result<Page, string>
    requires forall repo, chart :: AllValid(site(repo, chart))
  {
    var cut := Cut(target, '?');
    var path := if cut.Some? then cut.value.0 else target;
    var query := if cut.Some? then cut.value.1 else "";
    match Parse(path)
    case ListTags(repo, chart) => HandleTags(site(repo, chart), repo + "/" + chart, query)
    case _ => Err("not a tag listing")
  }

  /** Where a crawl with page size n begins. */
  function FirstTarget(repo: string, chart: string, n: string): string {
    Print(ListTags(repo, chart)) + ("?" + ("n=" + n))
  }

  /** A page size: decimal digits of a positive 64-bit number. */
  ghost predicate PageSize(n: string, limit: nat) {
    n != "" && AllDigits(n) && Atoi(n) == Some(limit) && limit >= 1
  }

  /** Every number from 1 up that fits 64 bits is a page size, written in decimal. */
  lemma ShownSize(limit: nat)
    requires 1 <= limit < 0x8000_0000_0000_0000
    ensures PageSize(Show(limit), limit)
  {
    hide Show, Atoi;
    AtoiShow(limit);
  }

  lemma {:induction false} NoQuestionMark(parts: seq<string>)
    requires forall p | p in parts :: '?' !in p
    ensures '?' !in Join(parts, '/')
  {
    if |parts| > 1 {
      NoQuestionMark(parts[1..]);
    }
  }

  lemma ListPath(repo: string, chart: string, query: string)
    requires WellNamed(repo, chart)
    ensures Print(ListTags(repo, chart)) == "/v2/" + (repo + "/" + chart) + "/tags/list"
    ensures Cut(Print(ListTags(repo, chart)) + ("?" + query), '?') == Some((Print(ListTags(repo, chart)), query))
    ensures Parse(Print(ListTags(repo, chart))) == ListTags(repo, chart)
  {
    hide Split, Join, Parse, ValidSegment, Cut, Print;
    var route := ListTags(repo, chart);
    var path := Print(route);
    assert path == "/v2/" + (repo + "/" + chart) + "/tags/list" by { ListText(repo, chart); }
    ParsePrint(route);
    NoMarkInPath(repo, chart);
    CutAt(path, query, '?');
    assert path + ("?" + query) == path + ['?'] + query;
  }

  lemma ListText(repo: string, chart: string)
    ensures Print(ListTags(repo, chart)) == "/v2/" + (repo + "/" + chart) + "/tags/list"
  {
  }

  lemma NoMarkInPath(repo: string, chart: string)
    requires WellNamed(repo, chart)
    ensures '?' !in Print(ListTags(repo, chart))
  {
    hide Split, Join, ValidSegment, Print;
    var route := ListTags(repo, chart);
    PrintedSegments(route);
    var segs := Split(repo, '/') + [chart] + Suffix(route);
    forall p | p in segs ensures '?' !in p {
      if p in Split(repo, '/') + [chart] { NoMarkInSegment(p); }
    }
    NoQuestionMark(segs);
  }

  lemma NoMarkInSegment(seg: string)
    requires ValidSegment(seg)
    ensures '?' !in seg
  {
  }

  lemma DigitsUnreserved(n: string)
    requires AllDigits(n)
    ensures AllUnreserved(n)
  {
  }

  /** The first request is answered with the first page. */
  lemma FirstAnswer(site: Listing, repo: string, chart: string, n: string, limit: nat)
    requires Listed(site) && WellNamed(repo, chart) && PageSize(n, limit)
    ensures Request(site, FirstTarget(repo, chart, n)) == Ok(PageOf(site(repo, chart), repo + "/" + chart, n, limit))
  {
    hide Parse, Print, Cut, QueryGet, After, WellNamed, Atoi;
    ListPath(repo, chart, "n=" + n);
    DigitsUnreserved(n);
    PlainUnescape(n);
    UnreservedEscaped(n);
    FirstQuery(n);
  }

  /** Following a link asks for exactly the tags beyond the last one shown, at the same page size. */
  lemma NextAnswer(site: Listing, repo: string, chart: string, n: string, limit: nat, last: string)
    requires Listed(site) && WellNamed(repo, chart) && PageSize(n, limit) && ValidTag(last)
    ensures AllBytes(last) && AllValid(After(site(repo, chart), last))
    ensures Request(site, LinkTarget(repo + "/" + chart, n, last))
         == Ok(PageOf(After(site(repo, chart), last), repo + "/" + chart, n, limit))
  {
    hide Parse, Print, Cut, QueryGet, After, WellNamed, Atoi;
    ValidTagEscape(last);
    AfterValid(site(repo, chart), last);
    ListPath(repo, chart, "n=" + n + "&last=" + last);
    DigitsUnreserved(n);
    PlainUnescape(n);
    UnreservedEscaped(n);
    LinkQuery(n, last);
  }

  lemma AcceptedSize(n: string)
    requires Atoi(n).Some? && Atoi(n).value >= 1
    ensures n != "" && (n[0] == '+' || AllDigits(n))
    ensures n[0] == '+' ==> n[1..] != "" && AllDigits(n[1..])
  {
  }

  /** The link repeats n as the handler read it, not escaped: of the texts accepted as a page size
      it leads on exactly for those without a plus sign, which the next request reads as a space. */
  lemma LinkLeadsOnIff(site: Listing, repo: string, chart: string, n: string, last: string)
    requires Listed(site) && WellNamed(repo, chart) && ValidTag(last)
    requires Atoi(n).Some? && Atoi(n).value >= 1
    ensures AllBytes(last)
    ensures Request(site, LinkTarget(repo + "/" + chart, n, last)).Ok? <==> n[0] != '+'
  {
    hide Parse, Print, Cut, QueryGet, After, WellNamed, Atoi;
    AcceptedSize(n);
    ValidTagEscape(last);
    if n[0] != '+' {
      NextAnswer(site, repo, chart, n, Atoi(n).value, last);
    } else {
      PlusQuery(n, last);
      ListPath(repo, chart, "n=" + n + "&last=" + last);
    }
  }

  lemma PlusQuery(n: string, last: string)
    requires n != "" && n[0] == '+' && AllDigits(n[1..]) && AllUnreserved(last)
    ensures QueryGet("n=" + n + "&last=" + last, "n") != "" && Atoi(QueryGet("n=" + n + "&last=" + last, "n")).None?
  {
    hide QueryGet;
    DigitsUnreserved(n[1..]);
    PlainUnescape(n[1..]);
    assert forall i | 1 <= i < |n| :: n[i] == n[1..][i - 1];
    LinkQuery(n, last);
    assert Atoi([' '] + n[1..]).None?;
  }

  /** An input for that: n=%2B1 is a page size of one, answered with a page whose link is then refused. */
  lemma PlusSizeStrands(site: Listing, repo: string, chart: string)
    requires Listed(site) && WellNamed(repo, chart) && |site(repo, chart)| >= 2
    ensures var r := Request(site, FirstTarget(repo, chart, "%2B1"));
      && r.Ok? && r.value.tags == site(repo, chart)[..1]
      && r.value.next.Some? && Request(site, r.value.next.value).Err?
  {
    hide Parse, Print, Cut, QueryGet, After, WellNamed, Atoi, QueryUnescape;
    ListPath(repo, chart, "n=" + "%2B1");
    EscapedPlusOne();
    FirstQuery("%2B1");
    LinkLeadsOnIff(site, repo, chart, "+1", site(repo, chart)[0]);
  }

  /** A page size of zero, however spelt and wherever the page begins, shows nothing and leads nowhere. */
  lemma ZeroPage(tags: seq<string>, name: string, query: string)
    requires AllValid(tags) && Atoi(QueryGet(query, "n")) == Some(0)
    ensures HandleTags(tags, name, query) == Ok(Page([], None))
  {
    hide QueryGet, After;
  }

  /** The listing of an index's entries is one that can be paged. */
  lemma TagListPaged(entries: seq<IndexEntry>)
    ensures Sorted(TagList(entries)) && AllValid(TagList(entries))
  {
    hide ValidTag, TagList;
    var tags := TagList(entries);
    forall i | 0 <= i < |tags| ensures ValidTag(tags[i]) {
      assert tags[i] in tags;
      ListedIff(entries, tags[i]);
    }
  }
}
