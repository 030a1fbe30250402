/** Request paths: handler.go's handleV2 and dispatch. */
module Routes {
  import opened Text
  import opened CacheInvariants

  datatype Route =
    | VersionCheck
    | ListTags(repo: string, chart: string)
    | GetManifest(repo: string, chart: string, reference: string)
    | GetBlob(repo: string, chart: string, digest: string)
    | Unsupported
    | NameInvalid

  predicate IsLowerAlnum(c: char) {
    'a' <= c <= 'z' || '0' <= c <= '9'
  }

  /** A registry-name segment: a port may follow the host, so ':' is admitted. */
  predicate ValidSegment(seg: string) {
    && seg != "" && IsLowerAlnum(seg[0]) && IsLowerAlnum(seg[|seg| - 1])
    && forall c | c in seg :: IsLowerAlnum(c) || c in "._:-"
  }

  /** [a-z0-9]([a-z0-9._:-]*[a-z0-9])? */
  lemma SegmentPattern(seg: string)
    ensures ValidSegment(seg) <==>
      || (exists c :: seg == [c] && ('a' <= c <= 'z' || '0' <= c <= '9'))
      || exists first, middle: string, last ::
          && seg == [first] + middle + [last]
          && ('a' <= first <= 'z' || '0' <= first <= '9') && ('a' <= last <= 'z' || '0' <= last <= '9')
          && forall c | c in middle ::
              'a' <= c <= 'z' || '0' <= c <= '9' || c == '.' || c == '_' || c == ':' || c == '-'
  {
    if ValidSegment(seg) {
      if |seg| == 1 {
        assert seg == [seg[0]];
      } else {
        var n := |seg| - 1;
        assert seg == [seg[0]] + seg[1..n] + [seg[n]];
        assert forall c | c in seg[1..n] :: c in seg;
      }
    }
    forall first, middle: string, last | seg == [first] + middle + [last]
      ensures seg[0] == first && seg[|seg| - 1] == last
      ensures forall c | c in seg :: c == first || c == last || c in middle
    {
    }
  }

  function TrimLeft(s: string, c: char): (r: string)
    ensures r == "" || r[0] != c
  {
    if s != "" && s[0] == c then TrimLeft(s[1..], c) else s
  }

  function TrimRight(s: string, c: char): (r: string)
    ensures r == "" || r[|r| - 1] != c
    ensures r <= s
  {
    if s != "" && s[|s| - 1] == c then TrimRight(s[..|s| - 1], c) else s
  }

  function Trim(s: string, c: char): string {
    TrimRight(TrimLeft(s, c), c)
  }

  /** What of the path is parsed: the part under /v2, without the slashes around it. */
  function Rest(path: string): string {
    Trim(TrimPrefix(path, "/v2"), '/')
  }

  /** The name must leave an upstream repo before the chart, all of valid segments. */
  predicate ValidName(name: seq<string>) {
    |name| >= 2 && forall seg | seg in name :: ValidSegment(seg)
  }

  function Repo(name: seq<string>): string
    requires |name| >= 2
  {
    Join(name[..|name| - 1], '/')
  }

  function Chart(name: seq<string>): string
    requires |name| >= 2
  {
    name[|name| - 1]
  }

  function Parse(path: string): Route {
    if Rest(path) == "" then VersionCheck else ParseSegments(Split(Rest(path), '/'))
  }

  function ParseSegments(segs: seq<string>): Route {
    var n := |segs|;
    if n < 2 then Unsupported
    else
      var kind, last, name := segs[n - 2], segs[n - 1], segs[..n - 2];
      if kind == "tags" && last == "list" then
        if ValidName(name) then ListTags(Repo(name), Chart(name)) else NameInvalid
      else if kind == "manifests" then
        if ValidName(name) then GetManifest(Repo(name), Chart(name), last) else NameInvalid
      else if kind == "blobs" then
        if ValidName(name) then GetBlob(Repo(name), Chart(name), last) else NameInvalid
      else Unsupported
  }

  /** Segments that end as a registry request does. */
  predicate Shaped(segs: seq<string>) {
    && |segs| >= 2
    && (segs[|segs| - 2] == "manifests" || segs[|segs| - 2] == "blobs" || segs[|segs| - 2..] == ["tags", "list"])
  }

  /** A path other than /v2 itself is unsupported exactly if it does not end as a request, and refused for its name
      exactly if it does but leaves fewer than two segments for the name, or one that is not valid. */
  lemma RefusedExactly(path: string)
    ensures Parse(path).VersionCheck? <==> Rest(path) == ""
    ensures Rest(path) != "" ==>
      var segs := Split(Rest(path), '/');
      && (Parse(path).Unsupported? <==> !Shaped(segs))
      && (Parse(path).NameInvalid? <==>
            Shaped(segs) && (|segs| < 4 || exists i :: 0 <= i < |segs| - 2 && !ValidSegment(segs[i])))
  {
    hide Split, Rest, ValidSegment;
    var segs := Split(Rest(path), '/');
    if |segs| >= 2 {
      var n := |segs| - 2;
      assert segs[n..] == [segs[n], segs[n + 1]];
      assert forall i | 0 <= i < n :: segs[i] == segs[..n][i] && segs[i] in segs[..n];
    }
  }

  predicate AllSlashes(s: string) {
    forall i | 0 <= i < |s| :: s[i] == '/'
  }

  lemma {:induction false} TrimmedLeft(front: string, rest: string)
    requires AllSlashes(front) && (rest == "" || rest[0] != '/')
    ensures TrimLeft(front + rest, '/') == rest
  {
    if front == "" {
      assert front + rest == rest;
    } else {
      assert (front + rest)[1..] == front[1..] + rest;
      TrimmedLeft(front[1..], rest);
    }
  }

  lemma {:induction false} TrimmedRight(rest: string, back: string)
    requires AllSlashes(back) && (rest == "" || rest[|rest| - 1] != '/')
    ensures TrimRight(rest + back, '/') == rest
  {
    if back == "" {
      assert rest + back == rest;
    } else {
      var n := |back| - 1;
      assert (rest + back)[..|rest + back| - 1] == rest + back[..n];
      TrimmedRight(rest, back[..n]);
    }
  }

  /** Slashes around a path's segments are of no consequence. */
  lemma SlashesIgnored(front: string, rest: string, back: string)
    requires AllSlashes(front) && AllSlashes(back)
    requires rest != "" && rest[0] != '/' && rest[|rest| - 1] != '/'
    ensures Rest("/v2" + front + rest + back) == rest
  {
    assert "/v2" + front + rest + back == "/v2" + (front + (rest + back));
    assert TrimPrefix("/v2" + (front + (rest + back)), "/v2") == front + (rest + back);
    TrimmedLeft(front, rest + back);
    TrimmedRight(rest, back);
  }

  /** The handler: the name is cut off by case, then checked segment by segment. */
  method HandleV2(path: string) returns (route: Route)
    ensures route == Parse(path)
  {
    var rest := Trim(TrimPrefix(path, "/v2"), '/');
    if rest == "" {
      return VersionCheck;
    }
    var segs := Split(rest, '/');
    var n := |segs|;
    var name: seq<string>;
    var next: (string, string) -> Route;
    if n >= 2 && segs[n - 2] == "tags" && segs[n - 1] == "list" {
      name, next := segs[..n - 2], (repo, chart) => ListTags(repo, chart);
    } else if n >= 2 && segs[n - 2] == "manifests" {
      var reference := segs[n - 1];
      name, next := segs[..n - 2], (repo, chart) => GetManifest(repo, chart, reference);
    } else if n >= 2 && segs[n - 2] == "blobs" {
      var digest := segs[n - 1];
      name, next := segs[..n - 2], (repo, chart) => GetBlob(repo, chart, digest);
    } else {
      return Unsupported;
    }
    if |name| < 2 {
      return NameInvalid;
    }
    for i := 0 to |name|
      invariant forall seg | seg in name[..i] :: ValidSegment(seg)
    {
      if !ValidSegment(name[i]) {
        return NameInvalid;
      }
    }
    assert name[..|name|] == name;
    route := next(Repo(name), Chart(name));
  }

  // The paths clients write.

  /** The route addresses a chart. */
  predicate Addressed(route: Route) {
    route.ListTags? || route.GetManifest? || route.GetBlob?
  }

  function Print(route: Route): string
    requires Addressed(route)
  {
    "/v2/" + route.repo + "/" + route.chart + Tail(route)
  }

  /** What the path ends in. */
  function Suffix(route: Route): (suffix: seq<string>)
    requires Addressed(route)
    ensures |suffix| == 2
  {
    match route
    case ListTags(_, _) => ["tags", "list"]
    case GetManifest(_, _, reference) => ["manifests", reference]
    case GetBlob(_, _, digest) => ["blobs", digest]
  }

  predicate WellNamed(repo: string, chart: string) {
    ValidName(Split(repo, '/') + [chart])
  }

  /** Valid repo and chart segments and a reference that is one non-empty segment. */
  predicate WellFormed(route: Route) {
    && Addressed(route) && WellNamed(route.repo, route.chart)
    && var last := Suffix(route)[1]; last != "" && '/' !in last
  }

  lemma NoSlashInSegment(seg: string)
    requires ValidSegment(seg)
    ensures '/' !in seg && '@' !in seg
  {
  }

  /** What follows the name in a printed path. */
  function Tail(route: Route): string
    requires Addressed(route)
  {
    match route
    case ListTags(_, _) => "/tags/list"
    case GetManifest(_, _, reference) => "/manifests/" + reference
    case GetBlob(_, _, digest) => "/blobs/" + digest
  }

  lemma TailText(route: Route)
    requires Addressed(route)
    ensures Tail(route) == ['/'] + (Suffix(route)[0] + ['/'] + Suffix(route)[1])
  {
    match route
    case ListTags(_, _) =>
    case GetManifest(_, _, reference) => assert "/manifests/" == ['/'] + "manifests" + ['/'];
    case GetBlob(_, _, digest) => assert "/blobs/" == ['/'] + "blobs" + ['/'];
  }

  lemma NameText(repo: string, chart: string, tail: string)
    ensures "/v2/" + repo + "/" + chart + tail == "/v2/" + (repo + ['/'] + chart + tail)
  {
  }

  /** The segments of a printed path. */
  lemma PrintedSegments(route: Route)
    requires Addressed(route) && WellNamed(route.repo, route.chart)
    ensures Print(route) == "/v2/" + Join(Split(route.repo, '/') + [route.chart] + Suffix(route), '/')
  {
    hide Join, Split, WellNamed, Tail, Suffix;
    var name, suffix := Split(route.repo, '/'), Suffix(route);
    JoinSplit(route.repo, '/');
    JoinShort(route.chart, suffix[0], suffix[1], '/');
    JoinAppend(name, [route.chart], '/');
    JoinAppend(name + [route.chart], suffix, '/');
    assert suffix == [suffix[0], suffix[1]];
    TailText(route);
    NameText(route.repo, route.chart, Tail(route));
    Reassociate(route.repo + ['/'] + route.chart, ['/'], suffix[0] + ['/'] + suffix[1]);
  }

  lemma Reassociate(a: string, b: string, c: string)
    ensures a + (b + c) == a + b + c
  {
  }

  lemma JoinShort(one: string, a: string, b: string, c: char)
    ensures Join([one], c) == one && Join([a, b], c) == a + [c] + b
  {
  }

  lemma TrimNothing(s: string, c: char)
    requires s != "" && s[0] != c && s[|s| - 1] != c
    ensures Trim(s, c) == s && Trim([c] + s, c) == s
  {
  }

  lemma SegmentsParsed(route: Route)
    requires Addressed(route) && WellNamed(route.repo, route.chart)
    ensures ParseSegments(Split(route.repo, '/') + [route.chart] + Suffix(route)) == route
  {
    hide Join, Split, ValidSegment;
    var name := Split(route.repo, '/') + [route.chart];
    var segs := name + Suffix(route);
    assert segs[..|segs| - 2] == name;
    assert name[..|name| - 1] == Split(route.repo, '/');
    JoinSplit(route.repo, '/');
  }

  /** Printing any well-formed route and parsing the path yields the route. */
  lemma ParsePrint(route: Route)
    requires WellFormed(route)
    ensures Parse(Print(route)) == route
  {
    hide Join, Split, ValidSegment, ParseSegments, Print, Trim;
    var name := Split(route.repo, '/') + [route.chart];
    var segs := name + Suffix(route);
    var joined := Join(segs, '/');
    PrintedSegments(route);
    forall seg | seg in segs ensures '/' !in seg {
      if seg in name {
        NoSlashInSegment(seg);
      }
    }
    SplitJoin(segs, '/');
    SegmentNotEmpty(name[0]);
    JoinEnds(segs, '/');
    TrimNothing(joined, '/');
    assert TrimPrefix(Print(route), "/v2") == ['/'] + joined;
    SegmentsParsed(route);
  }

  lemma SegmentNotEmpty(seg: string)
    requires ValidSegment(seg)
    ensures seg != "" && seg[0] != '/'
  {
  }

  /** The first and last characters of a joined text. */
  lemma {:induction false} JoinEnds(parts: seq<string>, c: char)
    requires |parts| >= 1 && parts[0] != "" && parts[|parts| - 1] != ""
    ensures var s := Join(parts, c);
      s != "" && s[0] == parts[0][0] && s[|s| - 1] == parts[|parts| - 1][|parts[|parts| - 1]| - 1]
  {
    if |parts| > 1 {
      JoinAppend(parts[..|parts| - 1], [parts[|parts| - 1]], c);
      assert parts[..|parts| - 1] + [parts[|parts| - 1]] == parts;
    }
  }

  lemma SegmentsNamed(segs: seq<string>)
    requires Addressed(ParseSegments(segs)) && forall p | p in segs :: '/' !in p
    ensures var route := ParseSegments(segs);
      && WellNamed(route.repo, route.chart) && NameOk(route.repo, route.chart)
      && segs == Split(route.repo, '/') + [route.chart] + Suffix(route)
  {
    hide Join, Split, ValidSegment;
    var name, route := segs[..|segs| - 2], ParseSegments(segs);
    var repoSegs := name[..|name| - 1];
    forall seg | seg in name ensures '@' !in seg {
      NoSlashInSegment(seg);
    }
    SplitJoin(repoSegs, '/');
    assert Split(route.repo, '/') + [route.chart] == name;
    assert segs == name + [segs[|segs| - 2], segs[|segs| - 1]];
    assert Suffix(route) == [segs[|segs| - 2], segs[|segs| - 1]];
    NoAtInJoin(repoSegs);
  }

  /** Conversely, a path that parses to an addressed route is that route's print, but for slashes around it;
      its repo and chart are well named, so the cache's keys for them are unambiguous. */
  lemma PrintParse(path: string)
    requires Addressed(Parse(path))
    ensures WellFormed(Parse(path)) && Print(Parse(path)) == "/v2/" + Rest(path)
    ensures NameOk(Parse(path).repo, Parse(path).chart)
  {
    hide Join, Split, ValidSegment, ParseSegments, Print, WellNamed, NameOk;
    var route, segs := Parse(path), Split(Rest(path), '/');
    JoinSplit(Rest(path), '/');
    SegmentsNamed(segs);
    PrintedSegments(route);
    LastSegmentNotEmpty(segs, Rest(path));
  }

  lemma LastSegmentNotEmpty(segs: seq<string>, rest: string)
    requires |segs| >= 2 && rest == Join(segs, '/') && (rest == "" || rest[|rest| - 1] != '/')
    ensures segs[|segs| - 1] != ""
  {
    hide Join;
    var front, last := segs[..|segs| - 1], segs[|segs| - 1];
    assert front + [last] == segs;
    JoinAppend(front, [last], '/');
    JoinShort(last, "", "", '/');
    assert rest == Join(front, '/') + ['/'] + last;
  }

  lemma {:induction false} NoAtInJoin(parts: seq<string>)
    requires forall p | p in parts :: '@' !in p
    ensures '@' !in Join(parts, '/')
  {
    if |parts| > 1 {
      NoAtInJoin(parts[1..]);
    }
  }
}
