/** The registry as its clients see it: URLs in, content out (handler.go over resolve.go). */
module Serving {
  import opened Wrappers
  import opened Oci
  import opened CacheInvariants
  import opened Upstreams
  import opened Signing
  import opened Resolvers
  import opened Sessions
  import opened Transparency
  import opened Replicas
  import opened Pulls
  import opened Tagging
  import opened TagLists
  import opened Pagination
  import opened Routes

  /** The URL of a GET: its path and query. */
  datatype Call = Call(path: string, query: string)

  datatype Outcome =
    | Welcome
    | Listed(page: Page)
    | Content(digest: string, body: Bytes)
    | Rejected(code: string)
    | Fault(error: Error)

  /** What a path asks of the resolver, if it gets that far. */
  function Asked(path: string): Option<Request> {
    match Parse(path)
    case ListTags(repo, chart) => Some(TagsRequest(repo, chart))
    case GetManifest(repo, chart, reference) =>
      (match Classify(reference)
       case SignatureOf(target) => Some(SignatureRequest(repo, chart, target))
       case ManifestOf(digest) => Some(ManifestRequest(repo, chart, digest))
       case VersionOf(version) => Some(VersionRequest(repo, chart, version))
       case InvalidReference => None)
    case GetBlob(repo, chart, digest) => if IsDigest(digest) then Some(BlobRequest(repo, chart, digest)) else None
    case _ => None
  }

  /** The answer to a path that asks the resolver nothing. */
  function Direct(path: string): Outcome {
    match Parse(path)
    case VersionCheck => Welcome
    case GetManifest(_, _, _) => Rejected("MANIFEST_INVALID")
    case GetBlob(_, _, _) => Rejected("DIGEST_INVALID")
    case NameInvalid => Rejected("NAME_INVALID")
    case _ => Rejected("UNSUPPORTED")
  }

  function ManifestContent(r: Result<Artifact, Error>): Outcome {
    match r
    case Err(e) => Fault(e)
    case Ok(art) => Content(art.manifestDigest, art.manifest)
  }

  function SignatureContent(r: Result<Signature, Error>): Outcome {
    match r
    case Err(e) => Fault(e)
    case Ok(sig) => Content(sig.manifestDigest, sig.manifest)
  }

  function BlobContent(digest: string, r: Result<Bytes, Error>): Outcome {
    match r
    case Err(e) => Fault(e)
    case Ok(data) => Content(digest, data)
  }

  function PageContent(r: Result<Page, string>): Outcome {
    match r
    case Err(_) => Rejected("UNSUPPORTED")
    case Ok(page) => Listed(page)
  }

  /** The listing comes first, then last and n of the query. */
  function TagsContent(r: Result<seq<IndexEntry>, Error>, name: string, query: string): Outcome {
    match r
    case Err(e) => Fault(e)
    case Ok(entries) =>
      TagListPaged(entries);
      PageContent(HandleTags(TagList(entries), name, query))
  }

  ghost function Answer(k: Setup, w: World, s: State, q: Request, query: string): Outcome {
    match q
    case VersionRequest(repo, chart, version) => ManifestContent(VersionStep(k, w, s, repo, chart, version).1)
    case ManifestRequest(repo, chart, digest) => ManifestContent(ManifestStep(k, w, s, repo, chart, digest).1)
    case BlobRequest(repo, chart, digest) => BlobContent(digest, ServeBlobStep(k, w, s, repo, chart, digest).1)
    case SignatureRequest(repo, chart, target) => SignatureContent(SignatureStep(k, w, s, repo, chart, target).1)
    case TagsRequest(repo, chart) =>
      TagsContent(Entries(w(s.now), repo, chart), repo + "/" + chart, query)
  }

  ghost function Serve(k: Setup, w: World, s: State, call: Call): (State, Outcome) {
    var q := Asked(call.path);
    if q.None? then (s, Direct(call.path)) else (Sessions.After(k, w, s, q.value), Answer(k, w, s, q.value, call.query))
  }

  /** The handler of one URL, on a replica's resolver. */
  method Handle(resolver: Resolver, call: Call) returns (response: Outcome)
    requires resolver.Valid()
    modifies resolver, resolver.cache
    ensures (resolver.Model(), response) == Serve(resolver.k, resolver.world, old(resolver.Model()), call)
  {
    hide VersionStep, ManifestStep, ServeBlobStep, SignatureStep, Parse, Classify, TagList, HandleTags;
    var route := HandleV2(call.path);
    match route {
      case ListTags(repo, chart) =>
        var entries := resolver.ChartEntries(repo, chart);
        var tags := Tags(entries);
        if tags.Err? {
          return Fault(tags.error);
        }
        TagListPaged(entries.value);
        var page := ServeTags(tags.value, repo + "/" + chart, call.query);
        response := PageContent(page);
      case GetManifest(repo, chart, reference) =>
        match Classify(reference) {
          case SignatureOf(target) =>
            var sig := resolver.Signature(repo, chart, target);
            response := SignatureContent(sig);
          case ManifestOf(digest) =>
            var art := resolver.ByManifestDigest(repo, chart, digest);
            response := ManifestContent(art);
          case VersionOf(version) =>
            var art := resolver.ByVersion(repo, chart, version);
            response := ManifestContent(art);
          case InvalidReference => response := Rejected("MANIFEST_INVALID");
        }
      case GetBlob(repo, chart, digest) =>
        if !IsDigest(digest) {
          return Rejected("DIGEST_INVALID");
        }
        var data := resolver.ServeBlob(repo, chart, digest);
        response := BlobContent(digest, data);
      case _ => response := Direct(call.path);
    }
  }

  /** What is refused before the resolver is asked anything, and under which code: a path whose reference is no tag,
      digest or signature tag, one whose blob is named by no digest, one that names no chart, and what is no request
      at all. */
  lemma RejectedExactly(k: Setup, w: World, s: State, path: string, query: string)
    ensures var (s', r) := Serve(k, w, s, Call(path, query));
      match Parse(path)
      case VersionCheck => s' == s && r == Welcome
      case NameInvalid => s' == s && r == Rejected("NAME_INVALID")
      case Unsupported => s' == s && r == Rejected("UNSUPPORTED")
      case GetManifest(_, _, reference) =>
        if !ValidTag(reference) && !IsDigest(reference) then s' == s && r == Rejected("MANIFEST_INVALID")
        else !r.Rejected?
      case GetBlob(_, _, digest) =>
        if IsDigest(digest) then !r.Rejected? else s' == s && r == Rejected("DIGEST_INVALID")
      case ListTags(_, _) => r.Rejected? ==> r == Rejected("UNSUPPORTED")
  {
    hide Parse, Classify, ValidTag, IsDigest, VersionStep, ManifestStep, ServeBlobStep, SignatureStep, HandleTags,
      Entries, TagList, Sessions.After;
    if Parse(path).GetManifest? {
      InvalidExactly(Parse(path).reference);
    }
  }

  lemma InvalidExactly(reference: string)
    ensures Classify(reference).InvalidReference? <==> !ValidTag(reference) && !IsDigest(reference)
  {
    hide ValidTag, IsDigest, SigTagTarget;
    if SigTagTarget(reference).Some? {
      SigTagIsTag(reference);
    }
  }

  lemma SigTagIsTag(reference: string)
    requires SigTagTarget(reference).Some?
    ensures ValidTag(reference)
  {
    var rest := reference[7..];
    forall i | 1 <= i < |reference| ensures IsAlnum(reference[i]) || reference[i] in "._-" {
      if 7 <= i < 71 {
        assert reference[i] == ("sha256:" + rest[..|rest| - 4])[7..][i - 7];
      } else if i >= 71 {
        assert reference[i] == rest[|rest| - 4..][i - 71];
      }
    }
  }

  // Sessions of raw URLs.

  /** The state after any URLs whatever, well formed or not. */
  ghost function Session(k: Setup, w: World, calls: seq<Call>): State {
    if calls == [] then COLD
    else Serve(k, w, Session(k, w, calls[..|calls| - 1]), calls[|calls| - 1]).0
  }

  /** Whatever is asked of the resolver comes under an unambiguous name. */
  lemma AskedNamed(path: string)
    requires Asked(path).Some?
    ensures NameOk(Asked(path).value.repo, Asked(path).value.chart)
  {
    hide Parse, Classify, NameOk;
    PrintParse(path);
  }

  /** No sequence of URLs leads a replica out of the states the other theorems speak of. */
  lemma {:induction false} SessionReachable(k: Setup, w: World, calls: seq<Call>)
    ensures Reachable(k, w, Session(k, w, calls))
    decreases calls
  {
    hide Asked, Sessions.After, Answer, Reachable;
    if calls == [] {
      ColdReachable(k, w);
    } else {
      var last := calls[|calls| - 1];
      SessionReachable(k, w, calls[..|calls| - 1]);
      if Asked(last.path).Some? {
        AskedNamed(last.path);
        ReachableAfter(k, w, Session(k, w, calls[..|calls| - 1]), Asked(last.path).value);
      }
    }
  }

  /** What a digest-addressed path names. */
  function NamedDigest(path: string): Option<string> {
    match Asked(path)
    case Some(ManifestRequest(_, _, digest)) => Some(digest)
    case Some(BlobRequest(_, _, digest)) => Some(digest)
    case _ => None
  }

  /** However upstream changes, whatever any clients asked before: content is served under its own digest,
      and under the very digest the path names, if it names one. */
  lemma ContentServedByDigest(k: Setup, w: World, calls: seq<Call>, call: Call)
    requires Serve(k, w, Session(k, w, calls), call).1.Content?
    ensures var r := Serve(k, w, Session(k, w, calls), call).1;
      && Digest(k.codec, r.body) == r.digest
      && (NamedDigest(call.path).Some? ==> r.digest == NamedDigest(call.path).value)
  {
    hide Asked, VersionStep, ManifestStep, ServeBlobStep, SignatureFor, Reachable, Session, NameOk, Sealed, Entries,
        TagList, HandleTags;
    var s := Session(k, w, calls);
    SessionReachable(k, w, calls);
    AskedNamed(call.path);
    match Asked(call.path).value
    case VersionRequest(repo, chart, version) =>
      VersionSealed(k, w, s, repo, chart, version);
      SealedManifest(k.codec, VersionStep(k, w, s, repo, chart, version).1.value);
    case ManifestRequest(repo, chart, digest) => ContentAddressed(k, w, s, repo, chart, digest);
    case BlobRequest(repo, chart, digest) => ContentAddressed(k, w, s, repo, chart, digest);
    case SignatureRequest(repo, chart, target) =>
      SignatureManifestDigest(k.codec, k.opts.signer.value, repo + "/" + chart, target);
  }

  lemma SignatureManifestDigest(codec: Codec, signer: Signer, reference: string, target: string)
    ensures var sig := SignatureFor(codec, signer, reference, target); Digest(codec, sig.manifest) == sig.manifestDigest
  {
  }

  // Signature tags.

  /** A digest's signature tag is served content exactly if signing is on and, asked in the same state, the digest
      itself
      is; that content is then the signer's manifest for it. */
  lemma SignatureTagServed(k: Setup, w: World, calls: seq<Call>, repo: string, chart: string, target: string)
    requires WellNamed(repo, chart) && IsDigest(target)
    ensures var s := Session(k, w, calls);
      var signed := Serve(k, w, s, Call(Print(GetManifest(repo, chart, SigTag(target))), "")).1;
      var plain := Serve(k, w, s, Call(Print(GetManifest(repo, chart, target)), "")).1;
      && (signed.Content? <==> k.opts.signer.Some? && plain.Content?)
      && (signed.Content? ==>
            signed.body == SignatureFor(k.codec, k.opts.signer.value, repo + "/" + chart, target).manifest)
      && (k.opts.signer.Some? && !signed.Content? ==> signed == plain)
  {
    hide Parse, Print, WellNamed, NameOk, Session, ManifestStep, SignatureStep, Sessions.After, IsDigest, SignatureFor;
    var s := Session(k, w, calls);
    SignatureReference(SigTag(target), target);
    DigestReference(target);
    SigTagIsSegment(target);
    ReferenceHasNoSlash(target);
    PathAsks(GetManifest(repo, chart, SigTag(target)));
    PathAsks(GetManifest(repo, chart, target));
    SignatureGivenIff(k, w, s, repo, chart, target);
  }

  lemma SigTagIsSegment(target: string)
    requires IsDigest(target)
    ensures SigTag(target) != "" && '/' !in SigTag(target)
  {
    var tag := SigTag(target);
    forall i | 0 <= i < |tag| ensures tag[i] != '/' {
      assert 7 <= i < 71 ==> tag[i] == target[7..][i - 7] && IsHex(target[7..][i - 7]);
    }
  }

  /** While the chart's upstream answers alike or fails, such content attests an artifact some version resolves to. */
  lemma SignatureTagAttests(k: Setup, w: World, u: Site, calls: seq<Call>, repo: string, chart: string, target: string)
    requires SteadyOrFailing(k, w, u, repo, chart) && WellNamed(repo, chart) && IsDigest(target)
    requires Serve(k, w, Session(k, w, calls), Call(Print(GetManifest(repo, chart, SigTag(target))), "")).1.Content?
    ensures exists art: Artifact :: Yields(k, u, repo, chart, art) && art.manifestDigest == target
  {
    hide Parse, Print, WellNamed, NameOk, Session, SignatureStep, Sessions.After, IsDigest, Yields, SteadyOrFailing,
      Reachable;
    SignatureReference(SigTag(target), target);
    SigTagIsSegment(target);
    PathAsks(GetManifest(repo, chart, SigTag(target)));
    SessionReachable(k, w, calls);
    SignedIsYielded(k, w, u, Session(k, w, calls), repo, chart, target);
  }

  // A client that lists, picks a tag and pulls.

  lemma PathAsks(route: Route)
    requires WellFormed(route)
    ensures Parse(Print(route)) == route && NameOk(route.repo, route.chart)
  {
    hide Parse, NameOk, WellNamed;
    ParsePrint(route);
    PrintParse(Print(route));
  }

  lemma ReferenceHasNoSlash(reference: string)
    requires ValidTag(reference) || IsDigest(reference)
    ensures reference != "" && '/' !in reference
  {
  }

  /** Any listed tag of an underscore-free version not shaped like a signature is answered, whatever was asked before
      and of whatever charts, with the manifest that version builds to: provided this chart stands still, and the
      version cannot be mistaken. */
  lemma ListedTagServed(k: Setup, w: World, u: Site, calls: seq<Call>, repo: string, chart: string,
                        entries: seq<IndexEntry>, e: IndexEntry)
    requires Steady(k, w, u, repo, chart) && WellNamed(repo, chart)
    requires Entries(u, repo, chart) == Ok(entries) && e in entries && ValidTag(VersionToTag(e.version))
    requires Unmistaken(k, u, repo, chart, e.version) && '_' !in e.version && !SignatureShaped(e.version)
    ensures VersionToTag(e.version) in TagList(entries)
    ensures var path := Print(GetManifest(repo, chart, VersionToTag(e.version)));
      Serve(k, w, Session(k, w, calls), Call(path, "")).1 == ManifestContent(ColdVersion(k, u, repo, chart, e.version))
    ensures FindVersion(entries, e.version).Some?
  {
    hide Steady, Unmistaken, Reachable, Session, VersionStep, ColdVersion, Entries, ValidTag, SignatureShaped,
      VersionToTag, Parse, Print, Classify, WellNamed, NameOk, TagList, Sessions.After;
    var tag := VersionToTag(e.version);
    ListedIff(entries, tag);
    ListedTagReference(e.version);
    ReferenceHasNoSlash(tag);
    PathAsks(GetManifest(repo, chart, tag));
    SessionReachable(k, w, calls);
    VersionTransparent(k, w, u, Session(k, w, calls), repo, chart, e.version);
  }

  /** And every blob that manifest references is then served, by this replica or another, in the size and under
      the digest stated: provided that digest is spelt as the handler expects, the version stands within ScanLimit
      after passable candidates, and the index's published digest, if it is that blob's, resolves. */
  lemma TaggedPullCompletes(k: Setup, w: World, u: Site, calls: seq<Call>, repo: string, chart: string, art: Artifact,
                            entries: seq<IndexEntry>, i: nat, m: Manifest, d: Descriptor)
    requires Steady(k, w, u, repo, chart) && ListedUnmistaken(k, u, repo, chart) && WellNamed(repo, chart)
    requires CollisionFree(k.codec) && ManifestRoundTrips(k.codec) && IsDigest(d.digest)
    requires WithinScan(k, u, repo, chart, art, entries, i)
    requires k.codec.parseManifest(art.manifest) == Some(m) && d in References(m)
    requires FastPathResolves(k, u, repo, chart, entries, d.digest)
    ensures var r := Serve(k, w, Session(k, w, calls), Call(Print(GetBlob(repo, chart, d.digest)), "")).1;
      r.Content? && r.digest == d.digest && |r.body| == d.size && Digest(k.codec, r.body) == d.digest
  {
    hide Steady, ListedUnmistaken, Reachable, Session, ServeBlobStep, WithinScan, FastPathResolves, ValidTag,
      Parse, Print, WellNamed, NameOk, Sessions.After, Artifact.Blob, CollisionFree, ManifestRoundTrips;
    SessionReachable(k, w, calls);
    NamedOk(repo, chart);
    ReferencesPullable(k, w, u, Session(k, w, calls), repo, chart, art, entries, i, m, d);
    ReferenceHasNoSlash(d.digest);
    PathAsks(GetBlob(repo, chart, d.digest));
  }

  /** Pulling by tag, whole, two replicas meeting upstream at different moments: whatever manifest a client gets
      from one for a tag of one of the first ScanLimit entries, the entries before it building or failing skippably,
      every blob it references is served by the other, in the size and under the digest stated, whatever either was
      asked before. This chart stands still for both and its listed versions cannot be mistaken; should its index
      publish that blob's digest, the version it names for it resolves. Other charts may be mislabelled and change. */
  lemma PullByTag(k: Setup, w: World, w': World, u: Site, here: seq<Call>, there: seq<Call>, repo: string,
                  chart: string, entries: seq<IndexEntry>, i: nat, m: Manifest, d: Descriptor)
    requires Steady(k, w, u, repo, chart) && Steady(k, w', u, repo, chart)
    requires ListedUnmistaken(k, u, repo, chart) && WellNamed(repo, chart)
    requires CollisionFree(k.codec) && ManifestRoundTrips(k.codec) && IsDigest(d.digest)
    requires Entries(u, repo, chart) == Ok(entries) && i < |entries| && i < k.opts.scanLimit
    requires Passable(k, u, repo, chart, entries, i)
    requires FastPathResolves(k, u, repo, chart, entries, d.digest)
    requires ValidTag(VersionToTag(entries[i].version)) && '_' !in entries[i].version
        && !SignatureShaped(entries[i].version)
    requires var r := Serve(k, w, Session(k, w, here),
                            Call(Print(GetManifest(repo, chart, VersionToTag(entries[i].version))), "")).1;
      r.Content? && k.codec.parseManifest(r.body) == Some(m) && d in References(m)
    ensures var r := Serve(k, w', Session(k, w', there), Call(Print(GetBlob(repo, chart, d.digest)), "")).1;
      r.Content? && r.digest == d.digest && |r.body| == d.size && Digest(k.codec, r.body) == d.digest
  {
    hide Serve, Session, ColdVersion, Steady, Unmistaken, FastPathResolves, Passable, WellNamed, Print,
      CollisionFree, ManifestRoundTrips, IsDigest, ValidTag, SignatureShaped, VersionToTag, Entries;
    assert Lists(u, repo, chart, entries[i]);
    ListedTagServed(k, w, u, here, repo, chart, entries, entries[i]);
    TaggedPullCompletes(k, w', u, there, repo, chart, ColdVersion(k, u, repo, chart, entries[i].version).value, entries,
                        i, m, d);
  }

  lemma NamedOk(repo: string, chart: string)
    requires WellNamed(repo, chart)
    ensures NameOk(repo, chart)
  {
    hide WellNamed, NameOk;
    PathAsks(ListTags(repo, chart)) by { ListSuffix(); }
  }

  lemma ListSuffix()
    ensures "list" != "" && '/' !in "list"
  {
  }
}
