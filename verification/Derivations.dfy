/** What a build comes to, in terms of the exchanges it makes (resolve.go's build over upstream.go's downloads). */
module Derivations {
  import opened Wrappers
  import opened Text
  import opened Oci
  import opened Upstreams
  import opened Rewriting
  import opened RewriteLaws
  import opened Resolvers
  import opened Pulls

  // Exchanges.

  /** The URL answers with this body, whole. */
  predicate Answers(site: Site, url: string, limit: nat, body: Bytes) {
    site.get(url) == Reply(200, body) && |body| <= limit
  }

  /** The URL says there is nothing there, now or ever. */
  predicate Absent(site: Site, url: string) {
    site.get(url).Reply? && (site.get(url).status == 404 || site.get(url).status == 410)
  }

  /** A download yields exactly what is answered with 200 within the limit; 404 and 410 alone mean absence. */
  lemma FetchExactly(site: Site, url: string, limit: nat)
    ensures forall body :: Fetch(site.get(url), limit) == Ok(body) <==> Answers(site, url, limit, body)
    ensures Fetch(site.get(url), limit) == Err(NotFound) <==> Absent(site, url)
    ensures Fetch(site.get(url), limit) == Err(TooLarge) <==>
      site.get(url).Reply? && site.get(url).status == 200 && |site.get(url).body| > limit
    ensures Fetch(site.get(url), limit) == Err(HostNotAllowed) <==> site.get(url) == Failed(true)
  {
  }

  /** The entry's first URL, resolved against the repo, over https. */
  predicate From(k: Setup, repo: string, entry: IndexEntry, url: string) {
    && entry.urls != [] && k.resolve("https://" + repo + "/", entry.urls[0]) == Some(url)
    && "https:" <= url
  }

  lemma EntryUrlExactly(k: Setup, repo: string, entry: IndexEntry, url: string)
    ensures EntryUrl(k.resolve, repo, entry) == Ok(url) <==> From(k, repo, entry, url)
  {
  }

  /** The tarball is of the digest published, written with or without the algorithm, if one is. */
  predicate OfPublishedDigest(codec: Codec, entry: IndexEntry, body: Bytes) {
    || entry.digest == ""
    || entry.digest == codec.sha256Hex(body)
    || entry.digest == Digest(codec, body)
  }

  /** The hash prints no text that begins with the algorithm's name: what TrimPrefix takes off is never the hash's
      own. */
  ghost predicate PlainHash(codec: Codec) {
    forall b :: !("sha256:" <= codec.sha256Hex(b))
  }

  lemma PublishedDigestExactly(codec: Codec, entry: IndexEntry, body: Bytes)
    requires PlainHash(codec)
    ensures entry.digest == "" || codec.sha256Hex(body) == TrimPrefix(entry.digest, "sha256:") <==>
      OfPublishedDigest(codec, entry, body)
  {
    assert !("sha256:" <= codec.sha256Hex(body));
    if "sha256:" <= entry.digest {
      assert entry.digest == "sha256:" + entry.digest[7..];
    }
    assert Digest(codec, body)[7..] == codec.sha256Hex(body);
  }

  // Builds.

  /** What the artifact is built from: the body of the entry's download, or with a host configured its rewriting. */
  ghost predicate ChartFrom(k: Setup, site: Site, entry: IndexEntry, url: string, chart: Bytes) {
    exists raw ::
      && Answers(site, url, k.opts.maxChartBytes, raw) && OfPublishedDigest(k.codec, entry, raw)
      && (if k.opts.rewriteHost == "" then chart == raw
          else RewriteDependencies(k.codec, k.tools, raw, k.opts.rewriteHost) == Ok(chart))
  }

  /** And its provenance: none if not asked for or not there, otherwise the body of the file beside it. */
  predicate ProvFrom(k: Setup, site: Site, url: string, prov: Option<Bytes>) {
    match prov
    case None => k.opts.provenance ==> Absent(site, url + ".prov")
    case Some(body) => k.opts.provenance && Answers(site, url + ".prov", k.opts.maxChartBytes, body)
  }

  lemma ChartExactly(k: Setup, site: Site, repo: string, entry: IndexEntry, url: string, raw: Bytes)
    requires PlainHash(k.codec) && From(k, repo, entry, url)
    ensures ChartBytes(k.codec, k.resolve, site, k.opts.maxChartBytes, repo, entry) == Ok(raw) <==>
      Answers(site, url, k.opts.maxChartBytes, raw) && OfPublishedDigest(k.codec, entry, raw)
  {
    FetchExactly(site, url, k.opts.maxChartBytes);
    EntryUrlExactly(k, repo, entry, url);
    PublishedDigestExactly(k.codec, entry, raw);
  }

  lemma ProvExactly(k: Setup, site: Site, repo: string, entry: IndexEntry, url: string, prov: Option<Bytes>)
    requires From(k, repo, entry, url) && k.opts.provenance
    ensures ProvBytes(k.resolve, site, k.opts.maxChartBytes, repo, entry) == Ok(prov) <==> ProvFrom(k, site, url, prov)
  {
    FetchExactly(site, url + ".prov", k.opts.maxChartBytes);
    EntryUrlExactly(k, repo, entry, url);
  }

  /** A build yields an artifact exactly if that is what Build makes of the tarball and provenance the exchanges answer;
      any other answer, a failing provenance file among them, fails it. */
  lemma DeriveExactly(k: Setup, chartSite: Site, provSite: Site, repo: string, entry: IndexEntry, art: Artifact)
    requires PlainHash(k.codec)
    ensures Derive(k, chartSite, provSite, repo, entry) == Ok(art) <==>
      Derivable(k, chartSite, provSite, repo, entry, art)
  {
    hide Build, RewriteDependencies, Answers, Absent, OfPublishedDigest, ChartBytes, ProvBytes, From, PlainHash;
    if Derive(k, chartSite, provSite, repo, entry) == Ok(art) {
      DerivedBy(k, chartSite, provSite, repo, entry, art);
    }
    forall url, chart, prov | DerivesBy(k, chartSite, provSite, repo, entry, art, url, chart, prov)
      ensures Derive(k, chartSite, provSite, repo, entry) == Ok(art)
    {
      DerivesSo(k, chartSite, provSite, repo, entry, art, url, chart, prov);
    }
  }

  ghost predicate Derivable(k: Setup, chartSite: Site, provSite: Site, repo: string, entry: IndexEntry, art: Artifact) {
    exists url, chart, prov :: DerivesBy(k, chartSite, provSite, repo, entry, art, url, chart, prov)
  }

  ghost predicate DerivesBy(k: Setup, chartSite: Site, provSite: Site, repo: string, entry: IndexEntry, art: Artifact,
                            url: string, chart: Bytes, prov: Option<Bytes>) {
    && From(k, repo, entry, url) && ChartFrom(k, chartSite, entry, url, chart) && ProvFrom(k, provSite, url, prov)
    && Build(k.codec, chart, prov) == Ok(art)
  }

  lemma DerivesSo(k: Setup, chartSite: Site, provSite: Site, repo: string, entry: IndexEntry, art: Artifact,
                  url: string, chart: Bytes, prov: Option<Bytes>)
    requires PlainHash(k.codec) && DerivesBy(k, chartSite, provSite, repo, entry, art, url, chart, prov)
    ensures Derive(k, chartSite, provSite, repo, entry) == Ok(art)
  {
    hide Build, RewriteDependencies, Answers, Absent, OfPublishedDigest, ChartBytes, ProvBytes, From, PlainHash;
    var raw :|
      && Answers(chartSite, url, k.opts.maxChartBytes, raw) && OfPublishedDigest(k.codec, entry, raw)
      && (if k.opts.rewriteHost == "" then chart == raw
          else RewriteDependencies(k.codec, k.tools, raw, k.opts.rewriteHost) == Ok(chart));
    ChartExactly(k, chartSite, repo, entry, url, raw);
    if k.opts.provenance {
      ProvExactly(k, provSite, repo, entry, url, prov);
    }
  }

  lemma SourceOf(k: Setup, site: Site, repo: string, entry: IndexEntry) returns (url: string)
    requires ChartBytes(k.codec, k.resolve, site, k.opts.maxChartBytes, repo, entry).Ok?
    ensures From(k, repo, entry, url)
  {
    url := EntryUrl(k.resolve, repo, entry).value;
    EntryUrlExactly(k, repo, entry, url);
  }

  lemma DerivedBy(k: Setup, chartSite: Site, provSite: Site, repo: string, entry: IndexEntry, art: Artifact)
    requires PlainHash(k.codec) && Derive(k, chartSite, provSite, repo, entry) == Ok(art)
    ensures Derivable(k, chartSite, provSite, repo, entry, art)
  {
    hide Build, RewriteDependencies, Answers, Absent, OfPublishedDigest, ChartBytes, ProvBytes, From, PlainHash;
    var raw := ChartBytes(k.codec, k.resolve, chartSite, k.opts.maxChartBytes, repo, entry).value;
    var url := SourceOf(k, chartSite, repo, entry);
    ChartExactly(k, chartSite, repo, entry, url, raw);
    var chart := if k.opts.rewriteHost == "" then raw
      else RewriteDependencies(k.codec, k.tools, raw, k.opts.rewriteHost).value;
    var prov := if k.opts.provenance
      then ProvBytes(k.resolve, provSite, k.opts.maxChartBytes, repo, entry).value else None;
    if k.opts.provenance {
      ProvExactly(k, provSite, repo, entry, url, prov);
    }
    assert ChartFrom(k, chartSite, entry, url, chart);
    assert DerivesBy(k, chartSite, provSite, repo, entry, art, url, chart, prov);
  }

  /** What any successful build holds: with no host the download itself; with one, a tarball that stands to the
      download as rewriting does, with nothing left to rewrite; and the provenance file exactly if it is asked for and
      there. */
  lemma DerivedArtifact(k: Setup, chartSite: Site, provSite: Site, repo: string, entry: IndexEntry)
    returns (url: string, raw: Bytes)
    requires PlainHash(k.codec) && ToolsInvert(k.codec, k.tools)
    requires Derive(k, chartSite, provSite, repo, entry).Ok?
    ensures From(k, repo, entry, url) && Answers(chartSite, url, k.opts.maxChartBytes, raw)
    ensures OfPublishedDigest(k.codec, entry, raw)
    ensures var art := Derive(k, chartSite, provSite, repo, entry).value;
      && (k.opts.rewriteHost == "" ==> art.chart == raw)
      && (k.opts.rewriteHost != "" ==>
            && k.codec.unpack(raw).Some? && k.codec.unpack(art.chart).Some?
            && EntriesRewritten(k.tools, k.opts.rewriteHost, k.codec.unpack(raw).value.entries,
                                k.codec.unpack(art.chart).value.entries)
            && !TarballNeedsRewriting(k.codec, k.tools, k.opts.rewriteHost, art.chart))
      && ProvFrom(k, provSite, url, art.prov)
  {
    hide RewriteDependencies, Answers, Absent, OfPublishedDigest, ChartBytes, ProvBytes, From, PlainHash, ToolsInvert,
      EntriesRewritten, TarballNeedsRewriting, ProvFrom, ChartMetadata, Annotations, Sealed;
    var art := Derive(k, chartSite, provSite, repo, entry).value;
    DerivedBy(k, chartSite, provSite, repo, entry, art);
    var u, chart, prov :| DerivesBy(k, chartSite, provSite, repo, entry, art, u, chart, prov);
    url := u;
    raw :|
      && Answers(chartSite, url, k.opts.maxChartBytes, raw) && OfPublishedDigest(k.codec, entry, raw)
      && (if k.opts.rewriteHost == "" then chart == raw
          else RewriteDependencies(k.codec, k.tools, raw, k.opts.rewriteHost) == Ok(chart));
    if k.opts.rewriteHost != "" {
      TarballLaw(k.codec, k.tools, raw, k.opts.rewriteHost);
      RewrittenTarball(k.codec, k.tools, raw, k.opts.rewriteHost);
    }
  }

  lemma RewrittenTarball(codec: Codec, tools: Tools, chart: Bytes, host: string)
    requires ToolsInvert(codec, tools) && RewriteDependencies(codec, tools, chart, host).Ok?
    ensures !TarballNeedsRewriting(codec, tools, host, RewriteDependencies(codec, tools, chart, host).value)
  {
    hide RewriteDependencies, TarballNeedsRewriting;
    TarballIdempotent(codec, tools, chart, host);
    TarballLaw(codec, tools, RewriteDependencies(codec, tools, chart, host).value, host);
  }

  // What a scan passes over.

  /** The candidate's tarball is gone, or not of the digest published. */
  ghost predicate Gone(k: Setup, site: Site, repo: string, entry: IndexEntry) {
    exists url :: From(k, repo, entry, url) && GoneAt(k, site, entry, url)
  }

  ghost predicate GoneAt(k: Setup, site: Site, entry: IndexEntry, url: string) {
    || Absent(site, url)
    || exists body :: Answers(site, url, k.opts.maxChartBytes, body) && !OfPublishedDigest(k.codec, entry, body)
  }

  lemma GoneExactly(k: Setup, site: Site, repo: string, entry: IndexEntry)
    requires PlainHash(k.codec)
    ensures var r := ChartBytes(k.codec, k.resolve, site, k.opts.maxChartBytes, repo, entry);
      r.Err? && Skippable(r.error) <==> Gone(k, site, repo, entry)
  {
    hide PlainHash, OfPublishedDigest;
    var source := EntryUrl(k.resolve, repo, entry);
    forall url ensures source == Ok(url) <==> From(k, repo, entry, url) {
      EntryUrlExactly(k, repo, entry, url);
    }
    if source.Ok? {
      var url := source.value;
      FetchExactly(site, url, k.opts.maxChartBytes);
      forall body ensures entry.digest == "" || k.codec.sha256Hex(body) == TrimPrefix(entry.digest, "sha256:") <==>
          OfPublishedDigest(k.codec, entry, body) {
        PublishedDigestExactly(k.codec, entry, body);
      }
      var fetched := Fetch(site.get(url), k.opts.maxChartBytes);
      if fetched.Ok? {
        assert Answers(site, url, k.opts.maxChartBytes, fetched.value);
      }
    }
  }

  lemma ProvNeverSkips(k: Setup, site: Site, repo: string, entry: IndexEntry)
    ensures var r := ProvBytes(k.resolve, site, k.opts.maxChartBytes, repo, entry); r.Err? ==> !Skippable(r.error)
  {
  }

  /** A build fails in a way that lets a scan go on exactly if the candidate is gone: whatever is wrong with its
      rewriting, its provenance or its contents aborts the scan. */
  lemma SkippedExactly(k: Setup, chartSite: Site, provSite: Site, repo: string, entry: IndexEntry)
    requires PlainHash(k.codec)
    ensures var r := Derive(k, chartSite, provSite, repo, entry);
      r.Err? && Skippable(r.error) <==> Gone(k, chartSite, repo, entry)
  {
    hide PlainHash, Gone, ChartBytes, ProvBytes, RewriteDependencies, Build;
    GoneExactly(k, chartSite, repo, entry);
    ProvNeverSkips(k, provSite, repo, entry);
    var raw := ChartBytes(k.codec, k.resolve, chartSite, k.opts.maxChartBytes, repo, entry);
    if raw.Ok? {
      RewritingFailsOther(k.codec, k.tools, raw.value, k.opts.rewriteHost);
    }
    forall chart, prov ensures Build(k.codec, chart, prov).Err? ==> Build(k.codec, chart, prov).error.Other? {
      BuildFailsOther(k.codec, chart, prov);
    }
  }

  // Versions.

  /** The index answers, and lists these for the chart: at least one. */
  predicate ListedAs(site: Site, repo: string, chart: string, entries: seq<IndexEntry>) {
    && site.index(repo).Ok? && chart in site.index(repo).value.entries
    && entries == site.index(repo).value.entries[chart] && entries != []
  }

  lemma EntriesExactly(site: Site, repo: string, chart: string)
    ensures forall entries :: Entries(site, repo, chart) == Ok(entries) <==> ListedAs(site, repo, chart, entries)
    ensures site.index(repo).Err? ==> Entries(site, repo, chart) == Err(site.index(repo).error)
    ensures site.index(repo).Ok? && Entries(site, repo, chart).Err? ==> Entries(site, repo, chart) == Err(ChartUnknown)
  {
  }

  /** The entry is the first listed with the version. */
  predicate FirstListed(entries: seq<IndexEntry>, version: string, i: nat) {
    i < |entries| && entries[i].version == version && forall j | 0 <= j < i :: entries[j].version != version
  }

  lemma {:induction false} FirstListedExists(entries: seq<IndexEntry>, version: string) returns (i: nat)
    requires exists j :: 0 <= j < |entries| && entries[j].version == version
    ensures FirstListed(entries, version, i) && FindVersion(entries, version) == Some(entries[i])
  {
    if entries[0].version == version {
      i := 0;
    } else {
      i := FirstListedExists(entries[1..], version);
      assert forall j | 0 < j <= i :: entries[j] == entries[1..][j - 1];
      i := i + 1;
    }
  }

  /** What the whole of a miss comes to: an artifact exactly if the chart is listed and the first entry of the version
      derives it from its exchanges; and where no entry has the version, that it is unknown. */
  lemma UncachedExactly(k: Setup, w: World, t: nat, repo: string, chart: string, version: string, art: Artifact)
    requires PlainHash(k.codec)
    ensures Uncached(k, w, t, repo, chart, version) == Ok(art) <==>
      exists entries, i: nat ::
        && ListedAs(w(t), repo, chart, entries) && FirstListed(entries, version, i)
        && Derivable(k, w(t + 1), w(t + 2), repo, entries[i], art)
    ensures forall entries: seq<IndexEntry> |
      ListedAs(w(t), repo, chart, entries) && (forall i | 0 <= i < |entries| :: entries[i].version != version) ::
      Uncached(k, w, t, repo, chart, version) == Err(VersionUnknown)
  {
    hide Derive, Derivable, ListedAs, Entries, PlainHash;
    EntriesExactly(w(t), repo, chart);
    var found := Entries(w(t), repo, chart);
    if found.Ok? {
      var entries := found.value;
      if exists j :: 0 <= j < |entries| && entries[j].version == version {
        var i := FirstListedExists(entries, version);
        DeriveExactly(k, w(t + 1), w(t + 2), repo, entries[i], art);
        assert forall j: nat | FirstListed(entries, version, j) :: j == i;
      }
    }
  }

  /** For a scan, a listed version is passable exactly if its first entry builds or is gone. */
  lemma PassableExactly(k: Setup, u: Site, repo: string, chart: string, entries: seq<IndexEntry>, version: string,
                        i: nat)
    requires PlainHash(k.codec) && ListedAs(u, repo, chart, entries) && FirstListed(entries, version, i)
    ensures PassableAt(k, u, repo, chart, version) <==>
      Gone(k, u, repo, entries[i]) || exists art :: Derivable(k, u, u, repo, entries[i], art)
  {
    hide Derive, Derivable, ListedAs, Entries, PlainHash, Gone;
    EntriesExactly(u, repo, chart);
    FindVersionFirst(entries, version, i);
    SkippedExactly(k, u, u, repo, entries[i]);
    var built := Derive(k, u, u, repo, entries[i]);
    forall art ensures built == Ok(art) <==> Derivable(k, u, u, repo, entries[i], art) {
      DeriveExactly(k, u, u, repo, entries[i], art);
    }
  }
}
