/** Helm repository indexes and verified downloads: index.go and the stateless half of upstream.go. */
module Upstreams {
  import opened Wrappers
  import opened Text
  import opened Oci

  datatype IndexEntry = IndexEntry(version: string, urls: seq<string>, digest: string)

  datatype Index = Index(entries: map<string, seq<IndexEntry>>)

  /** One HTTP exchange: a transport failure (perhaps the dial guard's refusal), or a reply. */
  datatype Response =
    | Failed(refused: bool)
    | Reply(status: nat, body: Bytes)

  /** What upstream answers at one moment: the index for a repo, the exchange for a URL. */
  datatype Site = Site(index: string -> Result<Index, Error>, get: string -> Response)

  /** URL resolution against the repo base: None when either URL does not parse. */
  type Resolution = (string, string) -> Option<string>

  function Versions(idx: Index, chart: string): seq<IndexEntry> {
    if chart in idx.entries then idx.entries[chart] else []
  }

  /** The first entry with exactly this version. */
  function FindVersion(entries: seq<IndexEntry>, version: string): (r: Option<IndexEntry>)
    ensures r.Some? ==> r.value in entries && r.value.version == version
    ensures r.None? ==> forall e | e in entries :: e.version != version
  {
    if entries == [] then None
    else if entries[0].version == version then Some(entries[0])
    else FindVersion(entries[1..], version)
  }

  /** The entry publishes this layer digest, with or without the algorithm prefix. */
  predicate Publishes(e: IndexEntry, digest: string) {
    e.digest != "" && TrimPrefix(e.digest, "sha256:") == TrimPrefix(digest, "sha256:")
  }

  /** The first entry whose published tarball digest matches. */
  function FindLayerDigest(entries: seq<IndexEntry>, digest: string): (r: Option<IndexEntry>)
    ensures r.Some? ==> r.value in entries && Publishes(r.value, digest)
    ensures r.None? ==> forall e | e in entries :: !Publishes(e, digest)
  {
    if entries == [] then None
    else if Publishes(entries[0], digest) then Some(entries[0])
    else FindLayerDigest(entries[1..], digest)
  }

  /** Of several entries with the version the first counts. */
  lemma {:induction false} FindVersionFirst(entries: seq<IndexEntry>, version: string, i: nat)
    requires i < |entries| && entries[i].version == version
    requires forall j | 0 <= j < i :: entries[j].version != version
    ensures FindVersion(entries, version) == Some(entries[i])
  {
    if i > 0 {
      FindVersionFirst(entries[1..], version, i - 1);
    }
  }

  lemma {:induction false} FindLayerDigestFirst(entries: seq<IndexEntry>, digest: string, i: nat)
    requires i < |entries| && Publishes(entries[i], digest)
    requires forall j | 0 <= j < i :: !Publishes(entries[j], digest)
    ensures FindLayerDigest(entries, digest) == Some(entries[i])
  {
    if i > 0 {
      FindLayerDigestFirst(entries[1..], digest, i - 1);
    }
  }

  /** Digests that differ by one algorithm prefix at most are taken for the same, whichever of them has it. */
  lemma PublishesExactly(e: IndexEntry, digest: string)
    ensures Publishes(e, digest) <==>
      e.digest != ""
      && (|| e.digest == digest
          || (e.digest == "sha256:" + digest && !("sha256:" <= digest))
          || (digest == "sha256:" + e.digest && !("sha256:" <= e.digest)))
  {
    assert "sha256:" <= e.digest ==> e.digest == "sha256:" + e.digest[7..];
    assert "sha256:" <= digest ==> digest == "sha256:" + digest[7..];
    assert forall s: string :: ("sha256:" + s)[7..] == s;
  }

  /** No version is listed twice. */
  ghost predicate DistinctVersions(entries: seq<IndexEntry>) {
    forall i, j | 0 <= i < j < |entries| :: entries[i].version != entries[j].version
  }

  lemma {:induction false} FindVersionDistinct(entries: seq<IndexEntry>, e: IndexEntry)
    requires DistinctVersions(entries) && e in entries
    ensures FindVersion(entries, e.version) == Some(e)
  {
  }

  /** Bodies over the limit, 404/410 and every other status but 200 are errors. */
  function Fetch(response: Response, limit: nat): Result<Bytes, Error> {
    match response
    case Failed(refused) => Err(if refused then HostNotAllowed else Other("fetch failed"))
    case Reply(status, body) =>
      if status == 404 || status == 410 then Err(NotFound)
      else if status != 200 then Err(Other("unexpected status"))
      else if |body| > limit then Err(TooLarge)
      else Ok(body)
  }

  function EntryUrl(resolve: Resolution, repo: string, entry: IndexEntry): Result<string, Error> {
    if entry.urls == [] then Err(Other("index entry has no URL"))
    else match resolve("https://" + repo + "/", entry.urls[0])
      case None => Err(Other("invalid URL"))
      case Some(url) => if HasPrefix(url, "https:") then Ok(url) else Err(Other("refusing non-https chart URL"))
  }

  /** The tarball for an entry, checked against the digest the index published. */
  function ChartBytes(codec: Codec, resolve: Resolution, site: Site, limit: nat, repo: string, entry: IndexEntry)
    : (r: Result<Bytes, Error>)
    ensures r.Ok? && entry.digest != "" ==> codec.sha256Hex(r.value) == TrimPrefix(entry.digest, "sha256:")
  {
    var url :- EntryUrl(resolve, repo, entry);
    var raw :- Fetch(site.get(url), limit);
    if entry.digest != "" && codec.sha256Hex(raw) != TrimPrefix(entry.digest, "sha256:") then Err(DigestMismatch)
    else Ok(raw)
  }

  /** The .prov file; only an authoritative absence omits it. */
  function ProvBytes(resolve: Resolution, site: Site, limit: nat, repo: string, entry: IndexEntry)
    : Result<Option<Bytes>, Error>
  {
    var url :- EntryUrl(resolve, repo, entry);
    match Fetch(site.get(url + ".prov"), limit)
    case Err(e) => if e == NotFound then Ok(None) else Err(e)
    case Ok(raw) => Ok(Some(raw))
  }

  /** When the index publishes the layer digest a client asks for, a verified download has that digest. */
  lemma VerifiedDownloadMatchesLayer(codec: Codec, resolve: Resolution, site: Site, limit: nat, repo: string,
                                     entry: IndexEntry, digest: string)
    requires ChartBytes(codec, resolve, site, limit, repo, entry).Ok?
    requires Publishes(entry, digest) && HasPrefix(digest, "sha256:")
    ensures Digest(codec, ChartBytes(codec, resolve, site, limit, repo, entry).value) == digest
  {
  }
}
