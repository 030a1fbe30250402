/** The OCI form of one chart version: artifact.go's Build, Blob and Digest. */
module Oci {
  import opened Wrappers
  import opened Text
  import opened Metadata

  type Bytes = seq<bv8>

  datatype MediaType =
    | ManifestMedia | ConfigMedia | ChartMedia | ProvMedia
    | SignaturePayloadMedia | ImageConfigMedia
  {
    function Text(): string {
      match this
      case ManifestMedia => "application/vnd.oci.image.manifest.v1+json"
      case ConfigMedia => "application/vnd.cncf.helm.config.v1+json"
      case ChartMedia => "application/vnd.cncf.helm.chart.content.v1.tar+gzip"
      case ProvMedia => "application/vnd.cncf.helm.chart.provenance.v1.prov"
      case SignaturePayloadMedia => "application/vnd.dev.cosign.simplesigning.v1+json"
      case ImageConfigMedia => "application/vnd.oci.image.config.v1+json"
    }
  }

  /** The cap on the Chart.yaml read out of the tarball: 4 MiB, the rest is dropped silently. */
  const MAX_CHART_YAML: nat := 4194304

  /** Every way a lookup can fail that some caller tells apart, and the rest. */
  datatype Error =
    | NotFound
    | TooLarge
    | DigestMismatch
    | HostNotAllowed
    | ChartUnknown
    | VersionUnknown
    | BlobUnknown
    | Other(message: string)

  datatype TarEntry = TarEntry(name: string, header: string, data: Bytes)

  /** What reading a tarball meets: entries in order, then the end or a fault. */
  datatype Archive = Archive(entries: seq<TarEntry>, corrupt: bool)

  datatype Descriptor = Descriptor(mediaType: MediaType, digest: string, size: nat, annotations: map<string, string>)

  datatype Manifest = Manifest(config: Descriptor, layers: seq<Descriptor>, annotations: map<string, string>)

  /** The byte formats and hash the registry calls but does not define, as pure functions. */
  datatype Codec = Codec(
    sha256Hex: Bytes -> string,
    unpack: Bytes -> Option<Archive>,
    decodeYaml: Bytes -> Option<Value>,
    marshalJson: Json -> Option<Bytes>,
    marshalManifest: Manifest -> Bytes,
    parseManifest: Bytes -> Option<Manifest>)

  function Digest(codec: Codec, b: Bytes): string {
    "sha256:" + codec.sha256Hex(b)
  }

  /** No two byte strings share a hash. */
  ghost predicate CollisionFree(codec: Codec) {
    forall a, b | codec.sha256Hex(a) == codec.sha256Hex(b) :: a == b
  }

  /** Clients read back the manifest that was marshalled. */
  ghost predicate ManifestRoundTrips(codec: Codec) {
    forall m :: codec.parseManifest(codec.marshalManifest(m)) == Some(m)
  }

  datatype Artifact = Artifact(
    name: string, version: string,
    manifest: Bytes, manifestDigest: string,
    config: Bytes, configDigest: string,
    chart: Bytes, chartDigest: string,
    prov: Option<Bytes>, provDigest: string)
  {
    /** Looks a digest up among config, chart and provenance. */
    function Blob(digest: string): Option<(Bytes, MediaType)> {
      if digest == configDigest then Some((config, ConfigMedia))
      else if digest == chartDigest then Some((chart, ChartMedia))
      else if digest == provDigest && prov.Some? then Some((prov.value, ProvMedia))
      else None
    }
  }

  /** The chart's own Chart.yaml, <dir>/Chart.yaml, and no bundled dependency's. */
  predicate IsChartYaml(name: string) {
    var cut := Cut(TrimPrefix(name, "./"), '/');
    cut.Some? && cut.value.0 != "" && cut.value.1 == "Chart.yaml"
  }

  /** The metadata of the first Chart.yaml; a fault later in the archive is never reached. */
  function ChartMetadata(codec: Codec, chart: Bytes): (r: Result<Value, Error>)
    ensures r.Ok? ==> StringKeyed(r.value) && r.value.Map?
  {
    match codec.unpack(chart)
    case None => Err(Other("chart is not a gzip archive"))
    case Some(archive) => FirstChartYaml(codec, archive.entries, archive.corrupt)
  }

  function FirstChartYaml(codec: Codec, entries: seq<TarEntry>, corrupt: bool): (r: Result<Value, Error>)
    ensures r.Ok? ==> StringKeyed(r.value) && r.value.Map?
  {
    if entries == [] then
      Err(Other(if corrupt then "read chart tarball" else "chart tarball has no Chart.yaml"))
    else if !IsChartYaml(entries[0].name) then
      FirstChartYaml(codec, entries[1..], corrupt)
    else
      var data := entries[0].data;
      match codec.decodeYaml(if |data| > MAX_CHART_YAML then data[..MAX_CHART_YAML] else data)
      case Some(v) =>
        NormalizeStringKeyed(v);
        if v.Map? then Ok(Normalize(v)) else Err(Other("parse Chart.yaml"))
      case None => Err(Other("parse Chart.yaml"))
  }

  /** meta[key].(string): empty when absent or not a string. */
  function StringField(meta: Value, key: string): string
    requires meta.Map?
  {
    StringEntry(meta.entries, key)
  }

  function StringEntry(entries: seq<Entry>, key: string): string {
    if entries == [] then ""
    else if entries[0].key.text == key then
      (match entries[0].value
       case Leaf(s) => if s.kind == Text then s.text else ""
       case _ => "")
    else StringEntry(entries[1..], key)
  }

  function Annotation(key: string, value: string): map<string, string> {
    if value == "" then map[] else map[key := value]
  }

  function Annotations(meta: Value): map<string, string>
    requires meta.Map?
  {
    Annotation("org.opencontainers.image.title", StringField(meta, "name"))
    + Annotation("org.opencontainers.image.version", StringField(meta, "version"))
    + Annotation("org.opencontainers.image.description", StringField(meta, "description"))
  }

  /** Build derives the artifact; it depends on nothing but its two inputs. */
  function Build(codec: Codec, chart: Bytes, prov: Option<Bytes>): (r: Result<Artifact, Error>)
    ensures r.Ok? ==> Sealed(codec, r.value) && r.value.chart == chart && r.value.prov == prov
  {
    var meta :- ChartMetadata(codec, chart);
    match codec.marshalJson(Marshal(meta))
    case None => Err(Other("marshal config blob"))
    case Some(config) =>
        var name, version := StringField(meta, "name"), StringField(meta, "version");
        if name == "" || version == "" then Err(Other("Chart.yaml is missing name or version"))
        else
          var chartLayer := Descriptor(ChartMedia, Digest(codec, chart), |chart|, map[]);
          var provLayers := match prov
            case Some(p) => [Descriptor(ProvMedia, Digest(codec, p), |p|, map[])]
            case None => [];
          var m := Manifest(Descriptor(ConfigMedia, Digest(codec, config), |config|, map[]),
                            [chartLayer] + provLayers, Annotations(meta));
          var raw := codec.marshalManifest(m);
          var art := Artifact(name, version, raw, Digest(codec, raw), config, Digest(codec, config),
                              chart, Digest(codec, chart), prov, if prov.Some? then Digest(codec, prov.value) else "");
          assert Describes(m, art);
          Ok(art)
  }

  /** What every artifact ever built satisfies: its digests are those of its bytes,
      and its manifest describes exactly its own blobs. */
  ghost predicate Sealed(codec: Codec, a: Artifact) {
    && a.manifestDigest == Digest(codec, a.manifest)
    && a.configDigest == Digest(codec, a.config)
    && a.chartDigest == Digest(codec, a.chart)
    && (a.prov.Some? ==> a.provDigest == Digest(codec, a.prov.value))
    && a.version != ""
    && exists m :: a.manifest == codec.marshalManifest(m) && Describes(m, a)
  }

  ghost predicate Describes(m: Manifest, a: Artifact) {
    && m.config == Descriptor(ConfigMedia, a.configDigest, |a.config|, map[])
    && |m.layers| == (if a.prov.Some? then 2 else 1)
    && m.layers[0] == Descriptor(ChartMedia, a.chartDigest, |a.chart|, map[])
    && (a.prov.Some? ==> m.layers[1] == Descriptor(ProvMedia, a.provDigest, |a.prov.value|, map[]))
  }

  /** The descriptors a client follows after reading a manifest. */
  function References(m: Manifest): seq<Descriptor> {
    [m.config] + m.layers
  }

  /** A blob found under a digest has that digest. */
  lemma BlobHasDigest(codec: Codec, a: Artifact, digest: string)
    requires Sealed(codec, a) && a.Blob(digest).Some?
    ensures Digest(codec, a.Blob(digest).value.0) == digest
  {
  }

  /** Whatever a sealed manifest references, its own artifact holds, with the stated size. */
  lemma ReferencesHeld(codec: Codec, a: Artifact, m: Manifest, d: Descriptor)
    requires CollisionFree(codec) && ManifestRoundTrips(codec)
    requires Sealed(codec, a) && codec.parseManifest(a.manifest) == Some(m) && d in References(m)
    ensures a.Blob(d.digest).Some? && |a.Blob(d.digest).value.0| == d.size
  {
    var m' :| a.manifest == codec.marshalManifest(m') && Describes(m', a);
    assert codec.parseManifest(codec.marshalManifest(m')) == Some(m');
    BlobHasDigest(codec, a, d.digest);
    SameDigestSameBytes(codec, a.Blob(d.digest).value.0,
      if d == m.config then a.config else if d == m.layers[0] then a.chart else a.prov.value);
  }

  lemma SameDigestSameBytes(codec: Codec, a: Bytes, b: Bytes)
    requires CollisionFree(codec) && Digest(codec, a) == Digest(codec, b)
    ensures a == b
  {
    assert codec.sha256Hex(a) == Digest(codec, a)[7..];
  }
}
