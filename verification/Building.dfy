/** Building an artifact as artifact.go runs it, and what the result is determined by. */
module Building {
  import opened Wrappers
  import opened Text
  import opened Metadata
  import opened Oci

  // As the code runs.

  /** The tar loop: up to the first Chart.yaml, and no further. */
  method ReadMetadata(codec: Codec, chart: Bytes) returns (r: Result<Value, Error>)
    ensures r == ChartMetadata(codec, chart)
  {
    var archive := codec.unpack(chart);
    if archive.None? {
      return Err(Other("chart is not a gzip archive"));
    }
    var entries, corrupt := archive.value.entries, archive.value.corrupt;
    var i := 0;
    while i < |entries| && !IsChartYaml(entries[i].name)
      invariant i <= |entries|
      invariant FirstChartYaml(codec, entries[i..], corrupt) == FirstChartYaml(codec, entries, corrupt)
    {
      assert entries[i..][1..] == entries[i + 1..];
      i := i + 1;
    }
    if i == |entries| {
      return Err(Other(if corrupt then "read chart tarball" else "chart tarball has no Chart.yaml"));
    }
    return Decoded(codec, entries[i].data);
  }

  /** One Chart.yaml, read up to the cap. */
  function Decoded(codec: Codec, data: Bytes): Result<Value, Error> {
    match codec.decodeYaml(if |data| > MAX_CHART_YAML then data[..MAX_CHART_YAML] else data)
    case Some(v) => if v.Map? then Ok(Normalize(v)) else Err(Other("parse Chart.yaml"))
    case None => Err(Other("parse Chart.yaml"))
  }

  method Annotate(meta: Value) returns (ann: map<string, string>)
    requires meta.Map?
    ensures ann == Annotations(meta)
  {
    ann := map[];
    var name := StringField(meta, "name");
    if name != "" {
      ann := ann["org.opencontainers.image.title" := name];
    }
    var version := StringField(meta, "version");
    if version != "" {
      ann := ann["org.opencontainers.image.version" := version];
    }
    var description := StringField(meta, "description");
    if description != "" {
      ann := ann["org.opencontainers.image.description" := description];
    }
  }

  method BuildArtifact(codec: Codec, chart: Bytes, prov: Option<Bytes>) returns (r: Result<Artifact, Error>)
    ensures r == Build(codec, chart, prov)
  {
    hide ChartMetadata, Annotations;
    var meta := ReadMetadata(codec, chart);
    if meta.Err? {
      return Err(meta.error);
    }
    var config := codec.marshalJson(Marshal(meta.value));
    if config.None? {
      return Err(Other("marshal config blob"));
    }
    var name, version := StringField(meta.value, "name"), StringField(meta.value, "version");
    if name == "" || version == "" {
      return Err(Other("Chart.yaml is missing name or version"));
    }
    var ann := Annotate(meta.value);
    var manifest := Manifest(
      Descriptor(ConfigMedia, Digest(codec, config.value), |config.value|, map[]),
      [Descriptor(ChartMedia, Digest(codec, chart), |chart|, map[])],
      ann);
    var provDigest := "";
    assert manifest.layers + [] == manifest.layers;
    if prov.Some? {
      provDigest := Digest(codec, prov.value);
      manifest := manifest.(layers := manifest.layers + [Descriptor(ProvMedia, provDigest, |prov.value|, map[])]);
    }
    var raw := codec.marshalManifest(manifest);
    return Ok(Artifact(name, version, raw, Digest(codec, raw), config.value, Digest(codec, config.value),
                       chart, Digest(codec, chart), prov, provDigest));
  }

  // What it means.

  ghost predicate FirstChartAt(entries: seq<TarEntry>, i: nat) {
    i < |entries| && IsChartYaml(entries[i].name) && forall j | 0 <= j < i :: !IsChartYaml(entries[j].name)
  }

  lemma {:induction false} FirstDecides(codec: Codec, entries: seq<TarEntry>, corrupt: bool, i: nat)
    requires FirstChartAt(entries, i)
    ensures FirstChartYaml(codec, entries, corrupt) == Decoded(codec, entries[i].data)
  {
    if i > 0 {
      FirstDecides(codec, entries[1..], corrupt, i - 1);
    }
  }

  lemma {:induction false} NoneFails(codec: Codec, entries: seq<TarEntry>, corrupt: bool)
    requires forall e | e in entries :: !IsChartYaml(e.name)
    ensures FirstChartYaml(codec, entries, corrupt).Err?
  {
    if entries != [] {
      NoneFails(codec, entries[1..], corrupt);
    }
  }

  lemma {:induction false} FirstExists(entries: seq<TarEntry>) returns (i: nat)
    requires exists e :: e in entries && IsChartYaml(e.name)
    ensures FirstChartAt(entries, i)
  {
    if IsChartYaml(entries[0].name) {
      i := 0;
    } else {
      i := FirstExists(entries[1..]);
      i := i + 1;
      assert forall j | 0 < j < i :: entries[j] == entries[1..][j - 1];
    }
  }

  /** A Chart.yaml is one directory down, whatever stands in front of that directory being nothing or "./". */
  lemma IsChartYamlIff(name: string)
    ensures IsChartYaml(name) <==>
      exists dir: string :: dir != "" && '/' !in dir
        && (name == "./" + dir + "/Chart.yaml" || (name == dir + "/Chart.yaml" && dir != "."))
  {
    var trimmed := TrimPrefix(name, "./");
    var i := IndexOf(trimmed, '/');
    if IsChartYaml(name) {
      var dir := trimmed[..i];
      SlashFirst(dir);
      assert trimmed == dir + ['/'] + trimmed[i + 1..];
      if HasPrefix(name, "./") {
        assert name == "./" + trimmed;
        assert name == "./" + dir + "/Chart.yaml";
      } else {
        DotIsPrefix(dir);
        assert name == dir + "/Chart.yaml";
      }
    }
    forall dir: string | dir != "" && '/' !in dir
      && (name == "./" + dir + "/Chart.yaml" || (name == dir + "/Chart.yaml" && dir != "."))
      ensures IsChartYaml(name)
    {
      TrimmedName(name, dir);
      CutAtSlash(dir);
    }
  }

  lemma SlashFirst(dir: string)
    ensures dir + "/Chart.yaml" == dir + ['/'] + "Chart.yaml"
  {
  }

  lemma DotIsPrefix(dir: string)
    requires dir != "" && '/' !in dir
    ensures HasPrefix(dir + "/Chart.yaml", "./") <==> dir == "."
  {
    var name := dir + "/Chart.yaml";
    if |dir| >= 2 {
      assert name[1] == dir[1] && dir[1] in dir;
    } else {
      assert dir == [dir[0]] && name[0] == dir[0] && name[1] == '/';
      assert HasPrefix(name, "./") ==> name[0] == "./"[0];
      assert name[..2] == [dir[0], '/'];
      assert name == name[..2] + name[2..];
    }
  }

  lemma TrimmedName(name: string, dir: string)
    requires dir != "" && '/' !in dir
    requires name == "./" + dir + "/Chart.yaml" || (name == dir + "/Chart.yaml" && dir != ".")
    ensures TrimPrefix(name, "./") == dir + "/Chart.yaml"
  {
    if name == "./" + dir + "/Chart.yaml" {
      assert name == "./" + (dir + "/Chart.yaml");
    } else {
      DotIsPrefix(dir);
    }
  }

  lemma CutAtSlash(dir: string)
    requires '/' !in dir
    ensures Cut(dir + "/Chart.yaml", '/') == Some((dir, "Chart.yaml"))
  {
    var s := dir + "/Chart.yaml";
    assert s[|dir|] == '/' && forall k | 0 <= k < |dir| :: s[k] == dir[k] && dir[k] in dir;
    assert IndexOf(s, '/') == |dir|;
    assert s[..|dir|] == dir && s[|dir| + 1..] == "Chart.yaml";
  }

  /** A string field is the value its one key has, and absent or no string otherwise. */
  lemma {:induction false} StringEntryIs(entries: seq<Entry>, key: string, text: string)
    requires text != "" && DistinctKeys(entries) && forall e | e in entries :: e.key.kind == Text
    ensures StringEntry(entries, key) == text <==> Entry(Scalar(Text, key), Leaf(Scalar(Text, text))) in entries
  {
    if entries != [] {
      StringEntryIs(entries[1..], key, text);
      assert entries == [entries[0]] + entries[1..];
      if entries[0].key.text == key {
        assert entries[0].key == Scalar(Text, key);
      }
    }
  }

  /** The metadata holds this string under this key. */
  ghost predicate HasString(meta: Value, key: string, text: string) {
    text != "" && meta.Map? && Entry(Scalar(Text, key), Leaf(Scalar(Text, text))) in meta.entries
  }

  /** What an artifact built from a first Chart.yaml that decodes to v is. */
  ghost predicate Portrays(codec: Codec, a: Artifact, v: Value, m: Manifest) {
    && v.Map? && codec.marshalJson(Config(v)) == Some(a.config)
    && HasString(Normalize(v), "name", a.name) && HasString(Normalize(v), "version", a.version)
    && a.manifest == codec.marshalManifest(m) && Describes(m, a)
    && m.annotations.Keys <= {"org.opencontainers.image.title", "org.opencontainers.image.version",
                              "org.opencontainers.image.description"}
    && Annotated(m, "org.opencontainers.image.title", a.name)
        && Annotated(m, "org.opencontainers.image.version", a.version)
    && forall text ::
        Annotated(m, "org.opencontainers.image.description", text) <==> HasString(Normalize(v), "description", text)
  }

  ghost predicate Annotated(m: Manifest, key: string, text: string) {
    key in m.annotations && m.annotations[key] == text
  }

  lemma AnnotationsAre(meta: Value)
    requires StringKeyed(meta) && meta.Map?
    ensures var ann := Annotations(meta);
      && (forall text :: HasString(meta, "name", text) <==>
            "org.opencontainers.image.title" in ann && ann["org.opencontainers.image.title"] == text)
      && (forall text :: HasString(meta, "version", text) <==>
            "org.opencontainers.image.version" in ann && ann["org.opencontainers.image.version"] == text)
      && (forall text :: HasString(meta, "description", text) <==>
            "org.opencontainers.image.description" in ann && ann["org.opencontainers.image.description"] == text)
      && ann.Keys <= {"org.opencontainers.image.title", "org.opencontainers.image.version",
                      "org.opencontainers.image.description"}
  {
    hide HasString, StringField;
    assert |"org.opencontainers.image.title"| < |"org.opencontainers.image.version"|;
    assert |"org.opencontainers.image.version"| < |"org.opencontainers.image.description"|;
    forall key, text ensures HasString(meta, key, text) <==> text != "" && StringField(meta, key) == text {
      FieldIs(meta, key, text);
    }
  }

  lemma FieldIs(meta: Value, key: string, text: string)
    requires StringKeyed(meta) && meta.Map?
    ensures HasString(meta, key, text) <==> text != "" && StringField(meta, key) == text
  {
    hide StringEntry;
    if text != "" {
      StringEntryIs(meta.entries, key, text);
    }
  }

  lemma BuildFrom(codec: Codec, chart: Bytes, prov: Option<Bytes>)
    requires Build(codec, chart, prov).Ok?
    ensures ChartMetadata(codec, chart).Ok?
    ensures var a, meta := Build(codec, chart, prov).value, ChartMetadata(codec, chart).value;
      && a.name == StringField(meta, "name") != "" && a.version == StringField(meta, "version") != ""
      && codec.marshalJson(Marshal(meta)) == Some(a.config)
      && a.manifest == codec.marshalManifest(ManifestOf(codec, a, meta)) && Describes(ManifestOf(codec, a, meta), a)
  {
  }

  lemma MetadataFrom(codec: Codec, chart: Bytes) returns (i: nat, v: Value)
    requires ChartMetadata(codec, chart).Ok?
    ensures codec.unpack(chart).Some? && FirstChartAt(codec.unpack(chart).value.entries, i)
    ensures codec.decodeYaml(Capped(codec.unpack(chart).value.entries[i].data)) == Some(v)
    ensures v.Map? && ChartMetadata(codec, chart) == Ok(Normalize(v))
  {
    hide Normalize, IsChartYaml;
    var archive := codec.unpack(chart).value;
    if forall e | e in archive.entries :: !IsChartYaml(e.name) {
      NoneFails(codec, archive.entries, archive.corrupt);
    }
    i := FirstExists(archive.entries);
    FirstDecides(codec, archive.entries, archive.corrupt, i);
    v := codec.decodeYaml(Capped(archive.entries[i].data)).value;
  }

  /** Everything in a built artifact but its chart and provenance comes from the first Chart.yaml alone: its
      config is that metadata normalised and marshalled, its name, version and annotations are that metadata's. */
  lemma BuildPortraysChartYaml(codec: Codec, chart: Bytes, prov: Option<Bytes>) returns (i: nat, v: Value, m: Manifest)
    requires Build(codec, chart, prov).Ok?
    ensures codec.unpack(chart).Some? && FirstChartAt(codec.unpack(chart).value.entries, i)
    ensures codec.decodeYaml(Capped(codec.unpack(chart).value.entries[i].data)) == Some(v)
    ensures Portrays(codec, Build(codec, chart, prov).value, v, m)
  {
    hide Build, ChartMetadata, Annotations, StringEntry, Marshal, Normalize, Describes, IsChartYaml;
    BuildFrom(codec, chart, prov);
    i, v := MetadataFrom(codec, chart);
    var a, meta := Build(codec, chart, prov).value, ChartMetadata(codec, chart).value;
    NormalizeStringKeyed(v);
    StringEntryIs(meta.entries, "name", a.name);
    StringEntryIs(meta.entries, "version", a.version);
    AnnotationsAre(meta);
    m := ManifestOf(codec, a, meta);
  }

  /** A tarball builds exactly if it unpacks, the first Chart.yaml in it decodes to a map with a name and a version, and
      its metadata marshals; what else is in it, and whether it ends well, does not matter. */
  lemma BuildsExactly(codec: Codec, chart: Bytes, prov: Option<Bytes>)
    ensures Build(codec, chart, prov).Ok? <==>
      codec.unpack(chart).Some? && exists i: nat :: BuildsFrom(codec, codec.unpack(chart).value.entries, i)
  {
    hide Build, ChartMetadata, Marshal, Normalize, IsChartYaml, StringKeyed, FirstChartYaml, Decoded;
    if Build(codec, chart, prov).Ok? {
      var i, v, m := BuildPortraysChartYaml(codec, chart, prov);
      assert BuildsFrom(codec, codec.unpack(chart).value.entries, i);
    }
    if codec.unpack(chart).Some? {
      forall i: nat | BuildsFrom(codec, codec.unpack(chart).value.entries, i) ensures Build(codec, chart, prov).Ok? {
        BuildsFromFirst(codec, chart, prov, i);
      }
    }
  }

  ghost predicate BuildsFrom(codec: Codec, entries: seq<TarEntry>, i: nat) {
    && FirstChartAt(entries, i)
    && var data := entries[i].data;
    var decoded := codec.decodeYaml(if |data| > 4194304 then data[..4194304] else data);
    && decoded.Some? && decoded.value.Map? && codec.marshalJson(Config(decoded.value)).Some?
    && (exists name :: HasString(Normalize(decoded.value), "name", name))
    && exists version :: HasString(Normalize(decoded.value), "version", version)
  }

  lemma BuildsFromFirst(codec: Codec, chart: Bytes, prov: Option<Bytes>, i: nat)
    requires codec.unpack(chart).Some? && BuildsFrom(codec, codec.unpack(chart).value.entries, i)
    ensures Build(codec, chart, prov).Ok?
  {
    hide Marshal, Normalize, IsChartYaml, FirstChartYaml, HasString, StringField, Annotations;
    var archive := codec.unpack(chart).value;
    FirstDecides(codec, archive.entries, archive.corrupt, i);
    var v := codec.decodeYaml(Capped(archive.entries[i].data)).value;
    NormalizeStringKeyed(v);
    var meta := Normalize(v);
    var name: string :| HasString(meta, "name", name);
    var version: string :| HasString(meta, "version", version);
    FieldIs(meta, "name", name);
    FieldIs(meta, "version", version);
  }

  function Capped(data: Bytes): Bytes {
    if |data| > MAX_CHART_YAML then data[..MAX_CHART_YAML] else data
  }

  function ManifestOf(codec: Codec, a: Artifact, meta: Value): Manifest
    requires meta.Map?
  {
    Manifest(Descriptor(ConfigMedia, a.configDigest, |a.config|, map[]),
             [Descriptor(ChartMedia, a.chartDigest, |a.chart|, map[])]
             + (if a.prov.Some? then [Descriptor(ProvMedia, a.provDigest, |a.prov.value|, map[])] else []),
             Annotations(meta))
  }
}
