/** A chart whose dependencies were rewritten still builds, under the name and version it had. */
module RewriteBuilds {
  import opened Wrappers
  import opened Metadata
  import opened Oci
  import opened Building
  import opened Rewriting
  import opened RewriteLaws
  import opened Decoding

  /** The fields an artifact is named and annotated by. */
  function Named(): set<string> {
    {"name", "version", "description"}
  }

  lemma {:induction false} EntriesAlikeReflexive(named: set<string>, entries: seq<Entry>)
    ensures EntriesAlike(named, entries, entries)
  {
    forall i | 0 <= i < |entries| ensures EntryAlike(named, entries[i], entries[i]) {
      ValuesAlikeReflexive(entries[i].value);
    }
  }

  lemma RootRewrittenAlike(tools: Tools, host: string, rules: ScalarRules, doc: Node)
    requires RulesOk(rules, Named()) && HasRootMapping(doc) && doc.kind == DocumentNode
    requires DecodeMapping(rules, true, doc.content[0], false, []).Some?
    ensures var root, root' := doc.content[0], RewriteDocument(tools, host, doc).content[0];
      && root'.kind == MappingNode && DecodeMapping(rules, true, root', false, []).Some?
      && EntriesAlike(Named(), DecodeMapping(rules, true, root, false, []).value,
                      DecodeMapping(rules, true, root', false, []).value)
  {
    hide DecodeMapping, EntriesAlike, RulesOk, Named, RewriteSections;
    var root, root' := doc.content[0], RewriteDocument(tools, host, doc).content[0];
    DocumentAlike(tools, host, doc);
    assert NodesAlike(root, root');
    forall i: nat | i < |root.content| && root'.content[i] != root.content[i]
      ensures i % 2 == 1 && root.content[i - 1].value == "dependencies"
    {
      SectionsAt(tools, host, root.content, i);
    }
    RootAlike(rules, Named(), root, root');
  }

  /** Rewriting a document changes nothing of what it decodes to but texts, and no named field. */
  lemma DocumentDecodesAlike(tools: Tools, host: string, rules: ScalarRules, doc: Node)
    requires RulesOk(rules, Named()) && doc.kind == DocumentNode && DecodeDocument(rules, doc).Some?
    ensures var v, v' := DecodeDocument(rules, doc), DecodeDocument(rules, RewriteDocument(tools, host, doc));
      && v.value.Map? && v'.Some? && v'.value.Map? && v'.value.anyKeyed == v.value.anyKeyed
      && EntriesAlike(Named(), v.value.entries, v'.value.entries)
  {
    hide DecodeMapping, EntriesAlike, RulesOk, Named;
    if HasRootMapping(doc) {
      RootRewrittenAlike(tools, host, rules, doc);
    } else {
      EntriesAlikeReflexive(Named(), DecodeDocument(rules, doc).value.entries);
    }
  }

  lemma {:induction false} AliasFreeKept(n: Node, n': Node)
    requires NodesAlike(n, n') && AliasFree(n)
    ensures AliasFree(n')
    decreases n
  {
    forall c' | c' in n'.content ensures AliasFree(c') {
      var i: nat :| i < |n'.content| && n'.content[i] == c';
      AliasFreeKept(n.content[i], c');
    }
  }

  /** If rewriting touches this Chart.yaml, its tree has no alias, and it is read whole before and after. */
  ghost predicate ReadWhole(tools: Tools, host: string, e: TarEntry, e': TarEntry) {
    NeedsRewriting(tools, host, e) ==>
      AliasFree(tools.parseNode(e.data).value) && |e.data| <= MAX_CHART_YAML && |e'.data| <= MAX_CHART_YAML
  }

  /** Metadata that differ only in texts, and not at all in the named fields. */
  ghost predicate MetadataAlike(a: Value, b: Value) {
    a.Map? && b.Map? && b.anyKeyed == a.anyKeyed && EntriesAlike(Named(), a.entries, b.entries)
  }

  lemma ChartDecodesAlike(codec: Codec, tools: Tools, host: string, rules: ScalarRules, e: TarEntry, e': TarEntry)
    requires ToolsInvert(codec, tools) && DecodesTrees(codec, tools, rules) && RulesOk(rules, Named())
    requires EntryRewritten(tools, host, e, e') && ReadWhole(tools, host, e, e') && Decoded(codec, e.data).Ok?
    ensures Decoded(codec, e'.data).Ok? && MetadataAlike(Decoded(codec, e.data).value, Decoded(codec, e'.data).value)
  {
    hide DecodeDocument, RewriteDocument, EntriesAlike, RulesOk, Named, NodesAlike, AliasFree;
    if NeedsRewriting(tools, host, e) {
      var doc := tools.parseNode(e.data).value;
      DocumentAlike(tools, host, doc);
      AliasFreeKept(doc, RewriteDocument(tools, host, doc));
      DocumentDecodesAlike(tools, host, rules, doc);
      var v, v' := codec.decodeYaml(e.data).value, codec.decodeYaml(e'.data).value;
      NormalizeEntriesAlike(Named(), v.entries, v'.entries);
    } else {
      EntriesAlikeReflexive(Named(), Decoded(codec, e.data).value.entries);
    }
  }

  lemma FieldsAgree(a: Value, b: Value)
    requires MetadataAlike(a, b)
    ensures StringField(b, "name") == StringField(a, "name")
    ensures StringField(b, "version") == StringField(a, "version")
    ensures Annotations(b) == Annotations(a)
  {
    hide EntriesAlike;
    StringEntryAlike(Named(), a.entries, b.entries, "name");
    StringEntryAlike(Named(), a.entries, b.entries, "version");
    StringEntryAlike(Named(), a.entries, b.entries, "description");
  }

  lemma BothEncodable(codec: Codec, a: Value, b: Value)
    requires EncodesByLeaf(codec) && MetadataAlike(a, b) && codec.marshalJson(Marshal(a)).Some?
    ensures codec.marshalJson(Marshal(b)).Some?
  {
    hide Marshal, Encodable;
    assert forall i | 0 <= i < |a.entries| :: EntryAlike(Named(), a.entries[i], b.entries[i]);
    assert ValuesAlike(a, b);
    EncodableAlike(codec, a, b);
  }

  lemma BuildsAlike(codec: Codec, chart: Bytes, out: Bytes, prov: Option<Bytes>, prov': Option<Bytes>)
    requires EncodesByLeaf(codec) && Build(codec, chart, prov).Ok?
    requires ChartMetadata(codec, out).Ok?
    requires MetadataAlike(ChartMetadata(codec, chart).value, ChartMetadata(codec, out).value)
    ensures Build(codec, out, prov').Ok?
    ensures Build(codec, out, prov').value.name == Build(codec, chart, prov).value.name
    ensures Build(codec, out, prov').value.version == Build(codec, chart, prov).value.version
    ensures Annotations(ChartMetadata(codec, out).value) == Annotations(ChartMetadata(codec, chart).value)
  {
    hide ChartMetadata, Annotations, Marshal, MetadataAlike, StringField, EncodesByLeaf;
    var a, b := ChartMetadata(codec, chart).value, ChartMetadata(codec, out).value;
    BothEncodable(codec, a, b);
    FieldsAgree(a, b);
  }

  lemma FirstChartKept(tools: Tools, host: string, es: seq<TarEntry>, es': seq<TarEntry>, i: nat)
    requires EntriesRewritten(tools, host, es, es') && FirstChartAt(es, i)
    ensures FirstChartAt(es', i)
  {
    hide NeedsRewriting, IsChartYaml;
    forall j | 0 <= j < |es| ensures es'[j].name == es[j].name {
      assert EntryRewritten(tools, host, es[j], es'[j]);
    }
  }

  /** The chart that decides an artifact is read whole where rewriting touches it. */
  ghost predicate FirstReadWhole(codec: Codec, tools: Tools, host: string, chart: Bytes, out: Bytes) {
    codec.unpack(chart).Some? && codec.unpack(out).Some? ==>
      var es, es' := codec.unpack(chart).value.entries, codec.unpack(out).value.entries;
      forall i: nat | FirstChartAt(es, i) && i < |es'| :: ReadWhole(tools, host, es[i], es'[i])
  }

  /** If a chart builds, so does what rewriting makes of it, with the same name, version and annotations. */
  lemma RewriteKeepsNameAndVersion(codec: Codec, tools: Tools, rules: ScalarRules, chart: Bytes, host: string,
                                   prov: Option<Bytes>, prov': Option<Bytes>)
    requires ToolsInvert(codec, tools) && EncodesByLeaf(codec)
    requires DecodesTrees(codec, tools, rules) && RulesOk(rules, Named())
    requires Build(codec, chart, prov).Ok? && RewriteDependencies(codec, tools, chart, host).Ok?
    requires FirstReadWhole(codec, tools, host, chart, RewriteDependencies(codec, tools, chart, host).value)
    ensures var out := RewriteDependencies(codec, tools, chart, host).value;
      && Build(codec, out, prov').Ok?
      && Build(codec, out, prov').value.name == Build(codec, chart, prov).value.name
      && Build(codec, out, prov').value.version == Build(codec, chart, prov).value.version
      && ChartMetadata(codec, chart).Ok? && ChartMetadata(codec, out).Ok?
      && Annotations(ChartMetadata(codec, out).value) == Annotations(ChartMetadata(codec, chart).value)
  {
    hide RewriteDependencies, Build, Annotations, ToolsInvert, DecodesTrees, RulesOk, EncodesByLeaf, EntryRewritten,
        Decoded,
      MetadataAlike, ReadWhole, FirstChartYaml, FirstChartAt;
    var out := RewriteDependencies(codec, tools, chart, host).value;
    TarballLaw(codec, tools, chart, host);
    var archive, archive' := codec.unpack(chart).value, codec.unpack(out).value;
    BuildFrom(codec, chart, prov);
    var i, v := MetadataFrom(codec, chart);
    FirstChartKept(tools, host, archive.entries, archive'.entries, i);
    FirstDecides(codec, archive.entries, archive.corrupt, i);
    FirstDecides(codec, archive'.entries, archive'.corrupt, i);
    InRange(archive.entries, i);
    ChartDecodesAlike(codec, tools, host, rules, archive.entries[i], archive'.entries[i]);
    BuildsAlike(codec, chart, out, prov, prov');
  }

  lemma InRange(entries: seq<TarEntry>, i: nat)
    requires FirstChartAt(entries, i)
    ensures i < |entries|
  {
  }
}
