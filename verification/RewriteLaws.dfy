/** What dependency rewriting changes, and all that it keeps. */
module RewriteLaws {
  import opened Wrappers
  import opened Oci
  import opened Rewriting

  // Position by position.

  /** The value position of a key-value pair. */
  predicate IsValue(content: seq<Node>, i: nat) {
    i < |content| && i % 2 == 1
  }

  /** A position of a mapping afterwards. */
  function FieldAt(tools: Tools, host: string, content: seq<Node>, i: nat): Node
    requires i < |content|
  {
    if IsValue(content, i) then RewriteField(tools, host, content[i - 1], content[i]) else content[i]
  }

  lemma {:induction false} FieldsAt(tools: Tools, host: string, content: seq<Node>, i: nat)
    requires i < |content|
    ensures RewriteFields(tools, host, content)[i] == FieldAt(tools, host, content, i)
  {
    hide RewriteField;
    if i >= 2 {
      FieldsAt(tools, host, content[2..], i - 2);
    }
  }

  lemma {:induction false} ListAt(tools: Tools, host: string, deps: seq<Node>, j: nat)
    requires j < |deps|
    ensures RewriteList(tools, host, deps)[j] == RewriteDependency(tools, host, deps[j])
  {
    if j > 0 {
      ListAt(tools, host, deps[1..], j - 1);
    }
  }

  lemma {:induction false} SectionsAt(tools: Tools, host: string, content: seq<Node>, i: nat)
    requires i < |content|
    ensures RewriteSections(tools, host, content)[i]
         == if IsValue(content, i) then RewriteSection(tools, host, content[i - 1], content[i]) else content[i]
  {
    hide RewriteSection;
    if i >= 2 {
      SectionsAt(tools, host, content[2..], i - 2);
    }
  }

  // Locality: a node is named by the child positions leading to it.

  function NodeAt(n: Node, path: seq<nat>): Option<Node> {
    if path == [] then Some(n)
    else if path[0] < |n.content| then NodeAt(n.content[path[0]], path[1..])
    else None
  }

  /** content[i] is a value, and its key reads name. */
  predicate ValueOf(content: seq<Node>, i: nat, name: string) {
    IsValue(content, i) && content[i - 1].value == name
  }

  /** The path leads to a scalar under a repository key of a mapping listed under a root dependencies key. */
  predicate IsRepository(doc: Node, path: seq<nat>) {
    && |path| == 4 && path[0] == 0 && HasRootMapping(doc)
    && var root := doc.content[0];
    && ValueOf(root.content, path[1], "dependencies")
    && var deps := root.content[path[1]];
    && deps.kind == SequenceNode && path[2] < |deps.content|
    && var dep := deps.content[path[2]];
    && dep.kind == MappingNode && ValueOf(dep.content, path[3], "repository")
    && dep.content[path[3]].kind == ScalarNode
  }

  function NewValue(tools: Tools, host: string, value: string): string {
    var r := RewriteRepoUrl(tools, value, host);
    if r.Some? then r.value else value
  }

  /** n' is n but for its children and, where it is a repository, its value. */
  ghost predicate SameShape(tools: Tools, host: string, n: Node, n': Node, repository: bool) {
    && n'.kind == n.kind && n'.decor == n.decor && |n'.content| == |n.content|
    && n'.value == if repository then NewValue(tools, host, n.value) else n.value
  }

  /** What rewriting does at one path: the node is there exactly if it was, of the same shape. */
  ghost predicate KeptAt(tools: Tools, host: string, n: Option<Node>, n': Option<Node>, repository: bool) {
    && (n.Some? <==> n'.Some?)
    && (n.Some? ==> SameShape(tools, host, n.value, n'.value, repository))
  }

  lemma FieldKept(tools: Tools, host: string, content: seq<Node>, i: nat, path: seq<nat>)
    requires i < |content|
    ensures KeptAt(tools, host, NodeAt(content[i], path), NodeAt(RewriteFields(tools, host, content)[i], path),
                   path == [] && ValueOf(content, i, "repository") && content[i].kind == ScalarNode)
  {
    FieldsAt(tools, host, content, i);
  }

  lemma DependencyKept(tools: Tools, host: string, dep: Node, path: seq<nat>)
    ensures KeptAt(tools, host, NodeAt(dep, path), NodeAt(RewriteDependency(tools, host, dep), path),
                   |path| == 1 && dep.kind == MappingNode && ValueOf(dep.content, path[0], "repository")
                   && dep.content[path[0]].kind == ScalarNode)
  {
    if dep.kind == MappingNode && path != [] && path[0] < |dep.content| {
      FieldKept(tools, host, dep.content, path[0], path[1..]);
    }
  }

  /** The one theorem about what changes: at every path of every tree the node stays, with its kind, tag,
      comments, children and value, save that the scalar repository values of dependencies become NewValue. */
  lemma RewriteTouchesOnlyRepositories(tools: Tools, host: string, doc: Node, path: seq<nat>)
    ensures KeptAt(tools, host, NodeAt(doc, path), NodeAt(RewriteDocument(tools, host, doc), path),
                   IsRepository(doc, path))
  {
    if HasRootMapping(doc) && |path| >= 2 && path[0] == 0 && path[1] < |doc.content[0].content| {
      var content, i := doc.content[0].content, path[1];
      SectionsAt(tools, host, content, i);
      assert NodeAt(doc, path) == NodeAt(content[i], path[2..]);
      assert NodeAt(RewriteDocument(tools, host, doc), path)
          == NodeAt(RewriteSections(tools, host, content)[i], path[2..]);
      if ValueOf(content, i, "dependencies") && content[i].kind == SequenceNode && |path| >= 3
          && path[2] < |content[i].content| {
        ListAt(tools, host, content[i].content, path[2]);
        DependencyKept(tools, host, content[i].content[path[2]], path[3..]);
      }
    }
  }

  // Idempotence.

  lemma FieldsIdempotent(tools: Tools, host: string, content: seq<Node>)
    ensures RewriteFields(tools, host, RewriteFields(tools, host, content)) == RewriteFields(tools, host, content)
  {
  }

  lemma ListIdempotent(tools: Tools, host: string, deps: seq<Node>)
    ensures RewriteList(tools, host, RewriteList(tools, host, deps)) == RewriteList(tools, host, deps)
  {
    var once := RewriteList(tools, host, deps);
    forall j: nat | j < |deps| ensures RewriteList(tools, host, once)[j] == once[j] {
      ListAt(tools, host, deps, j);
      ListAt(tools, host, once, j);
      FieldsIdempotent(tools, host, deps[j].content);
    }
  }

  /** Rewriting a rewritten document changes nothing. */
  lemma DocumentIdempotent(tools: Tools, host: string, doc: Node)
    ensures RewriteDocument(tools, host, RewriteDocument(tools, host, doc)) == RewriteDocument(tools, host, doc)
  {
    if HasRootMapping(doc) {
      var content := doc.content[0].content;
      var once := RewriteSections(tools, host, content);
      forall i: nat | i < |content| ensures RewriteSections(tools, host, once)[i] == once[i] {
        SectionsAt(tools, host, content, i);
        SectionsAt(tools, host, once, i);
        if IsValue(content, i) {
          SectionsAt(tools, host, content, i - 1);
          ListIdempotent(tools, host, content[i].content);
        }
      }
      assert RewriteSections(tools, host, once) == once;
    }
  }

  // A rewritten tree is one the printer and parser agree on.

  lemma {:induction false} AlikeReflexive(n: Node)
    ensures NodesAlike(n, n)
    decreases n
  {
    forall i: nat | i < |n.content| ensures NodesAlike(n.content[i], n.content[i]) {
      AlikeReflexive(n.content[i]);
    }
  }

  lemma FieldsAlike(tools: Tools, host: string, dep: Node)
    ensures NodesAlike(dep, RewriteDependency(tools, host, dep))
  {
    hide RewriteFields;
    forall i: nat | i < |dep.content| ensures NodesAlike(dep.content[i], FieldAt(tools, host, dep.content, i)) {
      AlikeReflexive(dep.content[i]);
    }
    forall i: nat | i < |dep.content|
      ensures RewriteFields(tools, host, dep.content)[i] == FieldAt(tools, host, dep.content, i)
    {
      FieldsAt(tools, host, dep.content, i);
    }
    AlikeReflexive(dep);
  }

  lemma SectionAlike(tools: Tools, host: string, key: Node, val: Node)
    ensures NodesAlike(val, RewriteSection(tools, host, key, val))
  {
    hide RewriteList, RewriteDependency;
    forall j: nat | j < |val.content|
      ensures NodesAlike(val.content[j], RewriteList(tools, host, val.content)[j])
    {
      ListAt(tools, host, val.content, j);
      FieldsAlike(tools, host, val.content[j]);
    }
    AlikeReflexive(val);
  }

  /** The rewritten document differs from the document only in URLs, never in a key. */
  lemma DocumentAlike(tools: Tools, host: string, doc: Node)
    requires doc.kind != MappingNode
    ensures NodesAlike(doc, RewriteDocument(tools, host, doc))
  {
    hide RewriteSection, RewriteSections;
    AlikeReflexive(doc);
    if HasRootMapping(doc) {
      var root := doc.content[0];
      var root' := root.(content := RewriteSections(tools, host, root.content));
      forall i: nat | i < |root.content|
        ensures NodesAlike(root.content[i], root'.content[i])
        ensures i % 2 == 0 ==> root'.content[i] == root.content[i]
      {
        SectionsAt(tools, host, root.content, i);
        if IsValue(root.content, i) {
          SectionAlike(tools, host, root.content[i - 1], root.content[i]);
        } else {
          AlikeReflexive(root.content[i]);
        }
      }
      assert NodesAlike(root, root');
    }
  }

  // The archive.

  /** Entry by entry: names, headers and order kept, and data changed only where Chart.yaml needs it. */
  ghost predicate EntryRewritten(tools: Tools, host: string, e: TarEntry, e': TarEntry) {
    && e'.name == e.name && e'.header == e.header
    && (!NeedsRewriting(tools, host, e) ==> e'.data == e.data)
    && (NeedsRewriting(tools, host, e) ==>
          tools.parseNode(e'.data) == Some(RewriteDocument(tools, host, tools.parseNode(e.data).value)))
  }

  ghost predicate EntriesRewritten(tools: Tools, host: string, es: seq<TarEntry>, es': seq<TarEntry>) {
    |es'| == |es| && forall i | 0 <= i < |es| :: EntryRewritten(tools, host, es[i], es'[i])
  }

  lemma EntryLaw(codec: Codec, tools: Tools, host: string, e: TarEntry)
    requires ToolsInvert(codec, tools) && RewriteEntry(tools, host, e).Ok?
    ensures EntryRewritten(tools, host, e, RewriteEntry(tools, host, e).value)
  {
    hide RewriteDocument, NodesAlike;
    if NeedsRewriting(tools, host, e) {
      DocumentAlike(tools, host, tools.parseNode(e.data).value);
    }
  }

  lemma {:induction false} EntriesLaw(codec: Codec, tools: Tools, host: string, es: seq<TarEntry>)
    requires ToolsInvert(codec, tools) && RewriteEntries(tools, host, es).Ok?
    ensures EntriesRewritten(tools, host, es, RewriteEntries(tools, host, es).value)
  {
    if es != [] {
      EntriesLaw(codec, tools, host, es[..|es| - 1]);
      EntryLaw(codec, tools, host, es[|es| - 1]);
    }
  }

  lemma RewrittenNeedsNothing(tools: Tools, host: string, e: TarEntry, e': TarEntry)
    requires EntryRewritten(tools, host, e, e')
    ensures !NeedsRewriting(tools, host, e')
    ensures e' != e <==> NeedsRewriting(tools, host, e)
  {
    if NeedsRewriting(tools, host, e) {
      DocumentIdempotent(tools, host, tools.parseNode(e.data).value);
    }
  }

  /** Some Chart.yaml of the tarball has a dependency to rewrite. */
  predicate TarballNeedsRewriting(codec: Codec, tools: Tools, host: string, chart: Bytes) {
    codec.unpack(chart).Some? && exists e | e in codec.unpack(chart).value.entries :: NeedsRewriting(tools, host, e)
  }

  /** On success the entries read back from the result are the input's, each rewritten as stated, and the
      result is the input itself exactly when no dependency needs rewriting. */
  lemma TarballLaw(codec: Codec, tools: Tools, chart: Bytes, host: string)
    requires ToolsInvert(codec, tools) && RewriteDependencies(codec, tools, chart, host).Ok?
    ensures var out := RewriteDependencies(codec, tools, chart, host).value;
      && codec.unpack(chart).Some? && !codec.unpack(chart).value.corrupt
      && codec.unpack(out).Some? && !codec.unpack(out).value.corrupt
      && EntriesRewritten(tools, host, codec.unpack(chart).value.entries, codec.unpack(out).value.entries)
      && (out == chart <==> !TarballNeedsRewriting(codec, tools, host, chart))
  {
    var es := codec.unpack(chart).value.entries;
    var es' := RewriteEntries(tools, host, es).value;
    EntriesLaw(codec, tools, host, es);
    forall i | 0 <= i < |es| ensures es'[i] != es[i] <==> NeedsRewriting(tools, host, es[i]) {
      RewrittenNeedsNothing(tools, host, es[i], es'[i]);
    }
    if !TarballNeedsRewriting(codec, tools, host, chart) {
      assert es' == es;
    } else {
      var packed := tools.pack(es').value;
      assert codec.unpack(packed) == Some(Archive(es', false));
      var i :| 0 <= i < |es| && NeedsRewriting(tools, host, es[i]);
      assert es'[i] != es[i];
    }
  }

  lemma EntryLeft(tools: Tools, host: string, e: TarEntry)
    requires !NeedsRewriting(tools, host, e) && (IsChartYaml(e.name) ==> tools.parseNode(e.data).Some?)
    ensures RewriteEntry(tools, host, e) == Ok(e)
  {
    hide RewriteDocument;
  }

  lemma {:induction false} NothingToRewrite(tools: Tools, host: string, es: seq<TarEntry>)
    requires forall e | e in es ::
        !NeedsRewriting(tools, host, e) && (IsChartYaml(e.name) ==> tools.parseNode(e.data).Some?)
    ensures RewriteEntries(tools, host, es) == Ok(es)
  {
    hide RewriteDocument, NeedsRewriting, RewriteEntry, IsChartYaml;
    if es != [] {
      var front, last := es[..|es| - 1], es[|es| - 1];
      assert forall e | e in front :: e in es;
      NothingToRewrite(tools, host, front);
      assert last in es;
      EntryLeft(tools, host, last);
      assert es == front + [last];
      assert RewriteEntries(tools, host, es) == Ok(front + [last]);
    }
  }

  lemma {:induction false} AllParse(tools: Tools, host: string, es: seq<TarEntry>)
    requires RewriteEntries(tools, host, es).Ok?
    ensures forall e | e in es && IsChartYaml(e.name) :: tools.parseNode(e.data).Some?
  {
    if es != [] {
      AllParse(tools, host, es[..|es| - 1]);
      assert RewriteEntry(tools, host, es[|es| - 1]).Ok?;
    }
  }

  /** The entry's Chart.yaml, if it is one, parses, and prints again if it needs rewriting. */
  predicate Rewritable(tools: Tools, host: string, e: TarEntry) {
    IsChartYaml(e.name) ==>
      && tools.parseNode(e.data).Some?
      && (NeedsRewriting(tools, host, e) ==>
            tools.printNode(RewriteDocument(tools, host, tools.parseNode(e.data).value)).Some?)
  }

  lemma {:induction false} EntriesRewritable(tools: Tools, host: string, es: seq<TarEntry>)
    ensures RewriteEntries(tools, host, es).Ok? <==> forall e | e in es :: Rewritable(tools, host, e)
  {
    hide RewriteEntry, Rewritable;
    if es != [] {
      var front, last := es[..|es| - 1], es[|es| - 1];
      EntriesRewritable(tools, host, front);
      EntryRewritable(tools, host, last);
      assert es == front + [last];
      assert RewriteEntries(tools, host, es).Ok? <==>
          RewriteEntries(tools, host, front).Ok? && RewriteEntry(tools, host, last).Ok?;
      assert forall e | e in es :: e in front || e == last;
    }
  }

  lemma EntryRewritable(tools: Tools, host: string, e: TarEntry)
    ensures RewriteEntry(tools, host, e).Ok? <==> Rewritable(tools, host, e)
  {
    hide RewriteDocument;
  }

  /** Rewriting a tarball succeeds exactly if it reads to its end, every Chart.yaml in it, bundled charts' aside, can be
      rewritten, and the result, if anything changed, packs. */
  lemma RewritesExactly(codec: Codec, tools: Tools, chart: Bytes, host: string)
    ensures RewriteDependencies(codec, tools, chart, host).Ok? <==>
      && codec.unpack(chart).Some? && !codec.unpack(chart).value.corrupt
      && (forall e | e in codec.unpack(chart).value.entries :: Rewritable(tools, host, e))
      && (TarballNeedsRewriting(codec, tools, host, chart) ==>
            exists es :: RewriteEntries(tools, host, codec.unpack(chart).value.entries) == Ok(es)
                      && tools.pack(es).Some?)
  {
    hide Rewritable, NeedsRewriting, RewriteEntries;
    if codec.unpack(chart).Some? {
      EntriesRewritable(tools, host, codec.unpack(chart).value.entries);
    }
  }

  /** Rewriting a rewritten tarball returns it byte for byte. */
  lemma TarballIdempotent(codec: Codec, tools: Tools, chart: Bytes, host: string)
    requires ToolsInvert(codec, tools) && RewriteDependencies(codec, tools, chart, host).Ok?
    ensures var out := RewriteDependencies(codec, tools, chart, host).value;
      RewriteDependencies(codec, tools, out, host) == Ok(out)
  {
    var out := RewriteDependencies(codec, tools, chart, host).value;
    TarballLaw(codec, tools, chart, host);
    var es, es' := codec.unpack(chart).value.entries, codec.unpack(out).value.entries;
    AllParse(tools, host, es);
    forall e' | e' in es'
      ensures !NeedsRewriting(tools, host, e') && (IsChartYaml(e'.name) ==> tools.parseNode(e'.data).Some?)
    {
      var i :| 0 <= i < |es'| && es'[i] == e';
      RewrittenNeedsNothing(tools, host, es[i], e');
    }
    NothingToRewrite(tools, host, es');
  }
}
