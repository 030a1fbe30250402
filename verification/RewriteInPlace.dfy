/** Dependency rewriting as the loops run it: in place on a tree of linked nodes, then entry by entry. */
module RewriteInPlace {
  import opened Wrappers
  import opened Oci
  import opened Rewriting
  import opened RewriteLaws

  /** A node of the tree the YAML parser returns; only a node's value is ever assigned. */
  class YamlNode {
    const kind: NodeKind
    var value: string
    const decor: string
    const content: seq<YamlNode>
    ghost const nodes: set<YamlNode>

    constructor (kind: NodeKind, value: string, decor: string, content: seq<YamlNode>, ghost below: set<YamlNode>)
      requires AllValid(content, below)
      ensures Valid() && nodes == {this} + below
      ensures this.kind == kind && this.value == value && this.decor == decor && this.content == content
    {
      this.kind, this.value, this.decor, this.content := kind, value, decor, content;
      nodes := {this} + below;
    }

    /** The nodes below form a tree: no alias leads twice to one node. */
    ghost predicate Valid()
      decreases nodes, 0
    {
      && this in nodes
      && (forall c | c in content :: c.nodes < nodes && this !in c.nodes && c.Valid())
      && Apart(content)
    }

    function Tree(): (t: Node)
      requires Valid()
      reads nodes
      ensures t.kind == kind && t.value == value && t.decor == decor && |t.content| == |content|
      decreases nodes
    {
      Node(kind, value, decor,
           seq(|content|, i requires 0 <= i < |content| reads nodes => content[i].Tree()))
    }
  }

  ghost predicate Apart(ns: seq<YamlNode>) {
    forall i, j | 0 <= i < j < |ns| :: ns[i].nodes !! ns[j].nodes
  }

  ghost predicate AllValid(ns: seq<YamlNode>, below: set<YamlNode>) {
    && (forall n | n in ns :: n.nodes <= below && n.Valid())
    && Apart(ns)
  }

  /** yaml.Unmarshal's linked tree for a document. */
  method Link(n: Node) returns (y: YamlNode)
    ensures y.Valid() && fresh(y.nodes) && y.Tree() == n
    decreases n
  {
    var children: seq<YamlNode> := [];
    ghost var below: set<YamlNode> := {};
    for i := 0 to |n.content|
      invariant |children| == i && AllValid(children, below) && fresh(below)
      invariant forall j | 0 <= j < i :: children[j].Tree() == n.content[j]
    {
      var child := Link(n.content[i]);
      children := children + [child];
      below := below + child.nodes;
    }
    y := new YamlNode(n.kind, n.value, n.decor, children, below);
  }

  method SetValue(y: YamlNode, value: string)
    requires y.Valid()
    modifies y
    ensures y.Tree() == old(y.Tree()).(value := value)
  {
    ghost var was := y.Tree();
    y.value := value;
    assert y.Tree().content == was.content;
  }

  /** The tree of a child, where the node was given its i-th child another value. */
  ghost function WithChild(n: Node, i: nat, child: Node): Node
    requires i < |n.content|
  {
    n.(content := n.content[i := child])
  }

  /** Assigning within one child changes no other. */
  lemma ChildChanged(y: YamlNode, was: Node, i: nat)
    requires y.Valid() && i < |y.content| == |was.content|
    requires y.kind == was.kind && y.value == was.value && y.decor == was.decor
    requires forall k | 0 <= k < |y.content| && k != i :: y.content[k].Tree() == was.content[k]
    ensures y.Tree() == WithChild(was, i, y.content[i].Tree())
  {
  }

  ghost function PairRewritten(tools: Tools, host: string, dep: Node, j: nat): Node
    requires j + 1 < |dep.content|
  {
    WithChild(dep, j + 1, RewriteField(tools, host, dep.content[j], dep.content[j + 1]))
  }

  /** One pair of a dependency; only the value may change. */
  method RewritePair(tools: Tools, host: string, dep: YamlNode, j: nat) returns (changed: bool)
    requires dep.Valid() && j + 1 < |dep.content|
    modifies dep.content[j + 1].nodes
    ensures dep.Tree() == PairRewritten(tools, host, old(dep.Tree()), j)
    ensures changed <==> dep.Tree().content[j + 1] != old(dep.Tree()).content[j + 1]
  {
    ghost var was := dep.Tree();
    changed := false;
    var key, val := dep.content[j], dep.content[j + 1];
    if key.value == "repository" && val.kind == ScalarNode {
      var rewritten := RewriteRepoUrl(tools, val.value, host);
      if rewritten.Some? {
        SetValue(val, rewritten.value);
        changed := true;
      }
    }
    ChildChanged(dep, was, j + 1);
  }

  /** The first j children as in done, the others as they were. */
  ghost function Partly(was: Node, done: seq<Node>, j: nat): Node
    requires j <= |done| == |was.content|
  {
    was.(content := done[..j] + was.content[j..])
  }

  lemma PartlyEnds(was: Node, done: seq<Node>)
    requires |done| == |was.content|
    ensures Partly(was, done, 0) == was
    ensures Partly(was, done, |done|) == was.(content := done)
  {
  }

  lemma PartlyStep(was: Node, done: seq<Node>, j: nat)
    requires j < |done| == |was.content|
    ensures Partly(was, done, j).content[j] == was.content[j]
    ensures WithChild(Partly(was, done, j), j, done[j]) == Partly(was, done, j + 1)
    ensures Partly(was, done, j + 1) != was <==> Partly(was, done, j) != was || done[j] != was.content[j]
  {
  }

  /** Two children of which the first stays. */
  lemma PartlyPair(was: Node, done: seq<Node>, j: nat)
    requires j + 1 < |done| == |was.content| && done[j] == was.content[j]
    ensures Partly(was, done, j).content[j] == was.content[j]
        && Partly(was, done, j).content[j + 1] == was.content[j + 1]
    ensures WithChild(Partly(was, done, j), j + 1, done[j + 1]) == Partly(was, done, j + 2)
    ensures Partly(was, done, j + 2) != was <==> Partly(was, done, j) != was || done[j + 1] != was.content[j + 1]
  {
  }

  /** The pair loop over one dependency. */
  method RewriteDependencyInPlace(tools: Tools, host: string, dep: YamlNode) returns (changed: bool)
    requires dep.Valid()
    modifies dep.nodes
    ensures dep.Tree() == RewriteDependency(tools, host, old(dep.Tree()))
    ensures changed <==> dep.Tree() != old(dep.Tree())
  {
    hide RewriteField, RewriteFields, RewriteRepoUrl, WithChild, Partly;
    changed := false;
    if dep.kind != MappingNode {
      return;
    }
    ghost var was := dep.Tree();
    ghost var fields := RewriteFields(tools, host, was.content);
    PartlyEnds(was, fields);
    var j := 0;
    while j + 1 < |dep.content|
      invariant 0 <= j <= |dep.content| && j % 2 == 0
      invariant dep.Tree() == Partly(was, fields, j)
      invariant changed <==> Partly(was, fields, j) != was
    {
      FieldsAt(tools, host, was.content, j);
      FieldsAt(tools, host, was.content, j + 1);
      PartlyPair(was, fields, j);
      var pair := RewritePair(tools, host, dep, j);
      changed := changed || pair;
      j := j + 2;
    }
    if j < |dep.content| {
      FieldsAt(tools, host, was.content, j);
      PartlyStep(was, fields, j);
      Unchanged(Partly(was, fields, j), j);
    }
  }

  lemma Unchanged(n: Node, i: nat)
    requires i < |n.content|
    ensures WithChild(n, i, n.content[i]) == n
  {
  }

  /** The loop over the dependencies sequence. */
  method RewriteListInPlace(tools: Tools, host: string, deps: YamlNode) returns (changed: bool)
    requires deps.Valid()
    modifies deps.nodes
    ensures deps.Tree() == ListRewritten(tools, host, old(deps.Tree()))
    ensures changed <==> deps.Tree() != old(deps.Tree())
  {
    hide RewriteDependency, RewriteList, WithChild, Partly;
    changed := false;
    ghost var was := deps.Tree();
    ghost var done := RewriteList(tools, host, was.content);
    PartlyEnds(was, done);
    for j := 0 to |deps.content|
      invariant deps.Tree() == Partly(was, done, j)
      invariant changed <==> Partly(was, done, j) != was
    {
      ListAt(tools, host, was.content, j);
      PartlyStep(was, done, j);
      ghost var before := deps.Tree();
      var one := RewriteDependencyInPlace(tools, host, deps.content[j]);
      ChildChanged(deps, before, j);
      changed := changed || one;
    }
  }

  ghost function ListRewritten(tools: Tools, host: string, deps: Node): Node {
    deps.(content := RewriteList(tools, host, deps.content))
  }

  /** One pair of the root; only a dependencies sequence may change. */
  method RewriteSectionInPlace(tools: Tools, host: string, root: YamlNode, i: nat) returns (changed: bool)
    requires root.Valid() && i + 1 < |root.content|
    modifies root.content[i + 1].nodes
    ensures root.Tree() == SectionRewritten(tools, host, old(root.Tree()), i)
    ensures changed <==> root.Tree().content[i + 1] != old(root.Tree()).content[i + 1]
  {
    hide RewriteList;
    ghost var was := root.Tree();
    changed := false;
    if root.content[i].value == "dependencies" && root.content[i + 1].kind == SequenceNode {
      changed := RewriteListInPlace(tools, host, root.content[i + 1]);
    }
    ChildChanged(root, was, i + 1);
  }

  ghost function SectionRewritten(tools: Tools, host: string, root: Node, i: nat): Node
    requires i + 1 < |root.content|
  {
    WithChild(root, i + 1, RewriteSection(tools, host, root.content[i], root.content[i + 1]))
  }

  /** The pair loop over the document's root mapping. */
  method RewriteRootInPlace(tools: Tools, host: string, root: YamlNode) returns (changed: bool)
    requires root.Valid()
    modifies root.nodes
    ensures root.Tree() == RootRewritten(tools, host, old(root.Tree()))
    ensures changed <==> root.Tree() != old(root.Tree())
  {
    hide RewriteSection, RewriteSections, WithChild, Partly;
    changed := false;
    ghost var was := root.Tree();
    ghost var sections := RewriteSections(tools, host, was.content);
    PartlyEnds(was, sections);
    var i := 0;
    while i + 1 < |root.content|
      invariant 0 <= i <= |root.content| && i % 2 == 0
      invariant root.Tree() == Partly(was, sections, i)
      invariant changed <==> Partly(was, sections, i) != was
    {
      SectionsAt(tools, host, was.content, i);
      SectionsAt(tools, host, was.content, i + 1);
      PartlyPair(was, sections, i);
      var pair := RewriteSectionInPlace(tools, host, root, i);
      changed := changed || pair;
      i := i + 2;
    }
    if i < |root.content| {
      SectionsAt(tools, host, was.content, i);
      PartlyStep(was, sections, i);
      Unchanged(Partly(was, sections, i), i);
    }
  }

  ghost function RootRewritten(tools: Tools, host: string, root: Node): Node {
    root.(content := RewriteSections(tools, host, root.content))
  }

  method RewriteDocumentInPlace(tools: Tools, host: string, doc: YamlNode) returns (changed: bool)
    requires doc.Valid()
    modifies doc.nodes
    ensures doc.Tree() == RewriteDocument(tools, host, old(doc.Tree()))
    ensures changed <==> doc.Tree() != old(doc.Tree())
  {
    hide RewriteSections;
    if |doc.content| == 0 || doc.content[0].kind != MappingNode {
      return false;
    }
    ghost var was := doc.Tree();
    changed := RewriteRootInPlace(tools, host, doc.content[0]);
    ChildChanged(doc, was, 0);
  }

  /** rewriteChartYAML: parse, rewrite in place, print only if something changed. */
  method RewriteChart(tools: Tools, host: string, raw: Bytes) returns (r: Result<Option<Bytes>, Error>)
    ensures r == RewriteChartYaml(tools, host, raw)
  {
    hide RewriteDocument;
    var parsed := tools.parseNode(raw);
    if parsed.None? {
      return Err(Other("parse Chart.yaml"));
    }
    var doc := Link(parsed.value);
    var changed := RewriteDocumentInPlace(tools, host, doc);
    if !changed {
      return Ok(None);
    }
    var printed := tools.printNode(doc.Tree());
    return if printed.Some? then Ok(printed) else Err(Other("encode Chart.yaml"));
  }

  ghost predicate AnyNeeds(tools: Tools, host: string, es: seq<TarEntry>) {
    exists e | e in es :: NeedsRewriting(tools, host, e)
  }

  lemma SomeNeeds(tools: Tools, host: string, es: seq<TarEntry>, e: TarEntry)
    ensures AnyNeeds(tools, host, es + [e]) == (AnyNeeds(tools, host, es) || NeedsRewriting(tools, host, e))
  {
  }

  /** One entry of the archive: its data replaced if it is a Chart.yaml with something to rewrite. */
  method RewriteOne(tools: Tools, host: string, e: TarEntry) returns (r: Result<TarEntry, Error>, changed: bool)
    ensures r == RewriteEntry(tools, host, e)
    ensures r.Ok? ==> changed == NeedsRewriting(tools, host, e)
  {
    hide RewriteDocument;
    if !IsChartYaml(e.name) {
      return Ok(e), false;
    }
    var data := RewriteChart(tools, host, e.data);
    if data.Err? {
      return Err(data.error), false;
    }
    if data.value.None? {
      return Ok(e), false;
    }
    return Ok(e.(data := data.value.value)), true;
  }

  /** The archive loop: every entry is read before anything is packed again. */
  method RewriteTarball(codec: Codec, tools: Tools, chart: Bytes, host: string) returns (r: Result<Bytes, Error>)
    ensures r == RewriteDependencies(codec, tools, chart, host)
  {
    hide RewriteDocument, RewriteEntry, NeedsRewriting;
    var archive := codec.unpack(chart);
    if archive.None? {
      return Err(Other("chart is not a gzip archive"));
    }
    var source := archive.value.entries;
    var entries: seq<TarEntry> := [];
    var rewrote := false;
    for i := 0 to |source|
      invariant RewriteEntries(tools, host, source[..i]) == Ok(entries)
      invariant rewrote == AnyNeeds(tools, host, source[..i])
    {
      assert source[..i + 1] == source[..i] + [source[i]];
      SomeNeeds(tools, host, source[..i], source[i]);
      var e, changed := RewriteOne(tools, host, source[i]);
      if e.Err? {
        FailsEarly(tools, host, source, i + 1);
        return Err(e.error);
      }
      rewrote := rewrote || changed;
      entries := entries + [e.value];
    }
    assert source[..|source|] == source;
    if archive.value.corrupt {
      return Err(Other("read chart tarball"));
    }
    if !rewrote {
      return Ok(chart);
    }
    var packed := tools.pack(entries);
    return if packed.Some? then Ok(packed.value) else Err(Other("write chart entry"));
  }

  /** The first entry that cannot be rewritten decides. */
  lemma {:induction false} FailsEarly(tools: Tools, host: string, es: seq<TarEntry>, n: nat)
    requires n <= |es| && RewriteEntries(tools, host, es[..n]).Err?
    ensures RewriteEntries(tools, host, es) == Err(RewriteEntries(tools, host, es[..n]).error)
    decreases |es|
  {
    if n < |es| {
      assert es[..|es| - 1][..n] == es[..n];
      FailsEarly(tools, host, es[..|es| - 1], n);
    } else {
      assert es[..n] == es;
    }
  }
}
