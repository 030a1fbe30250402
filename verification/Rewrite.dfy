/** Dependency rewriting on the YAML tree inside a chart tarball (rewrite.go). */
module Rewriting {
  import opened Wrappers
  import opened Text
  import opened Oci

  datatype NodeKind = DocumentNode | SequenceNode | MappingNode | ScalarNode | AliasNode

  /** A YAML node; decor is everything kept verbatim: tag, style, anchor and comments.
      A mapping's content alternates keys and values. */
  datatype Node = Node(kind: NodeKind, value: string, decor: string, content: seq<Node>)

  datatype UrlParts = UrlParts(host: string, path: string)

  /** YAML trees and tar packing, as pure functions. */
  datatype Tools = Tools(
    parseNode: Bytes -> Option<Node>,
    printNode: Node -> Option<Bytes>,
    pack: seq<TarEntry> -> Option<Bytes>,
    parseUrl: string -> Option<UrlParts>)

  /** The texts dependency rewriting reads and writes. */
  predicate IsUrl(text: string) {
    IsHttp(text) || HasPrefix(text, "oci://")
  }

  /** The same tree, but that one URL may stand for another in scalars that are no mapping's keys. */
  ghost predicate NodesAlike(n: Node, n': Node)
    decreases n
  {
    && n'.kind == n.kind && n'.decor == n.decor && |n'.content| == |n.content|
    && (n'.value == n.value || (n.kind == ScalarNode && IsUrl(n.value) && IsUrl(n'.value)))
    && (forall i: nat | i < |n.content| :: NodesAlike(n.content[i], n'.content[i]))
    && (n.kind == MappingNode ==> forall i: nat | i < |n.content| && i % 2 == 0 :: n'.content[i] == n.content[i])
  }

  /** What is read is a document; a tree that was read, URLs exchanged or not, is read back as it was
      printed; and packing an archive loses nothing. */
  ghost predicate ToolsInvert(codec: Codec, tools: Tools) {
    && (forall raw | tools.parseNode(raw).Some? :: tools.parseNode(raw).value.kind == DocumentNode)
    && (forall raw, n |
          tools.parseNode(raw).Some? && NodesAlike(tools.parseNode(raw).value, n) && tools.printNode(n).Some? ::
          tools.parseNode(tools.printNode(n).value) == Some(n))
    && (forall es | tools.pack(es).Some? :: codec.unpack(tools.pack(es).value) == Some(Archive(es, false)))
  }

  function TrimSuffix(s: string, c: char): string {
    if s != "" && s[|s| - 1] == c then s[..|s| - 1] else s
  }

  predicate IsHttp(repo: string) {
    HasPrefix(repo, "https://") || HasPrefix(repo, "http://")
  }

  /** The proxy's name for an HTTP(S) repository URL; anything else is left alone. */
  function RewriteRepoUrl(tools: Tools, repo: string, host: string): (r: Option<string>)
    ensures r.Some? ==> IsHttp(repo) && !IsHttp(r.value) && IsUrl(r.value)
  {
    if !IsHttp(repo) then None
    else match tools.parseUrl(repo)
      case None => None
      case Some(u) =>
        if u.host == "" then None
        else
          var name := "oci://" + host + "/" + u.host + TrimSuffix(u.path, '/');
          assert name[0] == 'o';
          Some(name)
  }

  /** The proxy's name is oci://, the proxy's host, a slash, and the repository's own host and path, less one slash at
      its end. */
  lemma RepoUrlExactly(tools: Tools, repo: string, host: string, name: string)
    ensures RewriteRepoUrl(tools, repo, host) == Some(name) <==>
      && ("https://" <= repo || "http://" <= repo)
      && exists upstream, path: string ::
          && upstream != ""
          && (tools.parseUrl(repo) == Some(UrlParts(upstream, path + "/"))
              || (tools.parseUrl(repo) == Some(UrlParts(upstream, path)) && (path == "" || path[|path| - 1] != '/')))
          && name == "oci://" + host + "/" + upstream + path
  {
    if tools.parseUrl(repo).Some? {
      var u := tools.parseUrl(repo).value;
      var path := TrimSuffix(u.path, '/');
      assert u.path == path || u.path == path + "/";
      assert u == UrlParts(u.host, u.path);
      forall rest: string | u.path == rest + "/" ensures TrimSuffix(u.path, '/') == rest {
        assert (rest + "/")[..|rest|] == rest;
      }
    }
  }

  // The rewriting as a function of the tree.

  function RewriteField(tools: Tools, host: string, key: Node, val: Node): Node {
    if key.value == "repository" && val.kind == ScalarNode && RewriteRepoUrl(tools, val.value, host).Some?
    then val.(value := RewriteRepoUrl(tools, val.value, host).value)
    else val
  }

  function RewriteFields(tools: Tools, host: string, content: seq<Node>): (r: seq<Node>)
    ensures |r| == |content|
  {
    if |content| < 2 then content
    else [content[0], RewriteField(tools, host, content[0], content[1])] + RewriteFields(tools, host, content[2..])
  }

  function RewriteDependency(tools: Tools, host: string, dep: Node): Node {
    if dep.kind == MappingNode then dep.(content := RewriteFields(tools, host, dep.content)) else dep
  }

  function RewriteList(tools: Tools, host: string, deps: seq<Node>): (r: seq<Node>)
    ensures |r| == |deps|
  {
    if deps == [] then [] else [RewriteDependency(tools, host, deps[0])] + RewriteList(tools, host, deps[1..])
  }

  function RewriteSection(tools: Tools, host: string, key: Node, val: Node): Node {
    if key.value == "dependencies" && val.kind == SequenceNode
    then val.(content := RewriteList(tools, host, val.content))
    else val
  }

  function RewriteSections(tools: Tools, host: string, content: seq<Node>): (r: seq<Node>)
    ensures |r| == |content|
  {
    if |content| < 2 then content
    else [content[0], RewriteSection(tools, host, content[0], content[1])] + RewriteSections(tools, host, content[2..])
  }

  predicate HasRootMapping(doc: Node) {
    |doc.content| > 0 && doc.content[0].kind == MappingNode
  }

  function RewriteDocument(tools: Tools, host: string, doc: Node): Node {
    if HasRootMapping(doc) then
      var root := doc.content[0];
      doc.(content := doc.content[0 := root.(content := RewriteSections(tools, host, root.content))])
    else doc
  }

  /** New bytes for one Chart.yaml, or None when no dependency needs rewriting. */
  function RewriteChartYaml(tools: Tools, host: string, raw: Bytes): Result<Option<Bytes>, Error> {
    match tools.parseNode(raw)
    case None => Err(Other("parse Chart.yaml"))
    case Some(doc) =>
      if RewriteDocument(tools, host, doc) == doc then Ok(None)
      else match tools.printNode(RewriteDocument(tools, host, doc))
        case None => Err(Other("encode Chart.yaml"))
        case Some(bytes) => Ok(Some(bytes))
  }

  function RewriteEntry(tools: Tools, host: string, e: TarEntry): Result<TarEntry, Error> {
    if !IsChartYaml(e.name) then Ok(e)
    else
      var data :- RewriteChartYaml(tools, host, e.data);
      Ok(if data.Some? then e.(data := data.value) else e)
  }

  function RewriteEntries(tools: Tools, host: string, entries: seq<TarEntry>): (r: Result<seq<TarEntry>, Error>)
    ensures r.Ok? ==> |r.value| == |entries|
  {
    if entries == [] then Ok([])
    else
      var front :- RewriteEntries(tools, host, entries[..|entries| - 1]);
      var last :- RewriteEntry(tools, host, entries[|entries| - 1]);
      Ok(front + [last])
  }

  predicate NeedsRewriting(tools: Tools, host: string, e: TarEntry) {
    IsChartYaml(e.name) && tools.parseNode(e.data).Some?
    && RewriteDocument(tools, host, tools.parseNode(e.data).value) != tools.parseNode(e.data).value
  }

  /** The whole tarball: the input itself when nothing needs rewriting. */
  function RewriteDependencies(codec: Codec, tools: Tools, chart: Bytes, host: string): Result<Bytes, Error> {
    match codec.unpack(chart)
    case None => Err(Other("chart is not a gzip archive"))
    case Some(archive) =>
      var entries :- RewriteEntries(tools, host, archive.entries);
      if archive.corrupt then Err(Other("read chart tarball"))
      else if forall e | e in archive.entries :: !NeedsRewriting(tools, host, e) then Ok(chart)
      else match tools.pack(entries)
        case None => Err(Other("write chart entry"))
        case Some(bytes) => Ok(bytes)
  }
}
