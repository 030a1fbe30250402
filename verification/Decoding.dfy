/** Decoding Chart.yaml from its node tree, as the YAML library does for trees without aliases. */
module Decoding {
  import opened Wrappers
  import opened Metadata
  import opened Oci
  import opened Rewriting

  /** How a scalar is read, from its text and decoration: as whatever its tag and style make it, as a key of
      a string-keyed map, and whether a key spelt << merges. */
  datatype ScalarRules = ScalarRules(
    asAny: (string, string) -> Option<Scalar>,
    asString: (string, string) -> Option<string>,
    isMerge: string -> bool)

  /** URLs are read alike, as the texts they are. A key spelt dependencies is not read as one of the named. */
  ghost predicate RulesOk(rules: ScalarRules, named: set<string>) {
    && (forall v, w, decor | IsUrl(v) && IsUrl(w) && rules.asAny(v, decor).Some? ::
          rules.asAny(v, decor) == Some(Scalar(Text, v)) && rules.asAny(w, decor) == Some(Scalar(Text, w)))
    && (forall decor | rules.asString("dependencies", decor).Some? ::
          rules.asString("dependencies", decor).value !in named)
  }

  predicate AliasFree(n: Node) {
    n.kind != AliasNode && forall c | c in n.content :: AliasFree(c)
  }

  predicate IsMergeKey(rules: ScalarRules, key: Node) {
    key.kind == ScalarNode && key.value == "<<" && rules.isMerge(key.decor)
  }

  function DecodeKey(rules: ScalarRules, texts: bool, key: Node): Option<Scalar> {
    if key.kind != ScalarNode then None
    else if !texts then rules.asAny(key.value, key.decor)
    else match rules.asString(key.value, key.decor)
      case None => None
      case Some(text) => Some(Scalar(Text, text))
  }

  /** All keys but merge keys are strings. */
  predicate KeyedByText(rules: ScalarRules, content: seq<Node>) {
    forall i | 0 <= i < |content| && i % 2 == 0 && !IsMergeKey(rules, content[i]) ::
      var k := DecodeKey(rules, false, content[i]); k.Some? && k.value.kind == Text
  }

  /** No key is spelt twice in a mapping. */
  predicate KeysOnce(content: seq<Node>) {
    forall i, j | 0 <= i < j < |content| && i % 2 == 0 && j % 2 == 0 ::
      content[i].kind != content[j].kind || content[i].value != content[j].value
  }

  predicate HasKey(entries: seq<Entry>, key: Scalar) {
    exists e | e in entries :: e.key == key
  }

  function DecodeAny(rules: ScalarRules, n: Node): Option<Value>
    decreases n, 5
  {
    match n.kind
    case ScalarNode =>
      (match rules.asAny(n.value, n.decor)
       case None => None
       case Some(s) => Some(Leaf(s)))
    case SequenceNode =>
      (match DecodeItems(rules, n.content)
       case None => None
       case Some(items) => Some(List(items)))
    case MappingNode =>
      var texts := KeyedByText(rules, n.content);
      (match DecodeMapping(rules, texts, n, false, [])
       case None => None
       case Some(entries) => Some(Map(!texts, entries)))
    case _ => None
  }

  function DecodeItems(rules: ScalarRules, content: seq<Node>): Option<seq<Value>>
    decreases content, 0
  {
    if content == [] then Some([])
    else match DecodeAny(rules, content[0])
      case None => None
      case Some(v) =>
        match DecodeItems(rules, content[1..])
        case None => None
        case Some(rest) => Some([v] + rest)
  }

  /** The mapping's own pairs put into what is there, then those its merge key brings in. */
  function DecodeMapping(rules: ScalarRules, texts: bool, n: Node, merging: bool,
                         entries: seq<Entry>): Option<seq<Entry>>
    decreases n, 4
  {
    if !KeysOnce(n.content) then None
    else match DecodePairs(rules, texts, n.content, merging, entries)
      case None => None
      case Some(own) => DecodeMerges(rules, texts, n.content, own)
  }

  /** A mapping being merged yields to keys already there. */
  function DecodePairs(rules: ScalarRules, texts: bool, content: seq<Node>, merging: bool, entries: seq<Entry>)
    : Option<seq<Entry>>
    decreases content, 0
  {
    if |content| < 2 then Some(entries)
    else if IsMergeKey(rules, content[0]) then DecodePairs(rules, texts, content[2..], merging, entries)
    else match DecodeKey(rules, texts, content[0])
      case None => None
      case Some(key) =>
        if merging && HasKey(entries, key) then DecodePairs(rules, texts, content[2..], merging, entries)
        else match DecodeAny(rules, content[1])
          case None => None
          case Some(v) => DecodePairs(rules, texts, content[2..], merging, Put(entries, key, v))
  }

  function DecodeMerges(rules: ScalarRules, texts: bool, content: seq<Node>, entries: seq<Entry>): Option<seq<Entry>>
    decreases content, 0
  {
    if |content| < 2 then Some(entries)
    else if !IsMergeKey(rules, content[0]) then DecodeMerges(rules, texts, content[2..], entries)
    else match Merge(rules, texts, content[1], entries)
      case None => None
      case Some(merged) => DecodeMerges(rules, texts, content[2..], merged)
  }

  /** A merge key's value: a mapping, or a sequence of mappings of which the earlier win. */
  function Merge(rules: ScalarRules, texts: bool, n: Node, entries: seq<Entry>): Option<seq<Entry>>
    decreases n, 5
  {
    match n.kind
    case MappingNode => DecodeMapping(rules, texts, n, true, entries)
    case SequenceNode => MergeEach(rules, texts, n.content, entries)
    case _ => None
  }

  function MergeEach(rules: ScalarRules, texts: bool, content: seq<Node>, entries: seq<Entry>): Option<seq<Entry>>
    decreases content, 0
  {
    if content == [] then Some(entries)
    else if content[0].kind != MappingNode then None
    else match DecodeMapping(rules, texts, content[0], true, entries)
      case None => None
      case Some(merged) => MergeEach(rules, texts, content[1..], merged)
  }

  /** The document as a string-keyed map: an empty or null document is the empty map. */
  function DecodeDocument(rules: ScalarRules, doc: Node): Option<Value> {
    if doc.content == [] then Some(Map(false, []))
    else
      var root := doc.content[0];
      match root.kind
      case MappingNode =>
        (match DecodeMapping(rules, true, root, false, [])
         case None => None
         case Some(entries) => Some(Map(false, entries)))
      case ScalarNode =>
        var s := rules.asAny(root.value, root.decor);
        if s.Some? && s.value.kind == Null then Some(Map(false, [])) else None
      case _ => None
  }

  /** The decoder the registry calls is this function of the tree, wherever no alias stands in it. */
  ghost predicate DecodesTrees(codec: Codec, tools: Tools, rules: ScalarRules) {
    forall raw | tools.parseNode(raw).Some? && AliasFree(tools.parseNode(raw).value) ::
      codec.decodeYaml(raw) == DecodeDocument(rules, tools.parseNode(raw).value)
  }

  // A mapping's own keys.

  /** What a merge key brings in is added behind what is there, and takes the place of none of it. */
  lemma {:induction false} MergedPairsAppend(rules: ScalarRules, texts: bool, content: seq<Node>, entries: seq<Entry>)
    ensures var r := DecodePairs(rules, texts, content, true, entries); r.Some? ==> entries <= r.value
    decreases content, 0
  {
    hide DecodeAny, DecodeKey, IsMergeKey;
    if |content| >= 2 {
      MergedPairsAppend(rules, texts, content[2..], entries);
      if !IsMergeKey(rules, content[0]) {
        var key, v := DecodeKey(rules, texts, content[0]), DecodeAny(rules, content[1]);
        if key.Some? && v.Some? && !HasKey(entries, key.value) {
          PutAppends(entries, key.value, v.value);
          MergedPairsAppend(rules, texts, content[2..], Put(entries, key.value, v.value));
        }
      }
    }
  }

  lemma {:induction false} MergeAppends(rules: ScalarRules, texts: bool, n: Node, entries: seq<Entry>)
    ensures var r := Merge(rules, texts, n, entries); r.Some? ==> entries <= r.value
    ensures var r := DecodeMapping(rules, texts, n, true, entries); r.Some? ==> entries <= r.value
    decreases n, 1
  {
    hide DecodePairs, DecodeMerges, MergeEach, KeysOnce;
    MergedPairsAppend(rules, texts, n.content, entries);
    var own := DecodePairs(rules, texts, n.content, true, entries);
    if own.Some? {
      MergesAppend(rules, texts, n.content, own.value);
    }
    EachAppends(rules, texts, n.content, entries);
  }

  lemma {:induction false} MergesAppend(rules: ScalarRules, texts: bool, content: seq<Node>, entries: seq<Entry>)
    ensures var r := DecodeMerges(rules, texts, content, entries); r.Some? ==> entries <= r.value
    decreases content, 0
  {
    hide Merge, IsMergeKey;
    if |content| >= 2 {
      MergesAppend(rules, texts, content[2..], entries);
      MergeAppends(rules, texts, content[1], entries);
      var merged := Merge(rules, texts, content[1], entries);
      if merged.Some? {
        MergesAppend(rules, texts, content[2..], merged.value);
      }
    }
  }

  lemma {:induction false} EachAppends(rules: ScalarRules, texts: bool, content: seq<Node>, entries: seq<Entry>)
    ensures var r := MergeEach(rules, texts, content, entries); r.Some? ==> entries <= r.value
    decreases content, 0
  {
    hide DecodeMapping;
    if content != [] {
      MergeAppends(rules, texts, content[0], entries);
      var merged := DecodeMapping(rules, texts, content[0], true, entries);
      if merged.Some? {
        EachAppends(rules, texts, content[1..], merged.value);
      }
    }
  }

  /** Pair i is one of the mapping's own, with this key, and no later one reads alike. */
  predicate LastOwn(rules: ScalarRules, texts: bool, content: seq<Node>, i: nat, key: Scalar) {
    && i + 1 < |content| && i % 2 == 0
    && !IsMergeKey(rules, content[i]) && DecodeKey(rules, texts, content[i]) == Some(key)
    && forall j | i < j < |content| - 1 && j % 2 == 0 && !IsMergeKey(rules, content[j]) ::
        DecodeKey(rules, texts, content[j]) != Some(key)
  }

  lemma {:induction false} OwnPairKept(rules: ScalarRules, texts: bool, content: seq<Node>, entries: seq<Entry>,
                                       e: Entry)
    requires DistinctKeys(entries) && e in entries
    requires forall j | 0 <= j < |content| - 1 && j % 2 == 0 && !IsMergeKey(rules, content[j]) ::
        DecodeKey(rules, texts, content[j]) != Some(e.key)
    ensures var r := DecodePairs(rules, texts, content, false, entries); r.Some? ==> e in r.value
    decreases content
  {
    hide DecodeAny, DecodeKey, IsMergeKey;
    if |content| >= 2 {
      var rest := content[2..];
      assert forall j | 0 <= j < |rest| :: rest[j] == content[j + 2];
      OwnPairKept(rules, texts, rest, entries, e);
      var key, v := DecodeKey(rules, texts, content[0]), DecodeAny(rules, content[1]);
      if !IsMergeKey(rules, content[0]) && key.Some? && v.Some? {
        PutKeeps(entries, key.value, v.value);
        PutHolds(entries, key.value, v.value, e);
        OwnPairKept(rules, texts, rest, Put(entries, key.value, v.value), e);
      }
    }
  }

  lemma {:induction false} PutHolds(entries: seq<Entry>, key: Scalar, value: Value, e: Entry)
    ensures e in entries && e.key != key ==> e in Put(entries, key, value)
    ensures Entry(key, value) in Put(entries, key, value)
  {
    if entries != [] {
      PutHolds(entries[1..], key, value, e);
      assert e in entries ==> e == entries[0] || e in entries[1..];
    }
  }

  lemma {:induction false} OwnPairFound(rules: ScalarRules, texts: bool, content: seq<Node>, entries: seq<Entry>,
                                        i: nat, key: Scalar)
    requires DistinctKeys(entries) && LastOwn(rules, texts, content, i, key)
    ensures var r := DecodePairs(rules, texts, content, false, entries);
      r.Some? ==>
        && DecodeAny(rules, content[i + 1]).Some?
        && Entry(key, DecodeAny(rules, content[i + 1]).value) in r.value
    decreases content
  {
    hide DecodeAny, DecodeKey, IsMergeKey;
    var rest := content[2..];
    assert forall j | 0 <= j < |rest| :: rest[j] == content[j + 2];
    var first, v := DecodeKey(rules, texts, content[0]), DecodeAny(rules, content[1]);
    if !IsMergeKey(rules, content[0]) && first.Some? && v.Some? {
      PutKeeps(entries, first.value, v.value);
    }
    if i >= 2 {
      OwnPairFound(rules, texts, rest, entries, i - 2, key);
      if !IsMergeKey(rules, content[0]) && first.Some? && v.Some? {
        OwnPairFound(rules, texts, rest, Put(entries, first.value, v.value), i - 2, key);
      }
    } else if v.Some? {
      PutHolds(entries, key, v.value, Entry(key, v.value));
      OwnPairKept(rules, texts, rest, Put(entries, key, v.value), Entry(key, v.value));
    }
  }

  /** A pair of a mapping is decoded as it stands, whatever its merge keys bring in. */
  lemma OwnPairWins(rules: ScalarRules, texts: bool, n: Node, i: nat, key: Scalar)
    requires LastOwn(rules, texts, n.content, i, key)
    ensures var r := DecodeMapping(rules, texts, n, false, []);
      r.Some? ==>
        && DecodeAny(rules, n.content[i + 1]).Some?
        && Entry(key, DecodeAny(rules, n.content[i + 1]).value) in r.value
  {
    hide DecodeAny, DecodePairs, DecodeMerges, LastOwn, KeysOnce;
    OwnPairFound(rules, texts, n.content, [], i, key);
    var own := DecodePairs(rules, texts, n.content, false, []);
    if own.Some? {
      MergesAppend(rules, texts, n.content, own.value);
    }
  }

  // Values that differ only in texts.

  ghost predicate ValuesAlike(v: Value, v': Value)
    decreases v
  {
    match v
    case Leaf(s) => v' == v || (s.kind == Text && v'.Leaf? && v'.scalar.kind == Text)
    case List(items) =>
      v'.List? && |v'.items| == |items| && forall i | 0 <= i < |items| :: ValuesAlike(items[i], v'.items[i])
    case Map(any, entries) =>
      && v'.Map? && v'.anyKeyed == any && |v'.entries| == |entries|
      && forall i | 0 <= i < |entries| ::
        entries[i].key == v'.entries[i].key && ValuesAlike(entries[i].value, v'.entries[i].value)
  }

  /** The same keys in the same order, values that differ only in texts, and under the named keys not at all. */
  ghost predicate EntriesAlike(named: set<string>, a: seq<Entry>, b: seq<Entry>) {
    |b| == |a| && forall i | 0 <= i < |a| :: EntryAlike(named, a[i], b[i])
  }

  ghost predicate EntryAlike(named: set<string>, e: Entry, f: Entry) {
    f.key == e.key && ValuesAlike(e.value, f.value) && (e.key.text in named ==> f.value == e.value)
  }

  lemma {:induction false} ValuesAlikeReflexive(v: Value)
    ensures ValuesAlike(v, v)
    decreases v
  {
    match v
    case Leaf(_) =>
    case List(items) =>
      forall x | x in items ensures ValuesAlike(x, x) { ValuesAlikeReflexive(x); }
    case Map(_, entries) =>
      forall e | e in entries ensures ValuesAlike(e.value, e.value) { ValuesAlikeReflexive(e.value); }
  }

  lemma {:induction false} PutAlike(named: set<string>, a: seq<Entry>, b: seq<Entry>, e: Entry, f: Entry)
    requires EntriesAlike(named, a, b) && EntryAlike(named, e, f)
    ensures EntriesAlike(named, Put(a, e.key, e.value), Put(b, f.key, f.value))
  {
    hide ValuesAlike;
    if a != [] {
      assert EntryAlike(named, a[0], b[0]);
      assert EntriesAlike(named, a[1..], b[1..]);
      PutAlike(named, a[1..], b[1..], e, f);
    }
  }

  lemma HasKeyAlike(named: set<string>, a: seq<Entry>, b: seq<Entry>, key: Scalar)
    requires EntriesAlike(named, a, b)
    ensures HasKey(a, key) <==> HasKey(b, key)
  {
    hide ValuesAlike;
    if HasKey(a, key) {
      var i :| 0 <= i < |a| && a[i].key == key;
      assert EntryAlike(named, a[i], b[i]) && b[i] in b;
    }
    if HasKey(b, key) {
      var i :| 0 <= i < |b| && b[i].key == key;
      assert EntryAlike(named, a[i], b[i]) && a[i] in a;
    }
  }

  // Trees that differ only in URLs decode to values that differ only in texts.

  /** The same keys, and values that differ only in URLs. */
  ghost predicate ContentAlike(c: seq<Node>, c': seq<Node>) {
    && |c'| == |c|
    && (forall i: nat | i < |c| :: NodesAlike(c[i], c'[i]))
    && (forall i: nat | i < |c| && i % 2 == 0 :: c'[i] == c[i])
  }

  /** A pair that neither merges nor is read under a named key, unless its value is the same. */
  ghost predicate PairKept(rules: ScalarRules, named: set<string>, texts: bool, key: Node, val: Node, val': Node) {
    || named == {} || val' == val
    || (!IsMergeKey(rules, key)
        && (DecodeKey(rules, texts, key).Some? ==> DecodeKey(rules, texts, key).value.text !in named))
  }

  ghost predicate ContentKept(rules: ScalarRules, named: set<string>, texts: bool, c: seq<Node>, c': seq<Node>)
    requires |c'| == |c|
  {
    forall i: nat | i + 1 < |c| && i % 2 == 0 :: PairKept(rules, named, texts, c[i], c[i + 1], c'[i + 1])
  }

  lemma DropPair(rules: ScalarRules, named: set<string>, texts: bool, c: seq<Node>, c': seq<Node>)
    requires |c| >= 2 && ContentAlike(c, c') && ContentKept(rules, named, texts, c, c')
    ensures c'[0] == c[0] && NodesAlike(c[1], c'[1]) && PairKept(rules, named, texts, c[0], c[1], c'[1])
    ensures ContentAlike(c[2..], c'[2..]) && ContentKept(rules, named, texts, c[2..], c'[2..])
  {
    hide NodesAlike, PairKept;
    forall i: nat | i + 1 < |c[2..]| && i % 2 == 0
      ensures PairKept(rules, named, texts, c[2..][i], c[2..][i + 1], c'[2..][i + 1])
    {
      assert PairKept(rules, named, texts, c[i + 2], c[i + 2 + 1], c'[i + 2 + 1]);
    }
  }

  lemma KeyedAlike(rules: ScalarRules, c: seq<Node>, c': seq<Node>)
    requires ContentAlike(c, c')
    ensures KeyedByText(rules, c') == KeyedByText(rules, c) && KeysOnce(c') == KeysOnce(c)
  {
    hide NodesAlike, DecodeKey, IsMergeKey;
  }

  lemma {:induction false} DecodeAlike(rules: ScalarRules, named: set<string>, n: Node, n': Node)
    requires RulesOk(rules, named) && NodesAlike(n, n') && DecodeAny(rules, n).Some?
    ensures DecodeAny(rules, n').Some? && ValuesAlike(DecodeAny(rules, n).value, DecodeAny(rules, n').value)
    decreases n, 5
  {
    hide ContentKept, KeysOnce, KeyedByText, DecodePairs, DecodeMerges;
    match n.kind
    case ScalarNode =>
    case SequenceNode => ItemsAlike(rules, named, n.content, n'.content);
    case MappingNode =>
      var texts := KeyedByText(rules, n.content);
      KeyedAlike(rules, n.content, n'.content);
      NothingNamed(rules, texts, n.content, n'.content);
      RulesForNone(rules, named);
      MappingAlike(rules, {}, texts, n, n', false, [], []);
      var entries, entries' :=
          DecodeMapping(rules, texts, n, false, []).value, DecodeMapping(rules, texts, n', false, []).value;
      assert forall i | 0 <= i < |entries| :: EntryAlike({}, entries[i], entries'[i]);
    case _ =>
  }

  lemma RulesForNone(rules: ScalarRules, named: set<string>)
    requires RulesOk(rules, named)
    ensures RulesOk(rules, {})
  {
  }

  lemma NothingNamed(rules: ScalarRules, texts: bool, c: seq<Node>, c': seq<Node>)
    requires |c'| == |c|
    ensures ContentKept(rules, {}, texts, c, c')
  {
  }

  lemma {:induction false} ItemsAlike(rules: ScalarRules, named: set<string>, c: seq<Node>, c': seq<Node>)
    requires RulesOk(rules, named) && DecodeItems(rules, c).Some?
    requires |c'| == |c| && forall i: nat | i < |c| :: NodesAlike(c[i], c'[i])
    ensures DecodeItems(rules, c').Some?
    ensures var v, v' := DecodeItems(rules, c).value, DecodeItems(rules, c').value;
      |v'| == |v| && forall i | 0 <= i < |v| :: ValuesAlike(v[i], v'[i])
    decreases c, 0
  {
    hide NodesAlike, DecodeAny, ValuesAlike, RulesOk;
    if c != [] {
      DecodeAlike(rules, named, c[0], c'[0]);
      ItemsAlike(rules, named, c[1..], c'[1..]);
    }
  }

  lemma {:induction false} MappingAlike(rules: ScalarRules, named: set<string>, texts: bool, n: Node, n': Node,
                                        merging: bool,
                                        a: seq<Entry>, b: seq<Entry>)
    requires RulesOk(rules, named) && ContentAlike(n.content, n'.content) && EntriesAlike(named, a, b)
    requires ContentKept(rules, named, texts, n.content, n'.content)
    requires DecodeMapping(rules, texts, n, merging, a).Some?
    ensures DecodeMapping(rules, texts, n', merging, b).Some?
    ensures EntriesAlike(named, DecodeMapping(rules, texts, n, merging, a).value,
                         DecodeMapping(rules, texts, n', merging, b).value)
    decreases n, 4
  {
    hide RulesOk, ContentAlike, ContentKept, EntriesAlike, DecodePairs, DecodeMerges, KeysOnce, KeyedByText;
    KeyedAlike(rules, n.content, n'.content);
    PairsAlike(rules, named, texts, n.content, n'.content, merging, a, b);
    var own := DecodePairs(rules, texts, n.content, merging, a).value;
    var own' := DecodePairs(rules, texts, n'.content, merging, b).value;
    MergesAlike(rules, named, texts, n.content, n'.content, own, own');
  }

  lemma {:induction false} PairsAlike(rules: ScalarRules, named: set<string>, texts: bool, c: seq<Node>,
                                      c': seq<Node>, merging: bool,
                                      a: seq<Entry>, b: seq<Entry>)
    requires RulesOk(rules, named) && ContentAlike(c, c') && EntriesAlike(named, a, b)
        && ContentKept(rules, named, texts, c, c')
    requires DecodePairs(rules, texts, c, merging, a).Some?
    ensures DecodePairs(rules, texts, c', merging, b).Some?
    ensures EntriesAlike(named, DecodePairs(rules, texts, c, merging, a).value,
                         DecodePairs(rules, texts, c', merging, b).value)
    decreases c, 0
  {
    hide RulesOk, ContentAlike, ContentKept, EntriesAlike, DecodeAny, NodesAlike, ValuesAlike, IsMergeKey, DecodeKey,
        HasKey, Put;
    SameLength(c, c');
    if |c| >= 2 {
      DropPair(rules, named, texts, c, c');
      var a', b' := a, b;
      if !IsMergeKey(rules, c[0]) {
        var key := DecodeKey(rules, texts, c[0]).value;
        HasKeyAlike(named, a, b, key);
        if !(merging && HasKey(a, key)) {
          DecodeAlike(rules, named, c[1], c'[1]);
          var e, f := Entry(key, DecodeAny(rules, c[1]).value), Entry(key, DecodeAny(rules, c'[1]).value);
          PutAlike(named, a, b, e, f);
          a', b' := Put(a, e.key, e.value), Put(b, f.key, f.value);
        }
      }
      PairsAlike(rules, named, texts, c[2..], c'[2..], merging, a', b');
    }
  }

  lemma SameLength(c: seq<Node>, c': seq<Node>)
    requires ContentAlike(c, c')
    ensures |c'| == |c|
  {
  }

  lemma {:induction false} MergesAlike(rules: ScalarRules, named: set<string>, texts: bool, c: seq<Node>, c': seq<Node>,
                                       a: seq<Entry>, b: seq<Entry>)
    requires RulesOk(rules, named) && ContentAlike(c, c') && EntriesAlike(named, a, b)
        && ContentKept(rules, named, texts, c, c')
    requires DecodeMerges(rules, texts, c, a).Some?
    ensures DecodeMerges(rules, texts, c', b).Some?
    ensures EntriesAlike(named, DecodeMerges(rules, texts, c, a).value, DecodeMerges(rules, texts, c', b).value)
    decreases c, 0
  {
    hide RulesOk, ContentAlike, ContentKept, EntriesAlike, Merge, NodesAlike, IsMergeKey, DecodeKey;
    SameLength(c, c');
    if |c| >= 2 {
      DropPair(rules, named, texts, c, c');
      var a', b' := a, b;
      if IsMergeKey(rules, c[0]) {
        MergeAlike(rules, named, texts, c[1], c'[1], a, b);
        a', b' := Merge(rules, texts, c[1], a).value, Merge(rules, texts, c'[1], b).value;
      }
      MergesAlike(rules, named, texts, c[2..], c'[2..], a', b');
    }
  }

  lemma {:induction false} MergeAlike(rules: ScalarRules, named: set<string>, texts: bool, n: Node, n': Node,
                                      a: seq<Entry>, b: seq<Entry>)
    requires RulesOk(rules, named) && NodesAlike(n, n') && EntriesAlike(named, a, b) && (n' == n || named == {})
    requires Merge(rules, texts, n, a).Some?
    ensures Merge(rules, texts, n', b).Some?
    ensures EntriesAlike(named, Merge(rules, texts, n, a).value, Merge(rules, texts, n', b).value)
    decreases n, 5
  {
    hide RulesOk, EntriesAlike, DecodeMapping, MergeEach;
    match n.kind
    case MappingNode => MappingAlike(rules, named, texts, n, n', true, a, b);
    case SequenceNode => MergeEachAlike(rules, named, texts, n.content, n'.content, a, b);
    case _ =>
  }

  lemma {:induction false} MergeEachAlike(rules: ScalarRules, named: set<string>, texts: bool, c: seq<Node>,
                                          c': seq<Node>,
                                          a: seq<Entry>, b: seq<Entry>)
    requires RulesOk(rules, named) && EntriesAlike(named, a, b) && (c' == c || named == {})
    requires |c'| == |c| && forall i: nat | i < |c| :: NodesAlike(c[i], c'[i])
    requires MergeEach(rules, texts, c, a).Some?
    ensures MergeEach(rules, texts, c', b).Some?
    ensures EntriesAlike(named, MergeEach(rules, texts, c, a).value, MergeEach(rules, texts, c', b).value)
    decreases c, 0
  {
    hide RulesOk, EntriesAlike, DecodeMapping;
    if c != [] {
      MappingAlike(rules, named, texts, c[0], c'[0], true, a, b);
      var a', b' := DecodeMapping(rules, texts, c[0], true, a).value, DecodeMapping(rules, texts, c'[0], true, b).value;
      MergeEachAlike(rules, named, texts, c[1..], c'[1..], a', b');
    }
  }

  /** Root mappings that differ only in URLs under dependencies decode alike, the named fields not differing at all. */
  lemma RootAlike(rules: ScalarRules, named: set<string>, root: Node, root': Node)
    requires RulesOk(rules, named) && root.kind == MappingNode && NodesAlike(root, root')
    requires forall i: nat | i < |root.content| && root'.content[i] != root.content[i] ::
      i % 2 == 1 && root.content[i - 1].value == "dependencies"
    requires DecodeMapping(rules, true, root, false, []).Some?
    ensures DecodeMapping(rules, true, root', false, []).Some?
    ensures EntriesAlike(named, DecodeMapping(rules, true, root, false, []).value,
                         DecodeMapping(rules, true, root', false, []).value)
  {
    hide DecodeMapping, EntryAlike;
    var c, c' := root.content, root'.content;
    assert "<<" != "dependencies" by { assert |"<<"| != |"dependencies"|; }
    forall i: nat | i + 1 < |c| && i % 2 == 0 ensures PairKept(rules, named, true, c[i], c[i + 1], c'[i + 1]) {
      assert (i + 1) - 1 == i;
    }
    MappingAlike(rules, named, true, root, root', false, [], []);
  }

  // Normalising and marshalling do not tell such values apart.

  lemma {:induction false} NormalizeAlike(v: Value, w: Value)
    requires ValuesAlike(v, w)
    ensures ValuesAlike(Normalize(v), Normalize(w))
    decreases v, 1
  {
    match v
    case Leaf(_) =>
    case List(items) => NormalizeItemsAlike(items, w.items);
    case Map(_, entries) =>
      assert forall i | 0 <= i < |entries| :: EntryAlike({}, entries[i], w.entries[i]);
      NormalizeEntriesAlike({}, entries, w.entries);
      var a, b := NormalizeEntries(entries), NormalizeEntries(w.entries);
      assert forall i | 0 <= i < |a| :: EntryAlike({}, a[i], b[i]);
  }

  lemma {:induction false} NormalizeItemsAlike(a: seq<Value>, b: seq<Value>)
    requires |b| == |a| && forall i | 0 <= i < |a| :: ValuesAlike(a[i], b[i])
    ensures forall i | 0 <= i < |a| :: ValuesAlike(NormalizeItems(a)[i], NormalizeItems(b)[i])
    decreases a, 0
  {
    hide ValuesAlike, Normalize;
    if a != [] {
      NormalizeAlike(a[0], b[0]);
      NormalizeItemsAlike(a[1..], b[1..]);
    }
  }

  lemma {:induction false} NormalizeEntriesAlike(named: set<string>, a: seq<Entry>, b: seq<Entry>)
    requires EntriesAlike(named, a, b)
    ensures EntriesAlike(named, NormalizeEntries(a), NormalizeEntries(b))
    decreases a, 0
  {
    hide ValuesAlike, Normalize, Put;
    if a != [] {
      var n := |a| - 1;
      assert EntryAlike(named, a[n], b[n]);
      assert forall i | 0 <= i < n :: EntryAlike(named, a[..n][i], b[..n][i]) by {
        assert forall i | 0 <= i < n :: a[..n][i] == a[i] && b[..n][i] == b[i];
      }
      NormalizeEntriesAlike(named, a[..n], b[..n]);
      NormalizeEntryAlike(named, a[n], b[n]);
      PutAlike(named, NormalizeEntries(a[..n]), NormalizeEntries(b[..n]), NormalizeEntry(a[n]), NormalizeEntry(b[n]));
    }
  }

  lemma {:induction false} NormalizeEntryAlike(named: set<string>, e: Entry, f: Entry)
    requires EntryAlike(named, e, f)
    ensures EntryAlike(named, NormalizeEntry(e), NormalizeEntry(f))
    decreases e, 0
  {
    NormalizeAlike(e.value, f.value);
  }

  /** A named field reads the same. */
  lemma {:induction false} StringEntryAlike(named: set<string>, a: seq<Entry>, b: seq<Entry>, key: string)
    requires EntriesAlike(named, a, b) && key in named
    ensures StringEntry(b, key) == StringEntry(a, key)
  {
    hide ValuesAlike;
    if a != [] {
      assert EntryAlike(named, a[0], b[0]);
      assert forall i | 0 <= i < |a[1..]| :: EntryAlike(named, a[1..][i], b[1..][i]);
      StringEntryAlike(named, a[1..], b[1..], key);
    }
  }

  /** Whether JSON can express every scalar in it, which the encoder decides one by one. */
  ghost predicate Encodable(codec: Codec, j: Json) {
    match j
    case JLeaf(_) => codec.marshalJson(j).Some?
    case JList(items) => forall x | x in items :: Encodable(codec, x)
    case JObject(fields) => forall k | k in fields :: Encodable(codec, fields[k])
  }

  /** Encoding fails only at a scalar that JSON has no text for, and never at a string. */
  ghost predicate EncodesByLeaf(codec: Codec) {
    && (forall text :: codec.marshalJson(JLeaf(Scalar(Text, text))).Some?)
    && (forall j :: codec.marshalJson(j).Some? <==> Encodable(codec, j))
  }

  lemma {:induction false} EncodableAlike(codec: Codec, v: Value, w: Value)
    requires EncodesByLeaf(codec) && ValuesAlike(v, w) && Encodable(codec, Marshal(v))
    ensures Encodable(codec, Marshal(w))
    decreases v, 1
  {
    match v
    case Leaf(_) =>
    case List(items) => EncodableItems(codec, items, w.items);
    case Map(_, entries) => EncodableFields(codec, entries, w.entries);
  }

  lemma {:induction false} EncodableItems(codec: Codec, a: seq<Value>, b: seq<Value>)
    requires EncodesByLeaf(codec) && |b| == |a| && forall i | 0 <= i < |a| :: ValuesAlike(a[i], b[i])
    requires forall x | x in MarshalItems(a) :: Encodable(codec, x)
    ensures forall x | x in MarshalItems(b) :: Encodable(codec, x)
    decreases a, 0
  {
    hide ValuesAlike, Marshal, Encodable, EncodesByLeaf;
    if a != [] {
      assert Marshal(a[0]) == MarshalItems(a)[0];
      EncodableAlike(codec, a[0], b[0]);
      assert MarshalItems(a)[1..] == MarshalItems(a[1..]);
      EncodableItems(codec, a[1..], b[1..]);
    }
  }

  lemma {:induction false} EncodableFields(codec: Codec, a: seq<Entry>, b: seq<Entry>)
    requires EncodesByLeaf(codec) && |b| == |a|
    requires forall i | 0 <= i < |a| :: b[i].key == a[i].key && ValuesAlike(a[i].value, b[i].value)
    requires forall k | k in MarshalEntries(a) :: Encodable(codec, MarshalEntries(a)[k])
    ensures MarshalEntries(b).Keys == MarshalEntries(a).Keys
    ensures forall k | k in MarshalEntries(b) :: Encodable(codec, MarshalEntries(b)[k])
    decreases a, 0
  {
    hide ValuesAlike, Marshal, Encodable, EncodesByLeaf;
    if a != [] {
      assert forall k | k in MarshalEntries(a[1..]) :: MarshalEntries(a[1..])[k] == MarshalEntries(a)[k];
      EncodableFields(codec, a[1..], b[1..]);
      if a[0].key.text !in MarshalEntries(a[1..]) {
        assert MarshalEntries(a)[a[0].key.text] == MarshalEntry(a[0]);
        EncodableEntry(codec, a[0], b[0]);
      }
    }
  }

  lemma {:induction false} EncodableEntry(codec: Codec, e: Entry, f: Entry)
    requires EncodesByLeaf(codec) && ValuesAlike(e.value, f.value) && Encodable(codec, MarshalEntry(e))
    ensures Encodable(codec, MarshalEntry(f))
    decreases e, 0
  {
    EncodableAlike(codec, e.value, f.value);
  }

  // A document that is decoded to a map with the keys 1 and "1".

  function PlainScalar(text: string): Node {
    Node(ScalarNode, text, "", [])
  }

  function QuotedScalar(text: string): Node {
    Node(ScalarNode, text, "quoted", [])
  }

  /** Plain text is a number where it can be one, quoted text is text. */
  ghost predicate ReadsNumbers(rules: ScalarRules) {
    && rules.asAny("1", "") == Some(Scalar(Int, "1")) && rules.asAny("0x1", "") == Some(Scalar(Int, "1"))
    && (forall text :: rules.asAny(text, "quoted") == Some(Scalar(Text, text)))
    && !rules.isMerge("") && !rules.isMerge("quoted")
  }

  /** {0x1: "a", "1": "b"}: both keys spelt 1 would be refused as one key twice. */
  lemma SpeltApart(rules: ScalarRules)
    requires ReadsNumbers(rules)
    ensures var one, text :=
        Entry(Scalar(Int, "1"), Leaf(Scalar(Text, "a"))), Entry(Scalar(Text, "1"), Leaf(Scalar(Text, "b")));
      var content := [PlainScalar("0x1"), QuotedScalar("a"), QuotedScalar("1"), QuotedScalar("b")];
      DecodeAny(rules, Node(MappingNode, "", "", content)) == Some(Map(true, [one, text]))
    ensures var twice := [PlainScalar("1"), QuotedScalar("a"), QuotedScalar("1"), QuotedScalar("b")];
      DecodeAny(rules, Node(MappingNode, "", "", twice)) == None
  {
    var one, text :=
        Entry(Scalar(Int, "1"), Leaf(Scalar(Text, "a"))), Entry(Scalar(Text, "1"), Leaf(Scalar(Text, "b")));
    var content := [PlainScalar("0x1"), QuotedScalar("a"), QuotedScalar("1"), QuotedScalar("b")];
    assert |"0x1"| != |"1"|;
    assert KeysOnce(content);
    assert !KeyedByText(rules, content) by {
      assert content[0] == PlainScalar("0x1") && !IsMergeKey(rules, content[0]);
    }
    DecodeTwoPairs(rules, content, one, text);
    var twice := [PlainScalar("1"), QuotedScalar("a"), QuotedScalar("1"), QuotedScalar("b")];
    assert !KeysOnce(twice) by {
      assert twice[0].value == twice[2].value && twice[0].kind == twice[2].kind;
    }
  }

  lemma DecodeTwoPairs(rules: ScalarRules, content: seq<Node>, e: Entry, f: Entry)
    requires |content| == 4 && e.key != f.key
    requires !IsMergeKey(rules, content[0]) && !IsMergeKey(rules, content[2])
    requires DecodeKey(rules, false, content[0]) == Some(e.key) && DecodeKey(rules, false, content[2]) == Some(f.key)
    requires DecodeAny(rules, content[1]) == Some(e.value) && DecodeAny(rules, content[3]) == Some(f.value)
    ensures DecodePairs(rules, false, content, false, []) == Some([e, f])
    ensures DecodeMerges(rules, false, content, [e, f]) == Some([e, f])
  {
    var rest := content[2..];
    assert rest[0] == content[2] && rest[1] == content[3] && rest[2..] == [];
    assert Put([], e.key, e.value) == [e] && Put([], f.key, f.value) == [f];
    assert [e][1..] == [] && Put([e], f.key, f.value) == [e] + [f] == [e, f];
    assert DecodePairs(rules, false, rest, false, [e]) == DecodePairs(rules, false, [], false, [e, f]);
    assert DecodeMerges(rules, false, rest, [e, f]) == DecodeMerges(rules, false, [], [e, f]);
  }
}
