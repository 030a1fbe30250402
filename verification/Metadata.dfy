/** Chart metadata as YAML decodes it, and the normalisation that makes it fit for JSON. */
module Metadata {

  datatype Kind = Text | Null | Bool | Int | Float

  /** A scalar: its kind, and the text fmt.Sprint renders it as. */
  datatype Scalar = Scalar(kind: Kind, text: string)

  /** A decoded YAML value. The entries of a map stand in the order one particular
      iteration over the Go map visits them; anyKeyed tells map[any]any from map[string]any. */
  datatype Value =
    | Leaf(scalar: Scalar)
    | List(items: seq<Value>)
    | Map(anyKeyed: bool, entries: seq<Entry>)

  datatype Entry = Entry(key: Scalar, value: Value)

  /** What key-sorted marshalling sees: a map is only its bindings. */
  datatype Json =
    | JLeaf(scalar: Scalar)
    | JList(items: seq<Json>)
    | JObject(fields: map<string, Json>)

  /** m[key] = value on a map held as a list of entries with distinct keys. */
  function Put(entries: seq<Entry>, key: Scalar, value: Value): seq<Entry> {
    if entries == [] then [Entry(key, value)]
    else if entries[0].key == key then [Entry(key, value)] + entries[1..]
    else [entries[0]] + Put(entries[1..], key, value)
  }

  function Normalize(v: Value): Value {
    match v
    case Leaf(_) => v
    case List(items) => List(NormalizeItems(items))
    case Map(_, entries) => Map(false, NormalizeEntries(entries))
  }

  function NormalizeItems(items: seq<Value>): (r: seq<Value>)
    ensures |r| == |items|
  {
    if items == [] then [] else [Normalize(items[0])] + NormalizeItems(items[1..])
  }

  /** The loop over a map: a later entry overwrites an earlier one whose key prints alike. */
  function NormalizeEntries(entries: seq<Entry>): seq<Entry> {
    if entries == [] then []
    else
      var last := NormalizeEntry(entries[|entries| - 1]);
      Put(NormalizeEntries(entries[..|entries| - 1]), last.key, last.value)
  }

  /** Keys are rendered by fmt.Sprint, values normalised in turn. */
  function NormalizeEntry(e: Entry): Entry {
    Entry(Scalar(Text, e.key.text), Normalize(e.value))
  }

  function Marshal(v: Value): Json {
    match v
    case Leaf(s) => JLeaf(s)
    case List(items) => JList(MarshalItems(items))
    case Map(_, entries) => JObject(MarshalEntries(entries))
  }

  function MarshalItems(items: seq<Value>): (r: seq<Json>)
    ensures |r| == |items|
  {
    if items == [] then [] else [Marshal(items[0])] + MarshalItems(items[1..])
  }

  function MarshalEntries(entries: seq<Entry>): map<string, Json> {
    if entries == [] then map[]
    else map[entries[0].key.text := MarshalEntry(entries[0])] + MarshalEntries(entries[1..])
  }

  function MarshalEntry(e: Entry): Json {
    Marshal(e.value)
  }

  /** The config blob's content: what normalising and then marshalling yields. */
  function Config(v: Value): Json {
    Marshal(Normalize(v))
  }

  /** Only string-keyed maps, all the way down. */
  ghost predicate StringKeyed(v: Value) {
    match v
    case Leaf(_) => true
    case List(items) => forall x | x in items :: StringKeyed(x)
    case Map(anyKeyed, entries) =>
      && !anyKeyed
      && DistinctKeys(entries)
      && forall e | e in entries :: e.key.kind == Text && StringKeyed(e.value)
  }

  ghost predicate DistinctKeys(entries: seq<Entry>) {
    forall i, j | 0 <= i < j < |entries| :: entries[i].key != entries[j].key
  }

  lemma {:induction false} PutKeeps(entries: seq<Entry>, key: Scalar, value: Value)
    requires DistinctKeys(entries)
    ensures DistinctKeys(Put(entries, key, value))
    ensures forall e | e in Put(entries, key, value) :: e == Entry(key, value) || (e in entries && e.key != key)
  {
    if entries != [] && entries[0].key != key {
      PutKeeps(entries[1..], key, value);
    }
  }

  /** Normalising leaves no map keyed by anything but strings. */
  lemma {:induction false} NormalizeStringKeyed(v: Value)
    ensures StringKeyed(Normalize(v))
    decreases v
  {
    match v
    case Leaf(_) =>
    case List(items) =>
      NormalizeItemsAt(items);
      forall x | x in items ensures StringKeyed(Normalize(x)) {
        NormalizeStringKeyed(x);
      }
    case Map(_, entries) =>
      NormalizeEntriesStringKeyed(entries);
  }

  lemma {:induction false} NormalizeItemsAt(items: seq<Value>)
    ensures forall i | 0 <= i < |items| :: NormalizeItems(items)[i] == Normalize(items[i])
  {
    if items != [] {
      NormalizeItemsAt(items[1..]);
    }
  }

  lemma {:induction false} NormalizeEntriesStringKeyed(entries: seq<Entry>)
    ensures StringKeyed(Map(false, NormalizeEntries(entries)))
    decreases entries
  {
    if entries != [] {
      var n := |entries| - 1;
      NormalizeEntriesStringKeyed(entries[..n]);
      var last := NormalizeEntry(entries[n]);
      NormalizeEntryStringKeyed(entries[n]);
      PutKeeps(NormalizeEntries(entries[..n]), last.key, last.value);
    }
  }

  lemma {:induction false} NormalizeEntryStringKeyed(e: Entry)
    ensures StringKeyed(NormalizeEntry(e).value)
    decreases e
  {
    NormalizeStringKeyed(e.value);
  }

  /** A value that is already string-keyed is left as it is; hence normalising is idempotent. */
  lemma {:induction false} NormalizeFixes(v: Value)
    requires StringKeyed(v)
    ensures Normalize(v) == v
    decreases v
  {
    match v
    case Leaf(_) =>
    case List(items) =>
      NormalizeItemsAt(items);
      forall i | 0 <= i < |items| ensures Normalize(items[i]) == items[i] {
        NormalizeFixes(items[i]);
      }
    case Map(_, entries) =>
      NormalizeEntriesFixes(entries);
  }

  lemma {:induction false} NormalizeEntriesFixes(entries: seq<Entry>)
    requires StringKeyed(Map(false, entries))
    ensures NormalizeEntries(entries) == entries
    decreases entries
  {
    if entries != [] {
      hide Normalize, Put;
      var n := |entries| - 1;
      NormalizeEntriesFixes(entries[..n]);
      NormalizeFixes(entries[n].value);
      PutAppends(entries[..n], entries[n].key, entries[n].value);
      assert entries == entries[..n] + [entries[n]];
    }
  }

  lemma {:induction false} PutAppends(entries: seq<Entry>, key: Scalar, value: Value)
    requires forall e | e in entries :: e.key != key
    ensures Put(entries, key, value) == entries + [Entry(key, value)]
  {
    if entries != [] {
      PutAppends(entries[1..], key, value);
    }
  }

  lemma NormalizeIdempotent(v: Value)
    ensures Normalize(Normalize(v)) == Normalize(v)
  {
    NormalizeStringKeyed(v);
    NormalizeFixes(Normalize(v));
  }

  /** The entries of every map have distinct keys, as those of a Go map do. */
  ghost predicate WellFormed(v: Value) {
    match v
    case Leaf(_) => true
    case List(items) => forall x | x in items :: WellFormed(x)
    case Map(_, entries) => DistinctKeys(entries) && forall e | e in entries :: WellFormed(e.value)
  }

  /** The same decoded value, its maps visited in other orders at any level. */
  ghost predicate Reordered(v: Value, w: Value)
    decreases v
  {
    match v
    case Leaf(_) => v == w
    case List(items) =>
      w.List? && |items| == |w.items| && forall i | 0 <= i < |items| :: Reordered(items[i], w.items[i])
    case Map(any, entries) =>
      && w.Map? && any == w.anyKeyed
      && Keys(entries) == Keys(w.entries)
      && (forall e, e' | e in entries && e' in w.entries && e.key == e'.key :: Reordered(e.value, e'.value))
  }

  ghost function Keys(entries: seq<Entry>): set<Scalar> {
    set e | e in entries :: e.key
  }

  ghost function Texts(entries: seq<Entry>): set<string> {
    set e | e in entries :: e.key.text
  }

  /** Keys of one map that print alike carry values with the same config, at every level. */
  ghost predicate Stable(v: Value) {
    match v
    case Leaf(_) => true
    case List(items) => forall x | x in items :: Stable(x)
    case Map(_, entries) =>
      && (forall e | e in entries :: Stable(e.value))
      && Agreeing(entries)
  }

  ghost predicate Agreeing(entries: seq<Entry>) {
    forall e, e' | e in entries && e' in entries && e.key.text == e'.key.text :: Config(e.value) == Config(e'.value)
  }

  function Fields(entries: seq<Entry>): map<string, Json> {
    MarshalEntries(NormalizeEntries(entries))
  }

  lemma {:induction false} MarshalPut(entries: seq<Entry>, key: Scalar, value: Value)
    requires key.kind == Text && DistinctKeys(entries) && forall e | e in entries :: e.key.kind == Text
    ensures MarshalEntries(Put(entries, key, value)) == MarshalEntries(entries)[key.text := Marshal(value)]
  {
    if entries != [] {
      var head, tail := entries[0], entries[1..];
      assert entries == [head] + tail;
      MarshalCons(head, tail);
      if head.key == key {
        MarshalOverwrite(head, tail, value);
      } else {
        MarshalPut(tail, key, value);
        MarshalCons(head, Put(tail, key, value));
        OverrideApart(head.key.text, Marshal(head.value), MarshalEntries(tail), key.text, Marshal(value));
      }
    }
  }

  lemma MarshalOverwrite(head: Entry, tail: seq<Entry>, value: Value)
    requires forall e | e in tail :: e.key.text != head.key.text
    ensures MarshalEntries([Entry(head.key, value)] + tail)
         == MarshalEntries([head] + tail)[head.key.text := Marshal(value)]
  {
    MarshalCons(Entry(head.key, value), tail);
    MarshalCons(head, tail);
    MarshalKeys(tail);
  }

  lemma OverrideApart<K, V>(a: K, x: V, m: map<K, V>, b: K, y: V)
    requires a != b
    ensures map[a := x] + m[b := y] == (map[a := x] + m)[b := y]
  {
  }

  lemma MarshalCons(head: Entry, tail: seq<Entry>)
    ensures MarshalEntries([head] + tail) == map[head.key.text := Marshal(head.value)] + MarshalEntries(tail)
  {
  }

  lemma {:induction false} MarshalKeys(entries: seq<Entry>)
    ensures MarshalEntries(entries).Keys == Texts(entries)
  {
    if entries != [] {
      MarshalKeys(entries[1..]);
      assert entries == [entries[0]] + entries[1..];
    }
  }

  lemma FieldsSnoc(entries: seq<Entry>, e: Entry)
    ensures Fields(entries + [e]) == Fields(entries)[e.key.text := Config(e.value)]
  {
    var all := entries + [e];
    assert all[..|all| - 1] == entries;
    NormalizeEntriesStringKeyed(entries);
    var last := NormalizeEntry(e);
    MarshalPut(NormalizeEntries(entries), last.key, last.value);
  }

  /** When equal-printing keys agree, no overwriting is visible. */
  lemma {:induction false} FieldsOfAgreeing(entries: seq<Entry>)
    requires Agreeing(entries)
    ensures forall e | e in entries :: e.key.text in Fields(entries) && Fields(entries)[e.key.text] == Config(e.value)
    ensures Fields(entries).Keys == Texts(entries)
  {
    if entries != [] {
      var n := |entries| - 1;
      FieldsOfAgreeing(entries[..n]);
      FieldsSnoc(entries[..n], entries[n]);
      assert entries == entries[..n] + [entries[n]];
    }
  }

  lemma {:induction false} MarshalItemsAt(items: seq<Value>)
    ensures forall i | 0 <= i < |items| :: MarshalItems(items)[i] == Marshal(items[i])
  {
    if items != [] {
      MarshalItemsAt(items[1..]);
    }
  }

  lemma ConfigOfList(items: seq<Value>)
    ensures Config(List(items)) == JList(seq(|items|, i requires 0 <= i < |items| => Config(items[i])))
  {
    NormalizeItemsAt(items);
    MarshalItemsAt(NormalizeItems(items));
  }

  lemma ConfigOfMap(any: bool, entries: seq<Entry>)
    ensures Config(Map(any, entries)) == JObject(Fields(entries))
  {
  }

  /** A stable value has one config, whatever the iteration orders. */
  lemma {:induction false} StableDeterministic(v: Value, w: Value)
    requires Stable(v) && Reordered(v, w)
    ensures Config(v) == Config(w)
    decreases v
  {
    match v
    case Leaf(_) =>
    case List(items) =>
      forall i | 0 <= i < |items| ensures Config(items[i]) == Config(w.items[i]) {
        StableDeterministic(items[i], w.items[i]);
      }
      ConfigOfList(items);
      ConfigOfList(w.items);
    case Map(any, entries) =>
      forall e, e' | e in entries && e' in w.entries && e.key == e'.key ensures Config(e.value) == Config(e'.value) {
        StableDeterministic(e.value, e'.value);
      }
      MatchedFields(entries, w.entries);
      ConfigOfMap(any, entries);
      ConfigOfMap(any, w.entries);
  }

  lemma MatchedFields(entries: seq<Entry>, entries': seq<Entry>)
    requires Agreeing(entries)
    requires Keys(entries) == Keys(entries')
    requires forall e, e' | e in entries && e' in entries' && e.key == e'.key :: Config(e.value) == Config(e'.value)
    ensures Fields(entries) == Fields(entries')
  {
    SameKeysAgreeing(entries, entries');
    FieldsOfAgreeing(entries);
    FieldsOfAgreeing(entries');
    SameKeysSameTexts(entries, entries');
    forall t | t in Texts(entries) ensures Fields(entries)[t] == Fields(entries')[t] {
      var e :| e in entries && e.key.text == t;
      var e' := EntryFor(entries', e.key);
    }
  }

  lemma EntryFor(entries: seq<Entry>, key: Scalar) returns (e: Entry)
    requires key in Keys(entries)
    ensures e in entries && e.key == key
  {
    e :| e in entries && e.key == key;
  }

  lemma SameKeysSameTexts(entries: seq<Entry>, entries': seq<Entry>)
    requires Keys(entries) == Keys(entries')
    ensures Texts(entries) == Texts(entries')
  {
    assert Texts(entries) == set k | k in Keys(entries) :: k.text;
    assert Texts(entries') == set k | k in Keys(entries') :: k.text;
  }

  lemma SameKeysAgreeing(entries: seq<Entry>, entries': seq<Entry>)
    requires Agreeing(entries) && Keys(entries) == Keys(entries')
    requires forall e, e' | e in entries && e' in entries' && e.key == e'.key :: Config(e.value) == Config(e'.value)
    ensures Agreeing(entries')
  {
    forall e', f' | e' in entries' && f' in entries' && e'.key.text == f'.key.text
      ensures Config(e'.value) == Config(f'.value)
    {
      assert e'.key in Keys(entries') && f'.key in Keys(entries');
      var e := EntryFor(entries, e'.key);
      var f := EntryFor(entries, f'.key);
    }
  }

  lemma {:induction false} ReorderedReflexive(v: Value)
    requires WellFormed(v)
    ensures Reordered(v, v)
    decreases v
  {
    match v
    case Leaf(_) =>
    case List(items) =>
      forall i | 0 <= i < |items| ensures Reordered(items[i], items[i]) { ReorderedReflexive(items[i]); }
    case Map(any, entries) =>
      forall e | e in entries ensures Reordered(e.value, e.value) { ReorderedReflexive(e.value); }
  }

  /** Entry i visited last, its own value visited as x. */
  function VisitedLast(entries: seq<Entry>, i: nat, x: Value): seq<Entry>
    requires i < |entries|
  {
    entries[..i] + entries[i + 1..] + [Entry(entries[i].key, x)]
  }

  lemma VisitedLastEntries(entries: seq<Entry>, i: nat, x: Value)
    requires i < |entries| && DistinctKeys(entries)
    ensures DistinctKeys(VisitedLast(entries, i, x))
    ensures Keys(VisitedLast(entries, i, x)) == Keys(entries)
    ensures forall e | e in VisitedLast(entries, i, x) :: e in entries || e == Entry(entries[i].key, x)
  {
  }

  lemma VisitedLastReorders(any: bool, entries: seq<Entry>, i: nat, x: Value)
    requires i < |entries| && WellFormed(Map(any, entries))
    requires Reordered(entries[i].value, x) && WellFormed(x)
    ensures Reordered(Map(any, entries), Map(any, VisitedLast(entries, i, x)))
    ensures WellFormed(Map(any, VisitedLast(entries, i, x)))
  {
    VisitedLastEntries(entries, i, x);
    forall e, e' | e in entries && e' in VisitedLast(entries, i, x) && e.key == e'.key
      ensures Reordered(e.value, e'.value)
    {
      assert e == e' || e == entries[i];
      ReorderedReflexive(e.value);
    }
  }

  lemma VisitedLastWins(entries: seq<Entry>, i: nat, x: Value)
    requires i < |entries|
    ensures entries[i].key.text in Fields(VisitedLast(entries, i, x))
    ensures Fields(VisitedLast(entries, i, x))[entries[i].key.text] == Config(x)
  {
    FieldsSnoc(entries[..i] + entries[i + 1..], Entry(entries[i].key, x));
  }

  /** Conversely, an unstable value can be visited in two ways that give two configs. */
  lemma {:induction false} UnstableWitness(v: Value) returns (w: Value)
    requires WellFormed(v) && !Stable(v)
    ensures WellFormed(w) && Reordered(v, w) && Config(w) != Config(v)
    decreases v
  {
    match v
    case List(items) =>
      var x :| x in items && !Stable(x);
      var i :| 0 <= i < |items| && items[i] == x;
      var y := UnstableWitness(x);
      w := List(items[i := y]);
      ItemDiffers(items, i, y);
    case Map(any, entries) =>
      if e :| e in entries && !Stable(e.value) {
        var i :| 0 <= i < |entries| && entries[i] == e;
        var y := UnstableWitness(e.value);
        w := OneDiffers(any, entries, i, e.value, i, y);
      } else {
        var e, e' :| e in entries && e' in entries && e.key.text == e'.key.text && Config(e.value) != Config(e'.value);
        var i :| 0 <= i < |entries| && entries[i] == e;
        var j :| 0 <= j < |entries| && entries[j] == e';
        ReorderedReflexive(e'.value);
        w := OneDiffers(any, entries, i, e.value, j, e'.value);
      }
  }

  lemma ItemDiffers(items: seq<Value>, i: nat, y: Value)
    requires WellFormed(List(items)) && i < |items|
    requires WellFormed(y) && Reordered(items[i], y) && Config(y) != Config(items[i])
    ensures var w := List(items[i := y]); WellFormed(w) && Reordered(List(items), w) && Config(w) != Config(List(items))
  {
    var w := List(items[i := y]);
    forall k | 0 <= k < |items| ensures Reordered(items[k], w.items[k]) {
      ReorderedReflexive(items[k]);
    }
    ConfigOfList(items);
    ConfigOfList(w.items);
    assert Config(w).items[i] == Config(y) && Config(List(items)).items[i] == Config(items[i]);
  }

  lemma OneDiffers(any: bool, entries: seq<Entry>, i: nat, x: Value, j: nat, y: Value) returns (w: Value)
    requires i < |entries| && j < |entries| && WellFormed(Map(any, entries))
    requires entries[i].value == x && Reordered(entries[j].value, y) && WellFormed(y)
    requires entries[i].key.text == entries[j].key.text && Config(x) != Config(y)
    ensures WellFormed(w) && Reordered(Map(any, entries), w) && Config(w) != Config(Map(any, entries))
  {
    ReorderedReflexive(x);
    VisitedLastReorders(any, entries, i, x);
    VisitedLastReorders(any, entries, j, y);
    VisitedLastWins(entries, i, x);
    VisitedLastWins(entries, j, y);
    var w0, w1 := Map(any, VisitedLast(entries, i, x)), Map(any, VisitedLast(entries, j, y));
    ConfigOfMap(any, w0.entries);
    ConfigOfMap(any, w1.entries);
    w := if Config(w0) != Config(Map(any, entries)) then w0 else w1;
  }

  /** The config blob is independent of map iteration order exactly for stable values. */
  lemma ConfigDeterministicIffStable(v: Value)
    requires WellFormed(v)
    ensures Stable(v) <==> forall w | WellFormed(w) && Reordered(v, w) :: Config(w) == Config(v)
  {
    if Stable(v) {
      forall w | WellFormed(w) && Reordered(v, w) ensures Config(w) == Config(v) {
        StableDeterministic(v, w);
      }
    } else {
      var w := UnstableWitness(v);
    }
  }

  // The config against an independent definition.

  /** The JSON says what the decoded YAML does: the same scalars and lists, and for maps exactly the keys as they print,
      each with what every entry of that key holds. */
  ghost predicate Mirrors(v: Value, j: Json)
    decreases v
  {
    match v
    case Leaf(s) => j == JLeaf(s)
    case List(items) => j.JList? && |j.items| == |items| && forall i | 0 <= i < |items| :: Mirrors(items[i], j.items[i])
    case Map(_, entries) =>
      && j.JObject? && j.fields.Keys == Texts(entries)
      && forall e | e in entries :: e.key.text in j.fields && Mirrors(e.value, j.fields[e.key.text])
  }

  lemma {:induction false} StableMirrors(v: Value)
    requires Stable(v)
    ensures Mirrors(v, Config(v))
    decreases v
  {
    match v
    case Leaf(_) =>
    case List(items) =>
      ConfigOfList(items);
      forall i | 0 <= i < |items| ensures Mirrors(items[i], Config(items[i])) {
        StableMirrors(items[i]);
      }
    case Map(any, entries) =>
      ConfigOfMap(any, entries);
      FieldsOfAgreeing(entries);
      forall e | e in entries ensures Mirrors(e.value, Config(e.value)) {
        StableMirrors(e.value);
      }
  }

  lemma {:induction false} MirrorIsConfig(v: Value, j: Json)
    requires Mirrors(v, j)
    ensures Stable(v) && j == Config(v)
    decreases v
  {
    match v
    case Leaf(_) =>
    case List(items) =>
      ConfigOfList(items);
      forall i | 0 <= i < |items| ensures Stable(items[i]) && j.items[i] == Config(items[i]) {
        MirrorIsConfig(items[i], j.items[i]);
      }
      assert forall x | x in items :: Stable(x);
    case Map(any, entries) =>
      forall e | e in entries ensures Stable(e.value) && j.fields[e.key.text] == Config(e.value) {
        MirrorIsConfig(e.value, j.fields[e.key.text]);
      }
      ConfigOfMap(any, entries);
      FieldsOfAgreeing(entries);
      assert j.fields == Fields(entries);
  }

  /** A decoded document has such a JSON exactly if it is stable, and then it is the config. */
  lemma ConfigMirrorsIffStable(v: Value, j: Json)
    ensures Mirrors(v, j) <==> Stable(v) && j == Config(v)
  {
    if Mirrors(v, j) {
      MirrorIsConfig(v, j);
    }
    if Stable(v) {
      StableMirrors(v);
    }
  }

  /** An input for that: a map with the number 1 and the text 1 as keys, visited in either order. It is decoded from
      {0x1: a, "1": b}; a document that spells both keys 1 is refused. */
  lemma PrintedAlike()
    ensures var one, text :=
        Entry(Scalar(Int, "1"), Leaf(Scalar(Text, "a"))), Entry(Scalar(Text, "1"), Leaf(Scalar(Text, "b")));
      var v, w := Map(true, [one, text]), Map(true, [text, one]);
      WellFormed(v) && WellFormed(w) && Reordered(v, w) && Config(v) != Config(w)
  {
    var one, text :=
        Entry(Scalar(Int, "1"), Leaf(Scalar(Text, "a"))), Entry(Scalar(Text, "1"), Leaf(Scalar(Text, "b")));
    var v, w := Map(true, [one, text]), Map(true, [text, one]);
    assert Keys([one, text]) == Keys([text, one]) == {one.key, text.key};
    LaterWins(one, text);
    LaterWins(text, one);
    assert Config(v).fields["1"] == JLeaf(text.value.scalar) && Config(w).fields["1"] == JLeaf(one.value.scalar);
  }

  lemma LaterWins(e: Entry, f: Entry)
    requires f.key.text == e.key.text && e.value.Leaf? && f.value.Leaf?
    ensures var key := f.key.text; Config(Map(true, [e, f])) == JObject(map[key := JLeaf(f.value.scalar)])
  {
    assert [e, f][..1] == [e] && [e][..0] == [];
    assert NormalizeEntries([e]) == [NormalizeEntry(e)];
    assert NormalizeEntries([e, f]) == [NormalizeEntry(f)];
    var only := NormalizeEntry(f);
    assert [only][1..] == [];
    assert MarshalEntries([only]) == map[only.key.text := MarshalEntry(only)];
  }

  /** In particular, when no two keys of one map print alike. */
  ghost predicate DistinctTexts(v: Value) {
    match v
    case Leaf(_) => true
    case List(items) => forall x | x in items :: DistinctTexts(x)
    case Map(_, entries) =>
      && (forall i, j | 0 <= i < j < |entries| :: entries[i].key.text != entries[j].key.text)
      && forall e | e in entries :: DistinctTexts(e.value)
  }

  lemma {:induction false} DistinctTextsStable(v: Value)
    requires DistinctTexts(v)
    ensures Stable(v)
    decreases v
  {
    match v
    case Leaf(_) =>
    case List(items) =>
      forall x | x in items ensures Stable(x) { DistinctTextsStable(x); }
    case Map(_, entries) =>
      forall e | e in entries ensures Stable(e.value) { DistinctTextsStable(e.value); }
  }
}
