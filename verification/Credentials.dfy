/** The credentials list (config.go's parseAuth). */
module Credentials {
  import opened Wrappers
  import opened Text
  import opened Networks

  /** Usernames to passwords; None when authentication is off. */
  type Users = Option<map<string, string>>

  /** One entry: blank ones say nothing, and only the first colon separates. */
  function ParsePair(pair: string): Result<Option<(string, string)>, string> {
    var text := TrimSpace(pair);
    if text == "" then Ok(None)
    else
      var cut := Cut(text, ':');
      if cut.None? || TrimSpace(cut.value.0) == "" || cut.value.1 == "" then Err(text)
      else Ok(Some((TrimSpace(cut.value.0), cut.value.1)))
  }

  /** A pair names a user exactly if its text is a name free of colons, a colon and a password, neither of them empty
      and the name not blank; only blank text says nothing, and any other is an error. */
  lemma PairExactly(pair: string)
    ensures forall user, password :: ParsePair(pair) == Ok(Some((user, password))) <==>
      exists name :: TrimSpace(pair) == name + ":" + password && ':' !in name
                  && user == TrimSpace(name) != "" && password != ""
    ensures ParsePair(pair) == Ok(None) <==> forall c | c in pair :: IsSpace(c)
    ensures ParsePair(pair).Err? ==> ParsePair(pair).error == TrimSpace(pair)
  {
    hide TrimSpace;
    var text := TrimSpace(pair);
    TrimmedOne(pair);
    assert [pair][..0] == [] && Trimmed([pair]) == if text != "" then [text] else [];
    forall name: string, password: string | text == name + ":" + password && ':' !in name
      ensures Cut(text, ':') == Some((name, password))
    {
      CutOnce(name, password);
    }
    var cut := Cut(text, ':');
    assert cut.Some? ==> text == cut.value.0 + ":" + cut.value.1 && ':' !in cut.value.0;
  }

  lemma CutOnce(name: string, password: string)
    requires ':' !in name
    ensures Cut(name + ":" + password, ':') == Some((name, password))
  {
    var text := name + ":" + password;
    var i := IndexOf(text, ':');
    assert text[|name|] == ':' && forall k | 0 <= k < |name| :: text[k] == name[k] && name[k] in name;
    assert i == |name| && text[..i] == name && text[i + 1..] == password;
  }

  function ParsePairs(pairs: seq<string>): Result<map<string, string>, string> {
    if pairs == [] then Ok(map[])
    else
      var front :- ParsePairs(pairs[..|pairs| - 1]);
      var last :- ParsePair(pairs[|pairs| - 1]);
      Ok(if last.Some? then front[last.value.0 := last.value.1] else front)
  }

  function ParseAuth(raw: string): Result<Users, string> {
    var text := TrimSpace(raw);
    if text == "" then Ok(None)
    else
      var users :- ParsePairs(Split(text, ','));
      Ok(Some(users))
  }

  /** Blank text turns authentication off, and nothing else does; a bad pair fails the load. */
  lemma {:induction false} AuthExactly(raw: string)
    ensures ParseAuth(raw) == Ok(None) <==> forall c | c in raw :: IsSpace(c)
    ensures ParseAuth(raw).Err? <==>
      TrimSpace(raw) != "" && exists pair :: pair in Split(TrimSpace(raw), ',') && ParsePair(pair).Err?
  {
    hide TrimSpace, Split, ParsePair, ParsePairs;
    TrimmedOne(raw);
    assert [raw][..0] == [] && Trimmed([raw]) == if TrimSpace(raw) != "" then [TrimSpace(raw)] else [];
    PairsFailExactly(Split(TrimSpace(raw), ','));
  }

  lemma {:induction false} PairsFailExactly(pairs: seq<string>)
    ensures ParsePairs(pairs).Err? <==> exists pair :: pair in pairs && ParsePair(pair).Err?
  {
    hide ParsePair;
    if pairs != [] {
      PairsFailExactly(pairs[..|pairs| - 1]);
      assert pairs == pairs[..|pairs| - 1] + [pairs[|pairs| - 1]];
    }
  }

  method LoadAuth(raw: string) returns (r: Result<Users, string>)
    ensures r == ParseAuth(raw)
  {
    var text := TrimSpace(raw);
    if text == "" {
      return Ok(None);
    }
    var pairs := Split(text, ',');
    var users: map<string, string> := map[];
    for i := 0 to |pairs|
      invariant ParsePairs(pairs[..i]) == Ok(users)
    {
      assert pairs[..i + 1][..i] == pairs[..i];
      var pair := ParsePair(pairs[i]);
      if pair.Err? {
        FirstBadPair(pairs, i + 1);
        return Err(pair.error);
      }
      if pair.value.Some? {
        users := users[pair.value.value.0 := pair.value.value.1];
      }
    }
    assert pairs[..|pairs|] == pairs;
    return Ok(Some(users));
  }

  lemma {:induction false} FirstBadPair(pairs: seq<string>, n: nat)
    requires n <= |pairs| && ParsePairs(pairs[..n]).Err?
    ensures ParsePairs(pairs) == ParsePairs(pairs[..n])
    decreases |pairs|
  {
    if n < |pairs| {
      assert pairs[..|pairs| - 1][..n] == pairs[..n];
      FirstBadPair(pairs[..|pairs| - 1], n);
    } else {
      assert pairs[..n] == pairs;
    }
  }

  // Writing credentials down and reading them back.

  predicate Tight(s: string) {
    s != "" && !IsSpace(s[0]) && !IsSpace(s[|s| - 1])
  }

  /** A credential the list can carry: no comma, no colon in the name, no space at the outer ends. */
  predicate Writable(c: (string, string)) {
    && Tight(c.0) && ',' !in c.0 && ':' !in c.0
    && c.1 != "" && !IsSpace(c.1[|c.1| - 1]) && ',' !in c.1
  }

  function WritePair(c: (string, string)): string {
    c.0 + ":" + c.1
  }

  function WritePairs(list: seq<(string, string)>): (r: seq<string>)
    ensures |r| == |list| && forall i | 0 <= i < |list| :: r[i] == WritePair(list[i])
  {
    if list == [] then [] else WritePairs(list[..|list| - 1]) + [WritePair(list[|list| - 1])]
  }

  /** A later credential replaces an earlier one of the same name. */
  function Meaning(list: seq<(string, string)>): map<string, string> {
    if list == [] then map[] else Meaning(list[..|list| - 1])[list[|list| - 1].0 := list[|list| - 1].1]
  }

  lemma PairRoundTrip(c: (string, string))
    requires Writable(c)
    ensures ParsePair(WritePair(c)) == Ok(Some(c)) && Tight(WritePair(c)) && ',' !in WritePair(c)
  {
    var text := WritePair(c);
    assert text[0] == c.0[0] && text[|text| - 1] == c.1[|c.1| - 1];
    var i := IndexOf(text, ':');
    assert text[|c.0|] == ':';
    assert forall k | 0 <= k < |c.0| :: text[k] == c.0[k] && c.0[k] in c.0;
    assert i == |c.0|;
    assert text[..i] == c.0 && text[i + 1..] == c.1;
  }

  /** Those are exactly the credentials that a written pair is read back as and a list can carry. */
  lemma WritableExactly(c: (string, string))
    ensures Writable(c) <==> ParsePair(WritePair(c)) == Ok(Some(c)) && ',' !in WritePair(c)
  {
    hide TrimSpace, ParsePair, IsSpace;
    var pair := WritePair(c);
    if Writable(c) {
      PairRoundTrip(c);
    }
    if ParsePair(pair) == Ok(Some(c)) && ',' !in pair {
      PairExactly(pair);
      var name: string :| TrimSpace(pair) == name + ":" + c.1 && ':' !in name && c.0 == TrimSpace(name) != ""
                          && c.1 != "";
      var i, j := TrimSpaceCuts(name);
      assert forall d | d in c.0 :: d in name;
      assert c.1[|c.1| - 1] == TrimSpace(pair)[|TrimSpace(pair)| - 1];
      assert forall d | d in c.0 || d in c.1 :: d in pair;
    }
  }

  lemma {:induction false} PairsRoundTrip(list: seq<(string, string)>)
    requires forall c | c in list :: Writable(c)
    ensures ParsePairs(WritePairs(list)) == Ok(Meaning(list))
  {
    if list != [] {
      var front, last := list[..|list| - 1], list[|list| - 1];
      assert list == front + [last];
      PairsRoundTrip(front);
      assert last in list;
      PairRoundTrip(last);
      assert WritePairs(list)[..|list| - 1] == WritePairs(front);
    }
  }

  /** Reading back a written list of credentials yields what it means, colons in passwords included. */
  lemma AuthRoundTrip(list: seq<(string, string)>)
    requires list != [] && forall c | c in list :: Writable(c)
    ensures ParseAuth(Join(WritePairs(list), ',')) == Ok(Some(Meaning(list)))
  {
    hide Writable, WritePair, ParsePair;
    var pairs := WritePairs(list);
    forall p | p in pairs ensures ',' !in p && Tight(p) {
      var i :| 0 <= i < |pairs| && pairs[i] == p;
      assert list[i] in list;
      PairRoundTrip(list[i]);
    }
    assert pairs[0] in pairs && pairs[|pairs| - 1] in pairs;
    TightJoin(pairs);
    SplitJoin(pairs, ',');
    PairsRoundTrip(list);
  }

  lemma {:induction false} TightJoin(parts: seq<string>)
    requires parts != [] && Tight(parts[0]) && Tight(parts[|parts| - 1])
    ensures Tight(Join(parts, ','))
    ensures TrimSpace(Join(parts, ',')) == Join(parts, ',')
  {
    if |parts| > 1 {
      JoinAppend(parts[..|parts| - 1], [parts[|parts| - 1]], ',');
      assert parts == parts[..|parts| - 1] + [parts[|parts| - 1]];
    }
  }
}
