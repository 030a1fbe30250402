/** Which clients skip authentication: loading the bypass networks (config.go) and the
    forwarding-chain test against them (middleware.go). */
module Networks {
  import opened Wrappers
  import opened Text
  import opened Addresses

  type Network = p: Prefix | ValidPrefix(p) witness Prefix(V4(0), 0)

  type Address = a: Addr | ValidAddr(a) witness V4(0)

  /** net.SplitHostPort's host, netip.ParseAddr and netip.ParsePrefix. */
  datatype NetTools = NetTools(
    hostOf: string -> Option<string>,
    parseAddr: string -> Option<Address>,
    parsePrefix: string -> Option<Network>)

  predicate IsSpace(c: char) {
    '\t' <= c <= '\r' || c == ' ' || c == '\U{0085}' || c == '\U{00A0}' || c == '\U{1680}'
    || '\U{2000}' <= c <= '\U{200A}' || c == '\U{2028}' || c == '\U{2029}'
    || c == '\U{202F}' || c == '\U{205F}' || c == '\U{3000}'
  }

  function TrimSpace(s: string): (r: string)
    ensures r == "" || (!IsSpace(r[0]) && !IsSpace(r[|r| - 1]))
    decreases |s|
  {
    if s == "" then s
    else if IsSpace(s[0]) then TrimSpace(s[1..])
    else if IsSpace(s[|s| - 1]) then TrimSpace(s[..|s| - 1])
    else s
  }

  /** Of the characters of ASCII, space is the blank and those numbered 9 to 13. */
  lemma AsciiSpaces(c: char)
    requires c as int < 128
    ensures IsSpace(c) <==> c as int == 32 || 9 <= c as int <= 13
  {
  }

  /** What is trimmed off is space and nothing else is. */
  lemma {:induction false} TrimSpaceCuts(s: string) returns (i: nat, j: nat)
    ensures i <= j <= |s| && TrimSpace(s) == s[i..j]
    ensures forall k | 0 <= k < i || j <= k < |s| :: IsSpace(s[k])
    decreases |s|
  {
    hide IsSpace;
    i, j := 0, |s|;
    if s != "" && IsSpace(s[0]) {
      i, j := TrimSpaceCuts(s[1..]);
      CutLater(s, i, j);
      i, j := i + 1, j + 1;
    } else if s != "" && IsSpace(s[|s| - 1]) {
      i, j := TrimSpaceCuts(s[..|s| - 1]);
      CutSooner(s, i, j);
    } else {
      assert s[0..|s|] == s;
    }
  }

  lemma CutLater(s: string, i: nat, j: nat)
    requires s != "" && i <= j <= |s| - 1
    ensures s[1..][i..j] == s[i + 1..j + 1] && forall k | 0 < k < |s| :: s[k] == s[1..][k - 1]
  {
  }

  lemma CutSooner(s: string, i: nat, j: nat)
    requires s != "" && i <= j <= |s| - 1
    ensures s[..|s| - 1][i..j] == s[i..j] && forall k | 0 <= k < |s| - 1 :: s[k] == s[..|s| - 1][k]
  {
  }

  // Lists from the environment.

  predicate IsTrimmed(v: string) {
    v != "" && TrimSpace(v) == v
  }

  lemma TrimSpaceTwice(s: string)
    ensures TrimSpace(s) == "" || IsTrimmed(TrimSpace(s))
  {
  }

  /** The entries trimmed, empty ones dropped. */
  function Trimmed(list: seq<string>): (r: seq<string>)
    ensures |r| <= |list|
    ensures forall v | v in r :: IsTrimmed(v)
  {
    if list == [] then []
    else
      TrimSpaceTwice(list[|list| - 1]);
      var v := TrimSpace(list[|list| - 1]);
      Trimmed(list[..|list| - 1]) + if v != "" then [v] else []
  }

  /** Trimming goes entry by entry, in order. */
  lemma {:induction false} TrimmedConcat(a: seq<string>, b: seq<string>)
    ensures Trimmed(a + b) == Trimmed(a) + Trimmed(b)
    decreases b
  {
    hide TrimSpace, IsTrimmed;
    if b == [] {
      assert a + b == a;
    } else {
      assert (a + b)[..|a + b| - 1] == a + b[..|b| - 1];
      TrimmedConcat(a, b[..|b| - 1]);
    }
  }

  lemma TrimmedOne(text: string)
    ensures Trimmed([text]) == if forall c | c in text :: IsSpace(c) then [] else [TrimSpace(text)]
  {
    var i, j := TrimSpaceCuts(text);
    assert [text][..0] == [];
    if TrimSpace(text) != "" {
      assert text[i] == TrimSpace(text)[0] && text[i] in text;
    } else {
      assert forall k | 0 <= k < |text| :: IsSpace(text[k]);
    }
  }

  /** trimList: filters over the input's own backing array; what lies past the result is left as it was. */
  method TrimList(a: array<string>) returns (n: nat)
    modifies a
    ensures n <= a.Length && a[..n] == Trimmed(old(a[..]))
    ensures a[n..] == old(a[n..])
  {
    hide TrimSpace, IsTrimmed;
    ghost var was := a[..];
    n := 0;
    for i := 0 to a.Length
      invariant n <= i && a[..n] == Trimmed(was[..i])
      invariant a[n..] == was[n..]
    {
      assert was[..i + 1][..i] == was[..i];
      assert a[i] == a[n..][i - n] == was[i];
      var v := TrimSpace(a[i]);
      if v != "" {
        a[n] := v;
        n := n + 1;
        assert a[n..] == was[n..] && a[..n] == a[..n - 1] + [v];
      }
    }
    assert was[..a.Length] == was;
  }

  /** Trimming a trimmed list changes nothing. */
  lemma {:induction false} TrimmedIdempotent(list: seq<string>)
    ensures Trimmed(Trimmed(list)) == Trimmed(list)
  {
    TrimmedStays(Trimmed(list));
  }

  lemma {:induction false} TrimmedStays(list: seq<string>)
    requires forall v | v in list :: IsTrimmed(v)
    ensures Trimmed(list) == list
  {
    hide TrimSpace;
    if list != [] {
      var front, last := list[..|list| - 1], list[|list| - 1];
      assert list == front + [last];
      TrimmedStays(front);
      assert last in list;
    }
  }

  /** The networks a list denotes; the first text that is no prefix fails the load. */
  function LoadNets(tools: NetTools, raws: seq<string>): Result<seq<Network>, string> {
    if raws == [] then Ok([])
    else
      var front :- LoadNets(tools, raws[..|raws| - 1]);
      match tools.parsePrefix(raws[|raws| - 1])
      case None => Err(raws[|raws| - 1])
      case Some(p) => Ok(front + [Normalize(p)])
  }

  method Load(tools: NetTools, configured: array<string>) returns (r: Result<seq<Network>, string>)
    modifies configured
    ensures r == LoadNets(tools, Trimmed(old(configured[..])))
  {
    hide Trimmed, Normalize;
    var n := TrimList(configured);
    var raws := configured[..n];
    var nets: seq<Network> := [];
    for i := 0 to |raws|
      invariant LoadNets(tools, raws[..i]) == Ok(nets)
    {
      assert raws[..i + 1][..i] == raws[..i];
      var prefix := tools.parsePrefix(raws[i]);
      if prefix.None? {
        LoadFails(tools, raws, i + 1);
        return Err(raws[i]);
      }
      nets := nets + [Normalize(prefix.value)];
    }
    assert raws[..|raws|] == raws;
    return Ok(nets);
  }

  lemma {:induction false} LoadFails(tools: NetTools, raws: seq<string>, n: nat)
    requires n <= |raws| && LoadNets(tools, raws[..n]).Err?
    ensures LoadNets(tools, raws) == LoadNets(tools, raws[..n])
    decreases |raws|
  {
    if n < |raws| {
      assert raws[..|raws| - 1][..n] == raws[..n];
      LoadFails(tools, raws[..|raws| - 1], n);
    } else {
      assert raws[..n] == raws;
    }
  }

  lemma {:induction false} LoadedNets(tools: NetTools, raws: seq<string>)
    requires LoadNets(tools, raws).Ok?
    ensures var nets := LoadNets(tools, raws).value;
      |nets| == |raws| && forall i | 0 <= i < |raws| ::
        tools.parsePrefix(raws[i]).Some? && nets[i] == Normalize(tools.parsePrefix(raws[i]).value)
  {
    if raws != [] {
      LoadedNets(tools, raws[..|raws| - 1]);
    }
  }

  /** Loading fails exactly with the first text that is no prefix. */
  lemma {:induction false} LoadFailsExactly(tools: NetTools, raws: seq<string>, raw: string)
    ensures LoadNets(tools, raws) == Err(raw) <==>
      exists i :: 0 <= i < |raws| && raws[i] == raw && tools.parsePrefix(raw).None?
               && forall j | 0 <= j < i :: tools.parsePrefix(raws[j]).Some?
    ensures LoadNets(tools, raws).Ok? <==> forall i | 0 <= i < |raws| :: tools.parsePrefix(raws[i]).Some?
  {
    if raws != [] {
      var front := raws[..|raws| - 1];
      LoadFailsExactly(tools, front, raw);
      assert forall i | 0 <= i < |front| :: raws[i] == front[i];
    }
  }

  // The forwarding chain.

  predicate InSome(nets: seq<Network>, a: Address) {
    exists i :: 0 <= i < |nets| && Contains(nets[i], a)
  }

  /** The address in "ip" or "ip:port". */
  function AddressOf(tools: NetTools, s: string): Option<Address> {
    var host := tools.hostOf(s);
    tools.parseAddr(if host.Some? then host.value else s)
  }

  /** Text that is no address is within nothing. */
  predicate Within(tools: NetTools, nets: seq<Network>, s: string) {
    var a := AddressOf(tools, s);
    a.Some? && InSome(nets, Unmap(a.value))
  }

  /** Every hop of every header line, in the order read. */
  function Hops(lines: seq<string>): seq<string> {
    if lines == [] then [] else Hops(lines[..|lines| - 1]) + Split(lines[|lines| - 1], ',')
  }

  /** The whole chain lies within: the peer, and every hop once trimmed. */
  ghost predicate ChainWithin(tools: NetTools, nets: seq<Network>, peer: string, lines: seq<string>) {
    Within(tools, nets, peer) && forall hop | hop in Hops(lines) :: Within(tools, nets, TrimSpace(hop))
  }

  /** A port changes nothing: an address is within the networks, with a port or without, exactly if some network
      contains it unmapped. */
  lemma PortIgnored(tools: NetTools, nets: seq<Network>, ip: string, port: string)
    requires tools.hostOf(ip + ":" + port) == Some(ip) && tools.hostOf(ip).None?
    ensures Within(tools, nets, ip + ":" + port) <==> Within(tools, nets, ip)
    ensures Within(tools, nets, ip) <==>
      exists a, i :: tools.parseAddr(ip) == Some(a) && 0 <= i < |nets| && Contains(nets[i], Unmap(a))
  {
    if exists a, i :: tools.parseAddr(ip) == Some(a) && 0 <= i < |nets| && Contains(nets[i], Unmap(a)) {
      assert tools.parseAddr(ip).Some? && InSome(nets, Unmap(tools.parseAddr(ip).value));
    }
  }

  /** The hops are what stands between the commas of some header line. */
  lemma {:induction false} HopsExactly(lines: seq<string>, hop: string)
    ensures hop in Hops(lines) <==> exists i :: 0 <= i < |lines| && hop in Split(lines[i], ',')
  {
    if lines != [] {
      var front := lines[..|lines| - 1];
      HopsExactly(front, hop);
      assert forall i | 0 <= i < |front| :: lines[i] == front[i];
    }
  }

  method AddrWithin(tools: NetTools, nets: seq<Network>, s: string) returns (within: bool)
    ensures within == Within(tools, nets, s)
  {
    var text := s;
    var host := tools.hostOf(s);
    if host.Some? {
      text := host.value;
    }
    var parsed := tools.parseAddr(text);
    if parsed.None? {
      return false;
    }
    var addr := Unmap(parsed.value);
    for i := 0 to |nets|
      invariant forall k | 0 <= k < i :: !Contains(nets[k], addr)
    {
      if Contains(nets[i], addr) {
        return true;
      }
    }
    return false;
  }

  /** The loop over the hops of one header line. */
  method LineWithin(tools: NetTools, nets: seq<Network>, entries: seq<string>) returns (within: bool)
    ensures within <==> forall hop | hop in entries :: Within(tools, nets, TrimSpace(hop))
  {
    hide Within, TrimSpace;
    for j := 0 to |entries|
      invariant forall hop | hop in entries[..j] :: Within(tools, nets, TrimSpace(hop))
    {
      var ok := AddrWithin(tools, nets, TrimSpace(entries[j]));
      if !ok {
        assert entries[j] in entries;
        return false;
      }
    }
    assert entries[..|entries|] == entries;
    return true;
  }

  method Chain(tools: NetTools, nets: seq<Network>, peer: string, lines: seq<string>) returns (within: bool)
    ensures within <==> ChainWithin(tools, nets, peer, lines)
  {
    hide Within, TrimSpace;
    var first := AddrWithin(tools, nets, peer);
    if !first {
      return false;
    }
    for i := 0 to |lines|
      invariant forall hop | hop in Hops(lines[..i]) :: Within(tools, nets, TrimSpace(hop))
    {
      assert lines[..i + 1][..i] == lines[..i];
      var line := LineWithin(tools, nets, Split(lines[i], ','));
      if !line {
        HopsPrefix(lines, i + 1);
        assert forall hop | hop in Split(lines[i], ',') :: hop in Hops(lines[..i + 1]);
        assert forall hop | hop in Hops(lines[..i + 1]) :: hop in Hops(lines);
        return false;
      }
    }
    assert lines[..|lines|] == lines;
    return true;
  }

  lemma {:induction false} HopsPrefix(lines: seq<string>, n: nat)
    requires n <= |lines|
    ensures Hops(lines[..n]) <= Hops(lines)
    decreases |lines|
  {
    if n < |lines| {
      assert lines[..|lines| - 1][..n] == lines[..n];
      HopsPrefix(lines[..|lines| - 1], n);
    } else {
      assert lines[..n] == lines;
    }
  }

  /** Only which hops there are matters: not their order, nor how often or on which line they stand. */
  lemma OrderIrrelevant(tools: NetTools, nets: seq<Network>, peer: string, lines: seq<string>, lines': seq<string>)
    requires forall hop :: hop in Hops(lines) <==> hop in Hops(lines')
    ensures ChainWithin(tools, nets, peer, lines) <==> ChainWithin(tools, nets, peer, lines')
  {
  }

  /** Permuting the hops changes nothing. */
  lemma PermutingHops(tools: NetTools, nets: seq<Network>, peer: string, lines: seq<string>, lines': seq<string>)
    requires multiset(Hops(lines)) == multiset(Hops(lines'))
    ensures ChainWithin(tools, nets, peer, lines) <==> ChainWithin(tools, nets, peer, lines')
  {
    forall hop ensures hop in Hops(lines) <==> hop in Hops(lines') {
      assert hop in Hops(lines) <==> hop in multiset(Hops(lines));
      assert hop in Hops(lines') <==> hop in multiset(Hops(lines'));
    }
  }

  /** Adding hops never brings a chain within. */
  lemma AddingHops(tools: NetTools, nets: seq<Network>, peer: string, lines: seq<string>, lines': seq<string>)
    requires forall hop :: hop in Hops(lines) ==> hop in Hops(lines')
    requires ChainWithin(tools, nets, peer, lines')
    ensures ChainWithin(tools, nets, peer, lines)
  {
  }

  /** A line put anywhere among the others adds its hops and takes none away. */
  lemma {:induction false} HopsInsert(lines: seq<string>, i: nat, line: string)
    requires i <= |lines|
    ensures forall hop ::
        hop in Hops(lines[..i] + [line] + lines[i..]) <==> hop in Hops(lines) || hop in Split(line, ',')
    decreases |lines|
  {
    var all := lines[..i] + [line] + lines[i..];
    if i == |lines| {
      assert all[..|all| - 1] == lines;
    } else {
      var front := lines[..|lines| - 1];
      HopsInsert(front, i, line);
      assert all[..|all| - 1] == front[..i] + [line] + front[i..];
    }
  }

  /** A further header line never turns a chain that is not within into one that is. */
  lemma AddingLine(tools: NetTools, nets: seq<Network>, peer: string, lines: seq<string>, i: nat, line: string)
    requires i <= |lines| && ChainWithin(tools, nets, peer, lines[..i] + [line] + lines[i..])
    ensures ChainWithin(tools, nets, peer, lines)
  {
    HopsInsert(lines, i, line);
    AddingHops(tools, nets, peer, lines, lines[..i] + [line] + lines[i..]);
  }

  lemma {:induction false} HopsJoin(lines: seq<string>)
    requires lines != []
    ensures Split(Join(lines, ','), ',') == Hops(lines)
  {
    var front, last := lines[..|lines| - 1], lines[|lines| - 1];
    if front == [] {
      assert Hops(front) == [];
    } else {
      HopsJoin(front);
      assert lines == front + [last];
      JoinAppend(front, [last], ',');
      var joined, at := Join(lines, ','), |Join(front, ',')|;
      SplitAt(joined, at, ',');
      assert joined[..at] == Join(front, ',') && joined[at + 1..] == last;
    }
  }

  /** A list of header lines means what one line of them joined by commas means: section 5.3 of RFC 9110. */
  lemma JoiningLines(tools: NetTools, nets: seq<Network>, peer: string, lines: seq<string>)
    requires lines != []
    ensures ChainWithin(tools, nets, peer, [Join(lines, ',')]) <==> ChainWithin(tools, nets, peer, lines)
  {
    HopsJoin(lines);
    var joined := [Join(lines, ',')];
    assert joined[..0] == [];
    assert Hops(joined) == Hops([]) + Split(joined[0], ',') == Split(joined[0], ',');
  }

  /** No header at all is not an empty header: the empty hop is no address, and fails closed. */
  lemma EmptyHeaderFails(tools: NetTools, nets: seq<Network>, peer: string)
    requires AddressOf(tools, "").None?
    ensures !ChainWithin(tools, nets, peer, [""])
    ensures ChainWithin(tools, nets, peer, []) <==> Within(tools, nets, peer)
  {
    assert [""][..0] == [];
    assert Hops([""]) == Hops([]) + Split("", ',');
    assert "" in Hops([""]);
  }

  /** The configuration and the test together: an address is within the loaded networks exactly when its
      128-bit form is in the 128-bit form of some prefix as written, but for zones and short IPv6 prefixes. */
  lemma LoadedWithin(tools: NetTools, raws: seq<string>, s: string)
    requires LoadNets(tools, raws).Ok? && AddressOf(tools, s).Some?
    ensures var a := AddressOf(tools, s).value;
      Within(tools, LoadNets(tools, raws).value, s) <==>
        !Zoned(a) && exists i :: 0 <= i < |raws| && Admits(tools, raws[i], a)
  {
    var a, nets := AddressOf(tools, s).value, LoadNets(tools, raws).value;
    LoadedNets(tools, raws);
    forall i | 0 <= i < |raws| ensures Contains(nets[i], Unmap(a)) <==> !Zoned(a) && Admits(tools, raws[i], a) {
      MatchExactly(tools.parsePrefix(raws[i]).value, a);
    }
  }

  /** The prefix as written admits the address. */
  ghost predicate Admits(tools: NetTools, raw: string, a: Address) {
    var p := tools.parsePrefix(raw);
    p.Some? && WideContains(p.value, a) && !(IsIPv4(a) && p.value.addr.V6? && p.value.bits < 96)
  }
}
