/** Query strings: the parts of Go's net/url and strconv that pagination goes through. Strings hold bytes. */
module Queries {
  import opened Wrappers
  import opened Text
  import opened Tagging

  predicate AllBytes(s: string) {
    forall i | 0 <= i < |s| :: s[i] as int < 256
  }

  predicate Unreserved(c: char) {
    IsAlnum(c) || c in "-_.~"
  }

  function HexDigit(d: nat): (c: char)
    requires d < 16
    ensures IsHexDigit(c) && HexValue(c) == d
  {
    if d < 10 then ('0' as int + d) as char else ('A' as int + d - 10) as char
  }

  predicate IsHexDigit(c: char) {
    '0' <= c <= '9' || 'a' <= c <= 'f' || 'A' <= c <= 'F'
  }

  function HexValue(c: char): (d: nat)
    requires IsHexDigit(c)
    ensures d < 16
  {
    if c <= '9' then c as int - '0' as int
    else if c <= 'F' then c as int - 'A' as int + 10
    else c as int - 'a' as int + 10
  }

  function EscapeByte(c: char): string
    requires c as int < 256
  {
    if Unreserved(c) then [c]
    else if c == ' ' then "+"
    else ['%', HexDigit(c as int / 16), HexDigit(c as int % 16)]
  }

  /** url.QueryEscape. */
  function QueryEscape(s: string): string
    requires AllBytes(s)
  {
    if s == "" then "" else EscapeByte(s[0]) + QueryEscape(s[1..])
  }

  /** url.QueryUnescape. */
  function QueryUnescape(s: string): Option<string> {
    if s == "" then Some("")
    else if s[0] == '%' then
      if |s| < 3 || !IsHexDigit(s[1]) || !IsHexDigit(s[2]) then None
      else match QueryUnescape(s[3..])
        case None => None
        case Some(rest) => Some([(HexValue(s[1]) * 16 + HexValue(s[2])) as char] + rest)
    else match QueryUnescape(s[1..])
      case None => None
      case Some(rest) => Some([if s[0] == '+' then ' ' else s[0]] + rest)
  }

  lemma UnescapeByte(c: char, rest: string)
    requires c as int < 256 && QueryUnescape(rest).Some?
    ensures QueryUnescape(EscapeByte(c) + rest) == Some([c] + QueryUnescape(rest).value)
    ensures forall d | d in EscapeByte(c) :: Unreserved(d) || d in "+%"
  {
    var e := EscapeByte(c);
    assert (e + rest)[|e|..] == rest;
    if !Unreserved(c) && c != ' ' {
      assert c as int / 16 * 16 + c as int % 16 == c as int;
    }
  }

  /** Unescaping undoes escaping, and an escaped text holds no delimiter. */
  lemma {:induction false} UnescapeEscape(s: string)
    requires AllBytes(s)
    ensures QueryUnescape(QueryEscape(s)) == Some(s)
    ensures forall c | c in QueryEscape(s) :: Unreserved(c) || c in "+%"
  {
    if s != "" {
      UnescapeEscape(s[1..]);
      assert [s[0]] + s[1..] == s;
      UnescapeByte(s[0], QueryEscape(s[1..]));
    }
  }

  predicate AllUnreserved(s: string) {
    forall i | 0 <= i < |s| :: Unreserved(s[i])
  }

  /** Escaping changes nothing exactly when every character is unreserved. */
  lemma {:induction false} EscapeIdentity(s: string)
    requires AllBytes(s)
    ensures |QueryEscape(s)| >= |s|
    ensures QueryEscape(s) == s <==>
      forall i | 0 <= i < |s| ::
        'a' <= s[i] <= 'z' || 'A' <= s[i] <= 'Z' || '0' <= s[i] <= '9' || s[i] in "-_.~"
  {
    if s != "" {
      var e, rest := EscapeByte(s[0]), QueryEscape(s[1..]);
      EscapeIdentity(s[1..]);
      assert [s[0]] + s[1..] == s;
      if Unreserved(s[0]) {
        assert QueryEscape(s)[1..] == rest;
      } else {
        assert s[0] == ' ' ==> QueryEscape(s)[0] == '+';
        assert s[0] != ' ' ==> |QueryEscape(s)| > |s|;
      }
    }
  }

  /** On a valid tag query-escaping is the identity. */
  lemma ValidTagEscape(tag: string)
    requires ValidTag(tag)
    ensures AllBytes(tag) && AllUnreserved(tag) && QueryEscape(tag) == tag
  {
    EscapeIdentity(tag);
  }

  /** url.ParseQuery and Get: the first well-escaped value of the key, or the empty string. */
  function ValueFor(parts: seq<string>, key: string): string {
    if parts == [] then ""
    else
      var v := PartValue(parts[0], key);
      if v.Some? then v.value else ValueFor(parts[1..], key)
  }

  function PartValue(part: string, key: string): Option<string> {
    if part == "" || ';' in part then None
    else
      var cut := Cut(part, '=');
      var name := QueryUnescape(if cut.Some? then cut.value.0 else part);
      var value := QueryUnescape(if cut.Some? then cut.value.1 else "");
      if name == Some(key) then value else None
  }

  function QueryGet(query: string, key: string): string {
    ValueFor(Split(query, '&'), key)
  }

  predicate AllDigits(s: string) {
    forall i | 0 <= i < |s| :: '0' <= s[i] <= '9'
  }

  function Decimal(s: string): nat
    requires AllDigits(s)
  {
    if s == "" then 0
    else
      var d: nat := s[|s| - 1] as int - '0' as int;
      10 * Decimal(s[..|s| - 1]) + d
  }

  /** strconv.Atoi for 64-bit integers. */
  function Atoi(s: string): Option<int> {
    var signed := s != "" && s[0] in "+-";
    var digits := if signed then s[1..] else s;
    if digits == "" || !AllDigits(digits) then None
    else
      var magnitude: int := Decimal(digits);
      var v := if signed && s[0] == '-' then -magnitude else magnitude;
      if -0x8000_0000_0000_0000 <= v < 0x8000_0000_0000_0000 then Some(v) else None
  }

  /** A number written out in decimal. */
  function Show(n: nat): (s: string)
    ensures s != "" && AllDigits(s)
  {
    if n < 10 then ["0123456789"[n]] else Show(n / 10) + ["0123456789"[n % 10]]
  }

  lemma {:induction false} DecimalShow(n: nat)
    ensures Decimal(Show(n)) == n
  {
    var s := Show(n);
    if n >= 10 {
      DecimalShow(n / 10);
      assert s[..|s| - 1] == Show(n / 10);
    } else {
      assert s[..0] == [];
    }
  }

  /** A number is read back as it is written, up to the largest of 64 bits; beyond it is refused. */
  lemma AtoiShow(n: nat)
    ensures var v: int := n;
      && Atoi(Show(n)) == Atoi("+" + Show(n)) == (if v < 0x8000_0000_0000_0000 then Some(v) else None)
      && Atoi("-" + Show(n)) == if v <= 0x8000_0000_0000_0000 then Some(-v) else None
  {
    hide Show, Atoi, Decimal;
    DecimalShow(n);
    AtoiDigits(Show(n));
  }

  lemma AtoiDigits(digits: string)
    requires digits != "" && AllDigits(digits)
    ensures var v: int := Decimal(digits);
      && Atoi(digits) == Atoi("+" + digits) == (if v < 0x8000_0000_0000_0000 then Some(v) else None)
      && Atoi("-" + digits) == if v <= 0x8000_0000_0000_0000 then Some(-v) else None
  {
    hide Decimal;
    assert ("-" + digits)[1..] == digits && ("+" + digits)[1..] == digits;
    assert digits[0] !in "+-";
  }

  /** Zeros in front change nothing. */
  lemma {:induction false} LeadingZero(s: string)
    requires AllDigits(s)
    ensures AllDigits("0" + s) && Decimal("0" + s) == Decimal(s)
  {
    if s != "" {
      LeadingZero(s[..|s| - 1]);
      assert ("0" + s)[..|s|] == "0" + s[..|s| - 1];
    } else {
      assert "0"[..0] == "";
      assert "0" + s == "0";
    }
  }

  lemma {:induction false} PlainUnescape(s: string)
    requires AllUnreserved(s)
    ensures QueryUnescape(s) == Some(s)
  {
    if s != "" {
      PlainUnescape(s[1..]);
      assert Unreserved(s[0]);
      assert [s[0]] + s[1..] == s;
    }
  }

  lemma CutAt(a: string, b: string, c: char)
    requires c !in a
    ensures Cut(a + [c] + b, c) == Some((a, b))
  {
    var s := a + [c] + b;
    var i := IndexOf(s, c);
    assert s[|a|] == c && forall k | 0 <= k < |a| :: s[k] == a[k] && a[k] in a;
    assert i == |a|;
    assert s[..i] == a && s[i + 1..] == b;
  }

  /** Text an escaped value can have. */
  predicate AllEscaped(s: string) {
    forall i | 0 <= i < |s| :: Unreserved(s[i]) || s[i] in "+%"
  }

  lemma UnreservedEscaped(s: string)
    requires AllUnreserved(s)
    ensures AllEscaped(s)
  {
  }

  lemma Part(name: string, value: string, key: string)
    requires AllUnreserved(name) && AllEscaped(value)
    ensures PartValue(name + "=" + value, key) == if name == key then QueryUnescape(value) else None
    ensures '&' !in name + "=" + value
  {
    hide QueryUnescape;
    var part := name + "=" + value;
    forall i | 0 <= i < |part| ensures part[i] != ';' && part[i] != '&' {
      assert part[i] == '=' || part[i] in "+%" || Unreserved(part[i]);
    }
    assert '=' !in name by {
      assert forall i | 0 <= i < |name| :: Unreserved(name[i]);
      assert !Unreserved('=');
    }
    CutAt(name, value, '=');
    PlainUnescape(name);
  }

  /** Of several parameters of the name the first counts; what holds a semicolon, or is no well-escaped value of that
      name, is passed over. */
  lemma {:induction false} FirstValueCounts(before: seq<string>, part: string, after: seq<string>, key: string)
    requires forall p | p in before :: PartValue(p, key).None?
    ensures ValueFor(before + [part] + after, key) ==
      if PartValue(part, key).Some? then PartValue(part, key).value else ValueFor(after, key)
  {
    hide PartValue;
    var all := before + [part] + after;
    if before == [] {
      assert all[0] == part && all[1..] == after;
    } else {
      assert all[0] == before[0] && all[0] in before && all[1..] == before[1..] + [part] + after;
      FirstValueCounts(before[1..], part, after, key);
    }
  }

  /** A part gives the key a value exactly if it is free of semicolons and reads as name, equals sign and value, the
      sign and the value left out or not, with the name unescaping to the key and the value well escaped. */
  lemma PartExactly(part: string, key: string, value: string)
    ensures PartValue(part, key) == Some(value) <==>
      && part != "" && ';' !in part
      && exists name, escaped: string ::
          Reads(part, name, escaped) && QueryUnescape(name) == Some(key) && QueryUnescape(escaped) == Some(value)
  {
    hide QueryUnescape;
    var cut := Cut(part, '=');
    NothingUnescapes();
    var name := if cut.Some? then cut.value.0 else part;
    var escaped := if cut.Some? then cut.value.1 else "";
    assert Reads(part, name, escaped);
    assert part != "" && ';' !in part ==>
        PartValue(part, key) == if QueryUnescape(name) == Some(key) then QueryUnescape(escaped) else None;
    if part != "" && ';' !in part {
      forall name': string, escaped': string | Reads(part, name', escaped')
        ensures name' == name && escaped' == escaped
      {
        ReadsOnce(part, name', escaped');
      }
    }
  }

  /** The part is a name, an equals sign and a value, or the name alone. */
  predicate Reads(part: string, name: string, escaped: string) {
    '=' !in name && (part == name + "=" + escaped || (part == name && escaped == ""))
  }

  lemma ReadsOnce(part: string, name: string, escaped: string)
    requires Reads(part, name, escaped)
    ensures var cut := Cut(part, '=');
      name == (if cut.Some? then cut.value.0 else part) && escaped == if cut.Some? then cut.value.1 else ""
  {
    if part == name + "=" + escaped {
      CutAt(name, escaped, '=');
    }
  }

  lemma NothingUnescapes()
    ensures QueryUnescape("") == Some("")
  {
  }

  /** Reading back the two parameters of a pagination link: last survives, and n as unescaping leaves it. */
  lemma LinkQuery(n: string, last: string)
    requires AllEscaped(n) && AllUnreserved(last) && QueryUnescape(n).Some?
    ensures QueryGet("n=" + n + "&last=" + last, "n") == QueryUnescape(n).value
    ensures QueryGet("n=" + n + "&last=" + last, "last") == last
  {
    hide QueryUnescape, PartValue, Unreserved, AllEscaped;
    var a, b := "n" + "=" + n, "last" + "=" + last;
    Names();
    Part("n", n, "n");
    Part("n", n, "last");
    UnreservedEscaped(last);
    Part("last", last, "last");
    PlainUnescape(last);
    QueryText(n, last);
    SplitJoin([a, b], '&');
    assert [a, b][1..] == [b];
    assert ValueFor([a, b], "last") == ValueFor([b], "last");
  }

  lemma QueryText(n: string, last: string)
    ensures Join(["n" + "=" + n, "last" + "=" + last], '&') == "n=" + n + "&last=" + last
  {
  }

  lemma Names()
    ensures AllUnreserved("n") && AllUnreserved("last") && "n" != "last"
  {
  }

  /** The first request carries the page size alone. */
  lemma FirstQuery(n: string)
    requires AllEscaped(n) && QueryUnescape(n).Some?
    ensures QueryGet("n=" + n, "n") == QueryUnescape(n).value && QueryGet("n=" + n, "last") == ""
  {
    hide QueryUnescape, PartValue, Unreserved, AllEscaped;
    var a := "n" + "=" + n;
    Names();
    Part("n", n, "n");
    Part("n", n, "last");
    SplitSingle(a, '&');
    assert a == "n=" + n;
    assert [a][1..] == [];
    assert ValueFor([a], "last") == ValueFor([], "last");
  }

  /** The plus sign as a client escapes it. */
  lemma EscapedPlusOne()
    ensures AllEscaped("%2B1") && QueryUnescape("%2B1") == Some("+1")
    ensures Atoi("+1") == Some(1)
  {
    assert "%2B1"[3..] == "1" && "1"[1..] == "";
    PlainUnescape("1");
    assert HexValue('2') * 16 + HexValue('B') == '+' as int && ['+'] + "1" == "+1";
    assert "+1"[1..] == "1" && "1"[..0] == "";
    assert Decimal("1") == 1;
  }
}
