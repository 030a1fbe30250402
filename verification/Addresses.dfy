/** IP addresses and prefixes, and the configuration's normalisation of mapped prefixes (config.go's Load). */
module Addresses {

  function Pow2(k: nat): (r: nat)
    ensures r >= 1
  {
    if k == 0 then 1 else 2 * Pow2(k - 1)
  }

  /** An address as the number its bits spell, 32 or 128 of them; a zone names an interface. */
  datatype Addr =
    | V4(number: nat)
    | V6(number: nat, zone: string)

  /** The address is kept as written; bits says how many leading bits count. */
  datatype Prefix = Prefix(addr: Addr, bits: nat)

  function Width(a: Addr): nat {
    if a.V4? then 32 else 128
  }

  predicate ValidAddr(a: Addr) {
    a.number < Pow2(Width(a))
  }

  /** What parsing a prefix accepts: no more bits than the family has, and no zone. */
  predicate ValidPrefix(p: Prefix) {
    ValidAddr(p.addr) && p.bits <= Width(p.addr) && (p.addr.V6? ==> p.addr.zone == "")
  }

  /** ::ffff:0:0/96 as a number: section 2.5.5.2 of RFC 4291. */
  function MappedNumber(word: nat): nat {
    0xffff * Pow2(32) + word
  }

  /** An IPv4 address wrapped in IPv6. */
  predicate Is4In6(a: Addr) {
    a.V6? && a.number / Pow2(32) == 0xffff
  }

  function Unmap(a: Addr): (r: Addr)
    ensures ValidAddr(a) ==> ValidAddr(r)
  {
    if Is4In6(a) then V4(a.number % Pow2(32)) else a
  }

  /** Two numbers of so many bits agree on the leading ones. */
  predicate SameLeading(x: nat, y: nat, width: nat, bits: nat)
    requires bits <= width
  {
    x / Pow2(width - bits) == y / Pow2(width - bits)
  }

  /** Whether a prefix contains an address: never across families, never one with a zone. */
  predicate Contains(p: Prefix, a: Addr)
    requires ValidPrefix(p)
  {
    && p.addr.V4? == a.V4?
    && (a.V6? ==> a.zone == "")
    && SameLeading(p.addr.number, a.number, Width(p.addr), p.bits)
  }

  /** What Load makes of a prefix: a mapped one of at least 96 bits becomes plain IPv4. */
  function Normalize(p: Prefix): (r: Prefix)
    requires ValidPrefix(p)
    ensures ValidPrefix(r)
  {
    if Is4In6(p.addr) && p.bits >= 96 then Prefix(Unmap(p.addr), p.bits - 96) else p
  }

  // The reference: every address in its 128-bit form, every prefix counted over 128 bits.

  function Wide(a: Addr): nat {
    if a.V4? then MappedNumber(a.number) else a.number
  }

  function WideBits(p: Prefix): nat {
    if p.addr.V4? then p.bits + 96 else p.bits
  }

  predicate Zoned(a: Addr) {
    a.V6? && a.zone != "" && !Is4In6(a)
  }

  predicate IsIPv4(a: Addr) {
    a.V4? || Is4In6(a)
  }

  ghost predicate WideContains(p: Prefix, a: Addr)
    requires ValidPrefix(p)
  {
    SameLeading(Wide(p.addr), Wide(a), 128, WideBits(p))
  }

  lemma {:induction false} PowSum(a: nat, b: nat)
    ensures Pow2(a + b) == Pow2(a) * Pow2(b)
  {
    if a > 0 {
      PowSum(a - 1, b);
      assert Pow2(a + b) == 2 * (Pow2(a - 1) * Pow2(b)) == (2 * Pow2(a - 1)) * Pow2(b);
    }
  }

  lemma Small(k: int, d: nat)
    ensures k * d < d && k * d + d > 0 ==> k == 0
  {
  }

  lemma DivideUnique(x: nat, d: nat, q: nat)
    requires d >= 1
    ensures x / d == q <==> q * d <= x < q * d + d
  {
    var e := x / d;
    assert x == e * d + x % d;
    assert (e - q) * d == e * d - q * d;
    Small(e - q, d);
  }

  /** Whole blocks put in front divide out. */
  lemma DivideShift(n: nat, x: nat, d: nat)
    requires d >= 1
    ensures (n * d + x) / d == n + x / d
  {
    var q := x / d;
    assert x == q * d + x % d;
    assert (n + q) * d == n * d + q * d;
    DivideUnique(n * d + x, d, n + q);
  }

  /** A prefix is a range: the addresses from the network's first to its last. */
  lemma PrefixIsRange(p: Prefix, a: Addr)
    requires ValidPrefix(p)
    ensures var block := Pow2(Width(p.addr) - p.bits);
      var first := p.addr.number / block * block;
      Contains(p, a) <==> p.addr.V4? == a.V4? && (a.V6? ==> a.zone == "") && first <= a.number < first + block
  {
    hide Pow2;
    var block := Pow2(Width(p.addr) - p.bits);
    DivideUnique(a.number, block, p.addr.number / block);
  }

  /** The last 32 bits compare alike with or without the mapping in front. */
  lemma MappedLeading(x: nat, y: nat, bits: nat)
    requires 96 <= bits <= 128
    ensures SameLeading(MappedNumber(x), MappedNumber(y), 128, bits) <==> SameLeading(x, y, 32, bits - 96)
  {
    hide Pow2;
    var k: nat := 128 - bits;
    PowSum(32 - k, k);
    Associate(0xffff, Pow2(32 - k), Pow2(k));
    DivideShift(0xffff * Pow2(32 - k), x, Pow2(k));
    DivideShift(0xffff * Pow2(32 - k), y, Pow2(k));
  }

  lemma Associate(a: int, b: int, c: int)
    ensures a * (b * c) == (a * b) * c
  {
  }

  lemma UnmapWide(a: Addr)
    ensures Wide(Unmap(a)) == Wide(a)
  {
  }

  /** Numbers that agree on at least 96 leading bits are both mapped or neither. */
  lemma LeadingDecidesMapped(x: nat, y: nat, bits: nat)
    requires 96 <= bits <= 128 && SameLeading(x, y, 128, bits)
    ensures x / Pow2(32) == y / Pow2(32)
  {
    var k: nat := 128 - bits;
    PowSum(k, 32 - k);
    DivideTwice(x, Pow2(k), Pow2(32 - k));
    DivideTwice(y, Pow2(k), Pow2(32 - k));
  }

  lemma Positive(d: nat, e: nat)
    requires d >= 1 && e >= 1
    ensures d * e >= 1
  {
  }

  lemma DivideTwice(x: nat, d: nat, e: nat)
    requires d >= 1 && e >= 1
    ensures d * e >= 1 && x / (d * e) == x / d / e
  {
    Positive(d, e);
    TwoRemainders(x / d / e, x / d % e, x % d, d, e);
    RemainderOf(x, d);
    RemainderOf(x / d, e);
    DivideUnique(x, d * e, x / d / e);
  }

  lemma RemainderOf(x: nat, d: nat)
    requires d >= 1
    ensures x == x / d * d + x % d
  {
  }

  lemma TwoRemainders(s: nat, r: nat, t: nat, d: nat, e: nat)
    requires r < e && t < d
    ensures s * (d * e) <= (s * e + r) * d + t < s * (d * e) + d * e
  {
    Associate(s, e, d);
    assert (s * e + r) * d == s * e * d + r * d;
    assert (e - 1 - r) * d >= 0;
    assert (e - 1 - r) * d == e * d - d - r * d;
    assert 0 <= r * d;
  }

  lemma MappedIs4In6(word: nat)
    requires word < Pow2(32)
    ensures MappedNumber(word) / Pow2(32) == 0xffff && MappedNumber(word) % Pow2(32) == word
  {
    DivideUnique(MappedNumber(word), Pow2(32), 0xffff);
    assert MappedNumber(word) == MappedNumber(word) / Pow2(32) * Pow2(32) + MappedNumber(word) % Pow2(32);
  }

  /** The configured IPv4 prefix contains an unmapped address exactly when the prefix as written
      contains the mapped one. */
  lemma NormalizedMapped(p: Prefix, word: nat)
    requires ValidPrefix(p) && Is4In6(p.addr) && p.bits >= 96 && word < Pow2(32)
    ensures Contains(Normalize(p), V4(word)) <==> Contains(p, V6(MappedNumber(word), ""))
  {
    UnmapWide(p.addr);
    MappedLeading(p.addr.number % Pow2(32), word, p.bits);
  }

  /** For every prefix and every client address: after normalising the one and unmapping the other, they
      match exactly when their 128-bit forms do, save that a zoned IPv6 address matches nothing and an
      IPv6 prefix of fewer than 96 bits never matches an IPv4 client. */
  lemma MatchExactly(p: Prefix, a: Addr)
    requires ValidPrefix(p) && ValidAddr(a)
    ensures Contains(Normalize(p), Unmap(a))
      <==> WideContains(p, a) && !Zoned(a) && !(IsIPv4(a) && p.addr.V6? && p.bits < 96)
  {
    hide Pow2, SameLeading, MappedNumber;
    var q, b := Normalize(p), Unmap(a);
    UnmapWide(a);
    UnmapWide(p.addr);
    if IsIPv4(a) {
      assert b.V4?;
      if q.addr.V4? {
        MappedLeading(q.addr.number, b.number, WideBits(p));
      } else if p.bits >= 96 && WideContains(p, a) {
        LeadingDecidesMapped(Wide(p.addr), Wide(a), p.bits);
        MappedIs4In6(b.number);
      }
    } else {
      assert b == a;
      if q.addr.V4? && WideContains(p, a) {
        LeadingDecidesMapped(Wide(p.addr), Wide(a), WideBits(p));
        MappedIs4In6(q.addr.number);
      }
    }
  }

  /** ::ffff:0:0/95, say, is no IPv4 prefix once loaded: it contains the mapped form of every IPv4
      address, and no IPv4 client ever matches it. */
  lemma ShortMappedPrefixNeverMatches(word: nat)
    requires word < Pow2(32)
    ensures var p := Prefix(V6(MappedNumber(0), ""), 95);
      && ValidPrefix(p) && Is4In6(p.addr)
      && Contains(p, V6(MappedNumber(word), ""))
      && !Contains(Normalize(p), V4(word))
  {
    hide Pow2;
    var p := Prefix(V6(MappedNumber(0), ""), 95);
    PowSum(32, 96);
    PowSum(32, 1);
    One();
    MappedIs4In6(0);
    MappedIs4In6(word);
    PowSum(32, 16);
    DivideTwice(MappedNumber(0), Pow2(32), Pow2(1));
    DivideTwice(MappedNumber(word), Pow2(32), Pow2(1));
    MappedSmall();
  }

  lemma Sixteen()
    ensures Pow2(1) == 2 && Pow2(16) == 0x10000
  {
    PowSum(8, 8);
    PowSum(4, 4);
    assert Pow2(4) == 16;
  }

  lemma One()
    ensures Pow2(1) == 2 && Pow2(96) >= 0x10000
  {
    hide Pow2;
    Sixteen();
    PowSum(16, 80);
    assert 0x10000 * Pow2(80) >= 0x10000;
  }

  lemma MappedSmall()
    ensures MappedNumber(0) < Pow2(128)
  {
    hide Pow2;
    PowSum(32, 96);
    One();
    assert Pow2(32) * (Pow2(96) - 0xffff) > 0;
  }
}
