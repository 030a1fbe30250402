/** The few functions of Go's strings package that the registry relies on. */
module Text {
  import opened Wrappers

  predicate HasPrefix(s: string, prefix: string) {
    prefix <= s
  }

  function TrimPrefix(s: string, prefix: string): string {
    if HasPrefix(s, prefix) then s[|prefix|..] else s
  }

  /** Position of the first c in s, or |s|. */
  function IndexOf(s: string, c: char): (i: nat)
    ensures i <= |s|
    ensures forall k | 0 <= k < i :: s[k] != c
    ensures i < |s| ==> s[i] == c
  {
    if s == [] then 0
    else if s[0] == c then 0
    else 1 + IndexOf(s[1..], c)
  }

  /** strings.Cut with a one-character separator. */
  function Cut(s: string, c: char): Option<(string, string)> {
    var i := IndexOf(s, c);
    if i < |s| then Some((s[..i], s[i + 1..])) else None
  }

  /** strings.Split with a one-character separator: never empty. */
  function Split(s: string, c: char): (parts: seq<string>)
    ensures |parts| >= 1
  {
    if s == [] then [""]
    else
      var rest := Split(s[1..], c);
      if s[0] == c then [""] + rest else [[s[0]] + rest[0]] + rest[1..]
  }

  /** strings.Join with a one-character separator. */
  function Join(parts: seq<string>, c: char): string {
    if |parts| == 0 then ""
    else if |parts| == 1 then parts[0]
    else parts[0] + [c] + Join(parts[1..], c)
  }

  /** A text split at the first occurrence of a separator has only one decomposition. */
  lemma FirstSeparatorUnique(a: string, b: string, a': string, b': string, c: char)
    requires a + [c] + b == a' + [c] + b'
    requires c !in a && c !in a'
    ensures a == a' && b == b'
  {
    var s := a + [c] + b;
    assert s[|a|] == c && s[|a'|] == c;
    assert a' == s[..|a'|] && a == s[..|a|];
    assert |a| == |a'|;
    assert a == s[..|a|] && a' == s[..|a'|];
    assert b == s[|a| + 1..] && b' == s[|a'| + 1..];
  }

  /** A text split at the last occurrence of a separator has only one decomposition. */
  lemma LastSeparatorUnique(a: string, b: string, a': string, b': string, c: char)
    requires a + [c] + b == a' + [c] + b'
    requires c !in b && c !in b'
    ensures a == a' && b == b'
  {
    var s := a + [c] + b;
    assert s[|a|] == c && s[|a'|] == c;
    assert b == s[|a| + 1..] && b' == s[|a'| + 1..];
    assert |a| == |a'|;
    assert a == s[..|a|] && a' == s[..|a'|];
    assert b == s[|a| + 1..] && b' == s[|a'| + 1..];
  }

  lemma {:induction false} SplitSingle(p: string, c: char)
    requires c !in p
    ensures Split(p, c) == [p]
  {
    if p != [] {
      SplitSingle(p[1..], c);
      assert [p[0]] + p[1..] == p;
    }
  }

  /** Splitting distributes over any one separator of the text. */
  lemma {:induction false} SplitAt(s: string, i: nat, c: char)
    requires i < |s| && s[i] == c
    ensures Split(s, c) == Split(s[..i], c) + Split(s[i + 1..], c)
  {
    hide Split;
    if i == 0 {
      SplitFirst(s, c);
    } else {
      var front, back := s[..i], s[i + 1..];
      SplitAt(s[1..], i - 1, c);
      assert s[1..][i..] == back && s[1..][..i - 1] == front[1..] && front[0] == s[0];
      SplitStep(s, c);
      SplitStep(front, c);
      Regroup(s[0] == c, [s[0]], Split(front[1..], c), Split(back, c));
    }
  }

  /** What one more character in front does to the parts. */
  function Extend(separator: bool, head: string, parts: seq<string>): seq<string>
    requires |parts| >= 1
  {
    if separator then [""] + parts else [head + parts[0]] + parts[1..]
  }

  lemma SplitFirst(s: string, c: char)
    requires s != "" && s[0] == c
    ensures Split(s, c) == Split(s[..0], c) + Split(s[1..], c)
  {
  }

  lemma SplitStep(s: string, c: char)
    requires s != ""
    ensures Split(s, c) == Extend(s[0] == c, [s[0]], Split(s[1..], c))
  {
  }

  lemma Regroup(separator: bool, head: string, front: seq<string>, back: seq<string>)
    requires |front| >= 1
    ensures Extend(separator, head, front + back) == Extend(separator, head, front) + back
  {
  }

  /** Splitting undoes joining when no part holds the separator. */
  lemma {:induction false} SplitJoin(parts: seq<string>, c: char)
    requires |parts| >= 1
    requires forall p | p in parts :: c !in p
    ensures Split(Join(parts, c), c) == parts
  {
    SplitSingle(parts[0], c);
    if |parts| > 1 {
      var s, i := Join(parts, c), |parts[0]|;
      SplitAt(s, i, c);
      assert s[..i] == parts[0];
      assert s[i + 1..] == Join(parts[1..], c);
      SplitJoin(parts[1..], c);
    }
  }

  lemma {:induction false} JoinCons(c: char, parts: seq<string>, sep: char)
    requires |parts| >= 1
    ensures Join([[c] + parts[0]] + parts[1..], sep) == [c] + Join(parts, sep)
    ensures Join([""] + parts, sep) == [sep] + Join(parts, sep)
  {
  }

  /** Joining undoes splitting, and no part holds the separator. */
  lemma {:induction false} JoinSplit(s: string, c: char)
    ensures Join(Split(s, c), c) == s
    ensures forall p | p in Split(s, c) :: c !in p
  {
    if s != [] {
      JoinSplit(s[1..], c);
      JoinCons(s[0], Split(s[1..], c), c);
      assert [s[0]] + s[1..] == s;
    }
  }

  /** Joining in two stretches. */
  lemma {:induction false} JoinAppend(a: seq<string>, b: seq<string>, c: char)
    requires |a| >= 1 && |b| >= 1
    ensures Join(a + b, c) == Join(a, c) + [c] + Join(b, c)
  {
    if |a| == 1 {
      assert (a + b)[1..] == b;
    } else {
      JoinAppend(a[1..], b, c);
      assert (a + b)[1..] == a[1..] + b;
    }
  }
}
