/** Tags, versions, digests and signature tags: tags.go and how handler.go tells references apart. */
module Tagging {
  import opened Wrappers
  import opened Text

  function Replace(s: string, a: char, b: char): (r: string)
    ensures |r| == |s| && forall i | 0 <= i < |s| :: r[i] == if s[i] == a then b else s[i]
  {
    if s == [] then [] else [if s[0] == a then b else s[0]] + Replace(s[1..], a, b)
  }

  /** SemVer's '+' is no tag character; Helm writes '_' for it. */
  function VersionToTag(version: string): string {
    Replace(version, '+', '_')
  }

  function TagToVersion(tag: string): string {
    Replace(tag, '_', '+')
  }

  predicate IsAlnum(c: char) {
    'a' <= c <= 'z' || 'A' <= c <= 'Z' || '0' <= c <= '9'
  }

  /** The distribution specification's tag grammar. */
  predicate ValidTag(tag: string) {
    && 1 <= |tag| <= 128
    && (IsAlnum(tag[0]) || tag[0] == '_')
    && forall i | 1 <= i < |tag| :: IsAlnum(tag[i]) || tag[i] in "._-"
  }

  predicate IsHex(c: char) {
    'a' <= c <= 'f' || '0' <= c <= '9'
  }

  predicate AllHex(s: string) {
    forall i | 0 <= i < |s| :: IsHex(s[i])
  }

  predicate IsDigest(s: string) {
    HasPrefix(s, "sha256:") && |s| == 71 && AllHex(s[7..])
  }

  predicate HasSuffix(s: string, suffix: string) {
    |s| >= |suffix| && s[|s| - |suffix|..] == suffix
  }

  /** cosign's sha256-<hex>.sig names the digest sha256:<hex>. */
  function SigTagTarget(reference: string): Option<string> {
    if !HasPrefix(reference, "sha256-") then None
    else
      var rest := reference[7..];
      if !HasSuffix(rest, ".sig") then None
      else
        var digest := "sha256:" + rest[..|rest| - 4];
        if IsDigest(digest) then Some(digest) else None
  }

  /** What a manifest request asks for. */
  datatype Wanted =
    | SignatureOf(digest: string)
    | ManifestOf(digest: string)
    | VersionOf(version: string)
    | InvalidReference

  function Classify(reference: string): Wanted {
    var target := SigTagTarget(reference);
    if target.Some? then SignatureOf(target.value)
    else if IsDigest(reference) then ManifestOf(reference)
    else if ValidTag(reference) then VersionOf(TagToVersion(reference))
    else InvalidReference
  }

  // The grammars as patterns.

  /** [a-zA-Z0-9_][a-zA-Z0-9._-]{0,127} */
  lemma TagPattern(tag: string)
    ensures ValidTag(tag) <==>
      && tag != "" && |tag[1..]| <= 127
      && ('a' <= tag[0] <= 'z' || 'A' <= tag[0] <= 'Z' || '0' <= tag[0] <= '9' || tag[0] == '_')
      && forall c | c in tag[1..] ::
          'a' <= c <= 'z' || 'A' <= c <= 'Z' || '0' <= c <= '9' || c == '.' || c == '_' || c == '-'
  {
    if tag != "" {
      var rest := tag[1..];
      assert forall i | 1 <= i < |tag| :: tag[i] == rest[i - 1] && rest[i - 1] in rest;
      assert forall i | 0 <= i < |rest| :: rest[i] == tag[i + 1];
    }
  }

  /** sha256:[a-f0-9]{64} */
  lemma DigestPattern(s: string)
    ensures IsDigest(s) <==>
      exists hex: string ::
        s == "sha256:" + hex && |hex| == 64 && forall c | c in hex :: 'a' <= c <= 'f' || '0' <= c <= '9'
  {
    if IsDigest(s) {
      assert s == "sha256:" + s[7..] && forall c | c in s[7..] :: IsHex(c);
    }
    forall hex: string | s == "sha256:" + hex ensures s[7..] == hex {
    }
    assert |s| >= 7 ==> forall i | 0 <= i < |s| - 7 :: s[7..][i] in s[7..];
  }

  // Round trips.

  /** A version survives the trip through its tag exactly when it has no underscore. */
  lemma VersionRoundTrips(version: string)
    ensures TagToVersion(VersionToTag(version)) == version <==> '_' !in version
  {
  }

  /** A tag survives the trip through its version always: a valid tag holds no '+'. */
  lemma TagRoundTrips(tag: string)
    requires ValidTag(tag)
    ensures VersionToTag(TagToVersion(tag)) == tag
  {
  }

  /** Underscore-free versions have tags of their own. */
  lemma VersionToTagInjective(v: string, w: string)
    requires '_' !in v && '_' !in w && VersionToTag(v) == VersionToTag(w)
    ensures v == w
  {
  }

  /** cosign's tag for a digest. */
  function SigTag(digest: string): string
    requires IsDigest(digest)
  {
    "sha256-" + digest[7..] + ".sig"
  }

  ghost predicate SignatureShaped(s: string) {
    exists hex :: |hex| == 64 && AllHex(hex) && s == "sha256-" + hex + ".sig"
  }

  /** A reference asks for the signature of a digest exactly when it is that digest's signature tag. */
  lemma SignatureReference(reference: string, digest: string)
    ensures Classify(reference) == SignatureOf(digest) <==> IsDigest(digest) && reference == SigTag(digest)
  {
    if IsDigest(digest) && reference == SigTag(digest) {
      var rest := reference[7..];
      assert rest == digest[7..] + ".sig";
      assert rest[..|rest| - 4] == digest[7..];
      assert digest == "sha256:" + digest[7..];
    }
    if Classify(reference) == SignatureOf(digest) {
      var rest := reference[7..];
      var hex := rest[..|rest| - 4];
      assert digest == "sha256:" + hex && digest[7..] == hex;
      assert rest == hex + ".sig";
      assert reference == "sha256-" + rest;
    }
  }

  lemma SignatureShapedIff(reference: string)
    ensures Classify(reference).SignatureOf? <==> SignatureShaped(reference)
  {
  }

  /** A digest is always taken for that digest, never for a tag or a signature. */
  lemma DigestReference(digest: string)
    requires IsDigest(digest)
    ensures Classify(digest) == ManifestOf(digest) && !ValidTag(digest)
  {
    assert digest[6] == ':' && "sha256-"[6] == '-';
  }

  /** The tag listed for a version leads back to that very version exactly when the version has
      no underscore and does not look like a signature tag. */
  lemma ListedTagReference(version: string)
    requires ValidTag(VersionToTag(version))
    ensures Classify(VersionToTag(version)) == VersionOf(version) <==> '_' !in version && !SignatureShaped(version)
    ensures Classify(VersionToTag(version)) != InvalidReference && !Classify(VersionToTag(version)).ManifestOf?
  {
    var tag := VersionToTag(version);
    VersionRoundTrips(version);
    SignatureShapedIff(tag);
    if IsDigest(tag) {
      DigestReference(tag);
    }
    if '_' !in version {
      SignatureShapeKept(version);
    }
  }

  lemma SignatureShapeKept(version: string)
    requires '_' !in version
    ensures SignatureShaped(VersionToTag(version)) <==> SignatureShaped(version)
  {
  }

  /** What items 2, 9 and 10 of SemVer 2.0.0 leave a version: a digit first, perhaps after the v that charts are often
      released with, then only letters, digits, dots, hyphens and plus signs. */
  predicate SemVerText(version: string) {
    var plain := TrimPrefix(version, "v");
    && plain != "" && '0' <= plain[0] <= '9'
    && forall i | 0 <= i < |plain| ::
        'a' <= plain[i] <= 'z' || 'A' <= plain[i] <= 'Z' || '0' <= plain[i] <= '9' || plain[i] in ".-+"
  }

  /** Every SemVer version short enough has a valid tag, and the tag leads back to it. */
  lemma SemVerReference(version: string)
    requires SemVerText(version)
    ensures ValidTag(VersionToTag(version)) <==> |version| <= 128
    ensures |version| <= 128 ==> Classify(VersionToTag(version)) == VersionOf(version)
  {
    hide Classify, SignatureShaped, VersionToTag;
    SemVerCharacters(version);
    SemVerTag(version);
    if |version| <= 128 {
      ListedTagReference(version);
    }
  }

  lemma SemVerCharacters(version: string)
    requires SemVerText(version)
    ensures version != "" && IsAlnum(version[0]) && version[0] != 's'
    ensures forall i | 0 <= i < |version| :: IsAlnum(version[i]) || version[i] in ".-+"
    ensures '_' !in version && !SignatureShaped(version)
  {
    if HasPrefix(version, "v") {
      assert version[0] == 'v' && forall i | 1 <= i < |version| :: version[i] == version[1..][i - 1];
    }
  }

  lemma SemVerTag(version: string)
    requires version != "" && IsAlnum(version[0])
    requires forall i | 0 <= i < |version| :: IsAlnum(version[i]) || version[i] in ".-+"
    ensures ValidTag(VersionToTag(version)) <==> |version| <= 128
  {
  }
}
