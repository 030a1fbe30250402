/** Cosign signature artifacts as a pure function of key, reference and target digest (sign.go). */
module Signing {
  import opened Wrappers
  import opened Oci

  /** A deterministic key: the payload it signs for (reference, target), the encoded signature
      of a payload, and the fixed image config naming a payload digest. */
  datatype Signer = Signer(
    payload: (string, string) -> Bytes,
    sign: Bytes -> string,
    imageConfig: string -> Bytes)

  datatype Signature = Signature(
    manifest: Bytes, manifestDigest: string,
    payload: Bytes, payloadDigest: string,
    config: Bytes, configDigest: string)
  {
    function Blob(digest: string): Option<(Bytes, MediaType)> {
      if digest == payloadDigest then Some((payload, SignaturePayloadMedia))
      else if digest == configDigest then Some((config, ImageConfigMedia))
      else None
    }
  }

  function SignatureManifest(signer: Signer, payload: Bytes, payloadDigest: string, config: Bytes,
                             configDigest: string): Manifest {
    Manifest(
      Descriptor(ImageConfigMedia, configDigest, |config|, map[]),
      [Descriptor(SignaturePayloadMedia, payloadDigest, |payload|,
                  map["dev.cosignproject.cosign/signature" := signer.sign(payload)])],
      map[])
  }

  function SignatureFor(codec: Codec, signer: Signer, reference: string, target: string): Signature {
    var payload := signer.payload(reference, target);
    var payloadDigest := Digest(codec, payload);
    var config := signer.imageConfig(payloadDigest);
    var configDigest := Digest(codec, config);
    var manifest := codec.marshalManifest(SignatureManifest(signer, payload, payloadDigest, config, configDigest));
    Signature(manifest, Digest(codec, manifest), payload, payloadDigest, config, configDigest)
  }

  /** The manifest names one image config and one layer, the payload with its signature beside it. */
  ghost predicate Attests(signer: Signer, reference: string, target: string, s: Signature, m: Manifest) {
    && s.payload == signer.payload(reference, target)
    && m.config == Descriptor(ImageConfigMedia, s.configDigest, |s.config|, map[])
    && s.config == signer.imageConfig(s.payloadDigest)
    && |m.layers| == 1 && m.annotations == map[]
    && m.layers[0].mediaType == SignaturePayloadMedia
    && m.layers[0].digest == s.payloadDigest && m.layers[0].size == |s.payload|
    && m.layers[0].annotations == map["dev.cosignproject.cosign/signature" := signer.sign(s.payload)]
  }

  /** A signature attests the target under its reference: the signer's payload for the two, signed, under its own
      digests. */
  lemma SignatureAttests(codec: Codec, signer: Signer, reference: string, target: string) returns (m: Manifest)
    ensures var s := SignatureFor(codec, signer, reference, target);
      && s.manifest == codec.marshalManifest(m) && Attests(signer, reference, target, s, m)
      && s.manifestDigest == Digest(codec, s.manifest)
      && s.payloadDigest == Digest(codec, s.payload) && s.configDigest == Digest(codec, s.config)
  {
    var s := SignatureFor(codec, signer, reference, target);
    m := SignatureManifest(signer, s.payload, s.payloadDigest, s.config, s.configDigest);
  }

  lemma SignatureBlobHasDigest(codec: Codec, signer: Signer, reference: string, target: string, digest: string)
    requires SignatureFor(codec, signer, reference, target).Blob(digest).Some?
    ensures Digest(codec, SignatureFor(codec, signer, reference, target).Blob(digest).value.0) == digest
  {
  }

  /** Whatever a signature manifest references, the signature itself holds, with the stated size. */
  lemma SignatureReferencesHeld(codec: Codec, signer: Signer, reference: string, target: string, m: Manifest,
                                d: Descriptor)
    requires CollisionFree(codec) && ManifestRoundTrips(codec)
    requires codec.parseManifest(SignatureFor(codec, signer, reference, target).manifest) == Some(m)
        && d in References(m)
    ensures var s := SignatureFor(codec, signer, reference, target);
      s.Blob(d.digest).Some? && |s.Blob(d.digest).value.0| == d.size
  {
    var s := SignatureFor(codec, signer, reference, target);
    var m' := SignatureManifest(signer, s.payload, s.payloadDigest, s.config, s.configDigest);
    assert codec.parseManifest(codec.marshalManifest(m')) == Some(m');
    SignatureBlobHasDigest(codec, signer, reference, target, d.digest);
    SameDigestSameBytes(codec, s.Blob(d.digest).value.0, if d == m.config then s.config else s.payload);
  }
}
