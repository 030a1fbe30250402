/** Pull closure under any interleaving of clients. */
module FlightPulls {
  import opened Wrappers
  import opened Oci
  import opened CacheInvariants
  import opened Upstreams
  import opened Resolvers
  import opened Transparency
  import opened Replicas
  import opened Pulls
  import opened Flights
  import opened FlightAnswers

  /** Whatever manifest a version has, a client asking any replica for a blob it references gets, however its steps
      mingle with those of others and whatever other charts do, that blob in the stated size and under the stated
      digest. */
  lemma InterleavedReferencesPullable(k: Setup, w: World, u: Site, events: seq<Event>, c: nat, art: Artifact,
                                      entries: seq<IndexEntry>, i: nat, m: Manifest, d: Descriptor)
    requires CollisionFree(k.codec) && ManifestRoundTrips(k.codec)
    requires c in Interleave(k, w, events).clients && Interleave(k, w, events).clients[c].pc.Done?
    requires var q := Interleave(k, w, events).clients[c].query;
      && q.BlobQuery? && q.digest == d.digest
      && Steady(k, w, u, q.repo, q.chart) && ListedUnmistaken(k, u, q.repo, q.chart)
      && WithinScan(k, u, q.repo, q.chart, art, entries, i)
      && FastPathResolves(k, u, q.repo, q.chart, entries, d.digest)
    requires k.codec.parseManifest(art.manifest) == Some(m) && d in References(m)
    ensures var answer := Interleave(k, w, events).clients[c].pc.answer;
      && answer.Data? && answer.data.Ok?
      && |answer.data.value| == d.size && Digest(k.codec, answer.data.value) == d.digest
  {
    hide Interleave, Steady, ListedUnmistaken, ColdServeBlob, FastPathResolves, WithinScan;
    var q := Interleave(k, w, events).clients[c].query;
    InterleavedBytes(k, w, u, events, c);
    ReferenceServedCold(k, u, q.repo, q.chart, art, entries, i, m, d);
    ColdServeDigest(k, u, q.repo, q.chart, d.digest);
    SameDigestSameBytes(k.codec, ColdServeBlob(k, u, q.repo, q.chart, d.digest).value, art.Blob(d.digest).value.0);
  }
}
