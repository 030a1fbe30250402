/** The byte-bounded LRU of derived artifacts (cache.go), as values and as the class that updates them. */
module ArtifactCaches {
  import opened Wrappers
  import opened Oci

  /** What is cached: an artifact, its weight, and its keys, headed by the one for its version. */
  datatype CacheEntry = CacheEntry(art: Artifact, bytes: nat, ids: seq<string>)

  /** ll runs from most to least recently used. */
  datatype Cache = Cache(ll: seq<CacheEntry>, byID: map<string, CacheEntry>, size: int)

  const EMPTY := Cache([], map[], 0)

  function VersionKey(repo: string, chart: string, version: string): string {
    repo + "/" + chart + "@v:" + version
  }

  function DigestKey(repo: string, chart: string, digest: string): string {
    repo + "/" + chart + "@d:" + digest
  }

  function Weight(art: Artifact): nat {
    |art.chart| + |art.config| + |art.manifest| + (if art.prov.Some? then |art.prov.value| else 0)
  }

  /** The digests an artifact is asked for by. */
  function Digests(art: Artifact): seq<string> {
    [art.manifestDigest, art.configDigest, art.chartDigest] + (if art.prov.Some? then [art.provDigest] else [])
  }

  function DigestKeys(repo: string, chart: string, digests: seq<string>): (keys: seq<string>)
    ensures |keys| == |digests|
  {
    if digests == [] then [] else [DigestKey(repo, chart, digests[0])] + DigestKeys(repo, chart, digests[1..])
  }

  function NewEntry(repo: string, chart: string, art: Artifact): (e: CacheEntry)
    ensures |e.ids| > 0 && e.ids[0] == VersionKey(repo, chart, art.version)
  {
    CacheEntry(art, Weight(art), [VersionKey(repo, chart, art.version)] + DigestKeys(repo, chart, Digests(art)))
  }

  function Without(ll: seq<CacheEntry>, e: CacheEntry): seq<CacheEntry> {
    if ll == [] then []
    else if ll[0] == e then ll[1..]
    else [ll[0]] + Without(ll[1..], e)
  }

  function MoveToFront(ll: seq<CacheEntry>, e: CacheEntry): seq<CacheEntry> {
    [e] + Without(ll, e)
  }

  function Get(c: Cache, id: string): (Cache, Option<Artifact>) {
    if id in c.byID then
      (c.(ll := MoveToFront(c.ll, c.byID[id])), Some(c.byID[id].art))
    else (c, None)
  }

  ghost function Ids(e: CacheEntry): set<string> {
    set id | id in e.ids
  }

  ghost function Push(c: Cache, e: CacheEntry): Cache {
    Cache([e] + c.ll, c.byID + (map id | id in e.ids :: e), c.size + e.bytes)
  }

  ghost function EvictOldest(c: Cache): Cache
    requires c.ll != []
  {
    var last := c.ll[|c.ll| - 1];
    Cache(c.ll[..|c.ll| - 1], c.byID - Ids(last), c.size - last.bytes)
  }

  ghost function Shrink(max: int, c: Cache): Cache
    decreases |c.ll|
  {
    if c.size > max && |c.ll| > 1 then Shrink(max, EvictOldest(c)) else c
  }

  ghost function Add(max: int, c: Cache, repo: string, chart: string, art: Artifact): Cache {
    var e := NewEntry(repo, chart, art);
    if e.ids[0] in c.byID then c.(ll := MoveToFront(c.ll, c.byID[e.ids[0]]))
    else Shrink(max, Push(c, e))
  }

  /** The cache itself: three fields, updated in place under one lock. */
  class ArtifactCache {
    const max: int
    var size: int
    var ll: seq<CacheEntry>
    var byID: map<string, CacheEntry>

    constructor (maxBytes: int)
      ensures max == maxBytes && Model() == EMPTY
    {
      max, size, ll, byID := maxBytes, 0, [], map[];
    }

    ghost function Model(): Cache
      reads this
    {
      Cache(ll, byID, size)
    }

    method Lookup(id: string) returns (art: Option<Artifact>)
      modifies this
      ensures (Model(), art) == Get(old(Model()), id)
    {
      if id !in byID {
        return None;
      }
      ll := MoveToFront(ll, byID[id]);
      return Some(byID[id].art);
    }

    method Insert(repo: string, chart: string, art: Artifact)
      modifies this
      ensures Model() == Add(max, old(Model()), repo, chart, art)
    {
      var entry := NewEntry(repo, chart, art);
      if entry.ids[0] in byID {
        ll := MoveToFront(ll, byID[entry.ids[0]]);
        return;
      }
      PushFront(entry);
      while size > max && |ll| > 1
        invariant Shrink(max, Model()) == Add(max, old(Model()), repo, chart, art)
        decreases |ll|
      {
        RemoveOldest();
      }
    }

    /** The first half of an insertion: link the entry in and index it under every key it owns. */
    method PushFront(entry: CacheEntry)
      modifies this
      ensures Model() == Push(old(Model()), entry)
    {
      ll := [entry] + ll;
      for i := 0 to |entry.ids|
        invariant byID == old(byID) + (map id | id in entry.ids[..i] :: entry)
        invariant ll == [entry] + old(ll) && size == old(size)
      {
        assert entry.ids[..i + 1] == entry.ids[..i] + [entry.ids[i]];
        byID := byID[entry.ids[i] := entry];
      }
      assert entry.ids[..|entry.ids|] == entry.ids;
      size := size + entry.bytes;
    }

    method RemoveOldest()
      modifies this
      ensures Model() == if old(ll) == [] then old(Model()) else EvictOldest(old(Model()))
    {
      if ll == [] {
        return;
      }
      var entry := ll[|ll| - 1];
      ll := ll[..|ll| - 1];
      for i := 0 to |entry.ids|
        invariant byID == old(byID) - (set id | id in entry.ids[..i])
        invariant ll == old(ll)[..|old(ll)| - 1] && size == old(size)
      {
        byID := byID - {entry.ids[i]};
      }
      assert entry.ids[..|entry.ids|] == entry.ids;
      size := size - entry.bytes;
    }
  }
}
