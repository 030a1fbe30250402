/** The index cache: freshness, stale-if-error and capped eviction (upstream.go). */
module IndexCaches {
  import opened Wrappers
  import opened Oci
  import opened Upstreams

  /** ttl is positive, staleTtl non-negative; zero disables serving stale. */
  datatype Limits = Limits(ttl: int, staleTtl: int)

  datatype CachedIndex = CachedIndex(idx: Index, fetched: int)

  type IndexMap = map<string, CachedIndex>

  const MAX_INDEXES: nat := 128

  ghost predicate LimitsOk(l: Limits) {
    l.ttl > 0 && l.staleTtl >= 0
  }

  function MaxAge(l: Limits): int {
    if l.ttl >= l.staleTtl then l.ttl else l.staleTtl
  }

  predicate Fresh(l: Limits, e: CachedIndex, now: int) {
    now - e.fetched < l.ttl
  }

  /** Young enough to stand in for a failed re-fetch. */
  predicate StaleOk(l: Limits, e: CachedIndex, now: int) {
    l.staleTtl > 0 && now - e.fetched <= l.staleTtl
  }

  /** Past both windows: what the first eviction pass drops. */
  predicate Expired(l: Limits, e: CachedIndex, now: int) {
    now - e.fetched > MaxAge(l)
  }

  /** A 404 or a policy rejection is an answer, not an outage. */
  predicate Authoritative(e: Error) {
    e == NotFound || e == HostNotAllowed
  }

  function Survivors(l: Limits, cache: IndexMap, now: int): IndexMap {
    map repo | repo in cache && !Expired(l, cache[repo], now) :: cache[repo]
  }

  /** What a store keeps of the cache, when the second pass would meet victim first. */
  function Kept(l: Limits, cache: IndexMap, now: int, victim: string): IndexMap {
    if |cache| < MAX_INDEXES then cache
    else if |Survivors(l, cache, now)| < MAX_INDEXES then Survivors(l, cache, now)
    else Survivors(l, cache, now) - {victim}
  }

  /** A store at moment now, the new entry stamped at; victim is where map iteration happened to start. */
  function Stored(l: Limits, cache: IndexMap, repo: string, idx: Index, now: int, at: int, victim: string): IndexMap {
    Kept(l, cache, now, victim)[repo := CachedIndex(idx, at)]
  }

  ghost predicate VictimOk(l: Limits, cache: IndexMap, now: int, victim: string) {
    |Survivors(l, cache, now)| >= MAX_INDEXES ==> victim in Survivors(l, cache, now)
  }

  /** stale-if-error: the cached index, unless the failure is authoritative or the entry too old. */
  function StaleFor(l: Limits, entry: Option<CachedIndex>, e: Error, now: int): Result<Index, Error> {
    if l.staleTtl > 0 && !Authoritative(e) && entry.Some? && StaleOk(l, entry.value, now)
    then Ok(entry.value.idx) else Err(e)
  }

  function EntryFor(cache: IndexMap, repo: string): Option<CachedIndex> {
    if repo in cache then Some(cache[repo]) else None
  }

  class IndexClient {
    const limits: Limits
    var cache: IndexMap

    constructor (limits: Limits)
      ensures this.limits == limits && cache == map[]
    {
      this.limits := limits;
      cache := map[];
    }

    /** Both eviction loops run over the map in whatever order iteration takes. */
    method Store(repo: string, idx: Index, now: int, at: int) returns (ghost victim: string)
      requires |cache| <= MAX_INDEXES
      modifies this
      ensures VictimOk(limits, old(cache), now, victim)
      ensures cache == Stored(limits, old(cache), repo, idx, now, at, victim)
      ensures |cache| <= MAX_INDEXES
    {
      victim := "";
      if |cache| >= MAX_INDEXES {
        DropExpired(now);
        SurvivorsFew(limits, old(cache), now);
        victim := DropToCap();
      }
      SurvivorsFew(limits, old(cache), now);
      KeptFew(limits, old(cache), now, victim);
      cache := cache[repo := CachedIndex(idx, at)];
    }

    method DropExpired(now: int)
      modifies this
      ensures cache == Survivors(limits, old(cache), now)
    {
      var rest := cache.Keys;
      while rest != {}
        invariant rest <= cache.Keys <= old(cache).Keys
        invariant forall k | k in cache :: cache[k] == old(cache)[k]
        invariant forall k | k in old(cache) && k !in rest :: k in cache <==> !Expired(limits, old(cache)[k], now)
        decreases rest
      {
        var k :| k in rest;
        rest := rest - {k};
        if Expired(limits, cache[k], now) {
          cache := cache - {k};
        }
      }
    }

    /** Deletes in iteration order until the cache is under the cap. */
    method DropToCap() returns (ghost victim: string)
      requires |cache| <= MAX_INDEXES
      modifies this
      ensures |old(cache)| < MAX_INDEXES ==> cache == old(cache)
      ensures |old(cache)| >= MAX_INDEXES ==> victim in old(cache) && cache == old(cache) - {victim}
      ensures |cache| < MAX_INDEXES
    {
      victim := "";
      var rest := cache.Keys;
      while rest != {}
        invariant rest == cache.Keys || |cache| < MAX_INDEXES
        invariant |cache| >= MAX_INDEXES ==> cache == old(cache)
        invariant |cache| < MAX_INDEXES ==>
          if |old(cache)| < MAX_INDEXES then cache == old(cache)
          else victim in old(cache) && cache == old(cache) - {victim}
        decreases rest
      {
        if |cache| < MAX_INDEXES {
          break;
        }
        var k :| k in rest;
        rest := rest - {k};
        RemoveOne(cache, k);
        victim := k;
        cache := cache - {k};
      }
    }

    /** One call with nothing else running: the clock read at the freshness check, around the store
        and at the stale check, and the outcome a fetch would have. */
    method Index(repo: string, allowed: bool, outcome: Result<Index, Error>, checked: int, storing: int, stored: int,
                 failed: int)
      returns (r: Result<Index, Error>, ghost victim: string)
      requires |cache| <= MAX_INDEXES
      modifies this
      ensures |cache| <= MAX_INDEXES
      ensures !allowed ==> r == Err(HostNotAllowed) && cache == old(cache)
      ensures allowed && repo in old(cache) && checked - old(cache)[repo].fetched < limits.ttl ==>
        r == Ok(old(cache)[repo].idx) && cache == old(cache)
      ensures allowed && !(repo in old(cache) && checked - old(cache)[repo].fetched < limits.ttl) && outcome.Ok? ==>
        r == outcome && VictimOk(limits, old(cache), storing, victim)
        && cache == Stored(limits, old(cache), repo, outcome.value, storing, stored, victim)
      ensures allowed && !(repo in old(cache) && checked - old(cache)[repo].fetched < limits.ttl) && outcome.Err? ==>
        && cache == old(cache)
        && r == (if limits.staleTtl > 0 && outcome.error != NotFound && outcome.error != HostNotAllowed
                    && repo in old(cache) && failed - old(cache)[repo].fetched <= limits.staleTtl
                 then Ok(old(cache)[repo].idx) else outcome)
    {
      victim := "";
      if !allowed {
        return Err(HostNotAllowed), victim;
      }
      if repo in cache && Fresh(limits, cache[repo], checked) {
        return Ok(cache[repo].idx), victim;
      }
      if outcome.Ok? {
        victim := Store(repo, outcome.value, storing, stored);
        return outcome, victim;
      }
      return StaleFor(limits, EntryFor(cache, repo), outcome.error, failed), victim;
    }
  }

  lemma RemoveOne<V>(m: map<string, V>, k: string)
    requires k in m
    ensures |m - {k}| == |m| - 1
  {
  }

  lemma SurvivorsFew(l: Limits, cache: IndexMap, now: int)
    ensures |Survivors(l, cache, now)| <= |cache|
    ensures |Survivors(l, cache, now)| == |cache| ==> Survivors(l, cache, now) == cache
  {
    var s := Survivors(l, cache, now);
    FewerKeys(s.Keys, cache.Keys);
    assert |s.Keys| == |s| && |cache.Keys| == |cache|;
  }

  lemma FewerKeys(a: set<string>, b: set<string>)
    requires a <= b
    ensures |a| <= |b|
    ensures |a| == |b| ==> a == b
  {
    assert b == a + (b - a);
    assert |b| == |a| + |b - a|;
  }

  lemma KeptFew(l: Limits, cache: IndexMap, now: int, victim: string)
    requires |cache| <= MAX_INDEXES && VictimOk(l, cache, now, victim)
    ensures |Kept(l, cache, now, victim)| < MAX_INDEXES
  {
    SurvivorsFew(l, cache, now);
    if |Survivors(l, cache, now)| >= MAX_INDEXES {
      RemoveOne(Survivors(l, cache, now), victim);
    }
  }

  /** The index cache never outgrows its cap. */
  lemma StoreBounded(l: Limits, cache: IndexMap, repo: string, idx: Index, now: int, at: int, victim: string)
    requires |cache| <= MAX_INDEXES && VictimOk(l, cache, now, victim)
    ensures |Stored(l, cache, repo, idx, now, at, victim)| <= 128
  {
    var kept := Kept(l, cache, now, victim);
    KeptFew(l, cache, now, victim);
    assert Stored(l, cache, repo, idx, now, at, victim).Keys == kept.Keys + {repo};
    assert |kept.Keys + {repo}| <= |kept.Keys| + 1;
  }

  // What eviction may discard.

  /** Some request, now or later, could be answered from the entry. */
  ghost predicate Servable(l: Limits, e: CachedIndex, now: int) {
    exists later :: now <= later && ServedAt(l, e, later)
  }

  predicate ServedAt(l: Limits, e: CachedIndex, now: int) {
    Fresh(l, e, now) || StaleOk(l, e, now)
  }

  /** Servable entries are exactly those not expired, but for an entry aged exactly ttl when
      the stale window is the shorter one. */
  lemma ServableIffNotExpired(l: Limits, e: CachedIndex, now: int)
    requires LimitsOk(l)
    ensures Servable(l, e, now) <==> ServedAt(l, e, now)
    ensures Servable(l, e, now) <==> !Expired(l, e, now) && !(now - e.fetched == l.ttl && l.staleTtl < l.ttl)
  {
  }

  /** The repos whose entries the two eviction passes discard; the one being stored may be among them. */
  ghost function Discarded(l: Limits, cache: IndexMap, now: int, victim: string): set<string> {
    cache.Keys - Kept(l, cache, now, victim).Keys
  }

  /** A store below the cap discards nothing; at the cap, if some entry is expired it discards exactly the
      expired ones, none servable, and otherwise exactly one. */
  lemma DiscardsExactly(l: Limits, cache: IndexMap, now: int, victim: string)
    requires LimitsOk(l) && |cache| <= MAX_INDEXES && VictimOk(l, cache, now, victim)
    ensures |cache| < MAX_INDEXES ==> Discarded(l, cache, now, victim) == {}
    ensures |cache| == MAX_INDEXES && (exists k :: k in cache && Expired(l, cache[k], now)) ==>
      && Discarded(l, cache, now, victim) == (set k | k in cache && Expired(l, cache[k], now))
      && forall k | k in Discarded(l, cache, now, victim) :: !Servable(l, cache[k], now)
    ensures |cache| == MAX_INDEXES && (forall k | k in cache :: !Expired(l, cache[k], now)) ==>
      Discarded(l, cache, now, victim) == {victim} && victim in cache
  {
    SurvivorsFew(l, cache, now);
    if |cache| == MAX_INDEXES {
      if k :| k in cache && Expired(l, cache[k], now) {
        assert k !in Survivors(l, cache, now);
        forall k | k in cache && Expired(l, cache[k], now) ensures !Servable(l, cache[k], now) {
          ServableIffNotExpired(l, cache[k], now);
        }
      } else {
        assert Survivors(l, cache, now) == cache;
      }
    }
  }

  function Age(e: CachedIndex, now: int): int {
    now - e.fetched
  }

  /** After a store the repo has its new index, and every other repo that is not discarded the one it had. */
  lemma StoredExactly(l: Limits, cache: IndexMap, repo: string, idx: Index, now: int, at: int, victim: string,
                      r: string)
    ensures var after := Stored(l, cache, repo, idx, now, at, victim);
      && (r in after <==> r == repo || (r in cache && r !in Discarded(l, cache, now, victim)))
      && (r in after ==> after[r] == if r == repo then CachedIndex(idx, at) else cache[r])
  {
  }

  /** Whatever order iteration takes, a servable entry is discarded only alone, and only when every entry was
      servable. */
  ghost predicate SparesServable(l: Limits, cache: IndexMap, now: int) {
    forall victim, k |
      VictimOk(l, cache, now, victim) && k in Discarded(l, cache, now, victim) && Servable(l, cache[k], now) ::
      Discarded(l, cache, now, victim) == {k} && forall j | j in cache :: Servable(l, cache[j], now)
  }

  /** The stale window is the shorter one, and the cache is full of entries no older than the ttl,
      one of them exactly that old and another younger. */
  ghost predicate OnBoundary(l: Limits, cache: IndexMap, now: int) {
    && |cache| == MAX_INDEXES && l.staleTtl < l.ttl
    && (forall k | k in cache :: Age(cache[k], now) <= l.ttl)
    && (exists k :: k in cache && Age(cache[k], now) == l.ttl)
    && (exists k :: k in cache && Age(cache[k], now) < l.ttl)
  }

  /** Eviction spares the servable exactly when the store does not meet such a cache. */
  lemma SparesServableIff(l: Limits, cache: IndexMap, now: int)
    requires LimitsOk(l) && |cache| <= MAX_INDEXES
    ensures SparesServable(l, cache, now) <==> !OnBoundary(l, cache, now)
  {
    if OnBoundary(l, cache, now) {
      BoundaryDiscardsServable(l, cache, now);
    } else {
      forall victim, k |
        VictimOk(l, cache, now, victim) && k in Discarded(l, cache, now, victim) && Servable(l, cache[k], now)
        ensures Discarded(l, cache, now, victim) == {k} && forall j | j in cache :: Servable(l, cache[j], now)
      {
        ServableDiscardedAlone(l, cache, now, victim, k);
      }
    }
  }

  lemma ServableDiscardedAlone(l: Limits, cache: IndexMap, now: int, victim: string, k: string)
    requires LimitsOk(l) && |cache| <= MAX_INDEXES && VictimOk(l, cache, now, victim) && !OnBoundary(l, cache, now)
    requires k in Discarded(l, cache, now, victim) && Servable(l, cache[k], now)
    ensures Discarded(l, cache, now, victim) == {k} && forall j | j in cache :: Servable(l, cache[j], now)
  {
    hide Servable, Kept, Survivors, VictimOk;
    DiscardsExactly(l, cache, now, victim);
    forall j | j in cache
      ensures Servable(l, cache[j], now) <==>
        !Expired(l, cache[j], now) && !(Age(cache[j], now) == l.ttl && l.staleTtl < l.ttl)
    {
      ServableIffNotExpired(l, cache[j], now);
    }
  }

  /** On the boundary iteration may meet a servable entry first, while one that can serve nobody stays. */
  lemma BoundaryDiscardsServable(l: Limits, cache: IndexMap, now: int)
    requires LimitsOk(l) && OnBoundary(l, cache, now)
    ensures !SparesServable(l, cache, now)
  {
    hide Servable;
    var aged :| aged in cache && Age(cache[aged], now) == l.ttl;
    var young :| young in cache && Age(cache[young], now) < l.ttl;
    ServableIffNotExpired(l, cache[aged], now);
    ServableIffNotExpired(l, cache[young], now);
    assert Survivors(l, cache, now) == cache;
    assert VictimOk(l, cache, now, young) && young in Discarded(l, cache, now, young);
  }

  /** n repos of distinct names: the first aged exactly ttl, the others just fetched. */
  function Fleet(l: Limits, n: nat): IndexMap {
    if n == 0 then map[]
    else Fleet(l, n - 1)[Name(n - 1) := CachedIndex(Index(map[]), if n == 1 then 0 else l.ttl)]
  }

  function Name(i: nat): string {
    seq(i, _ => 'a')
  }

  lemma {:induction false} FleetShape(l: Limits, n: nat)
    ensures |Fleet(l, n)| == n
    ensures forall k | k in Fleet(l, n) :: |k| < n && Fleet(l, n)[k].fetched == if |k| == 0 then 0 else l.ttl
    ensures forall i: nat | i < n :: Name(i) in Fleet(l, n)
  {
    if n > 0 {
      FleetShape(l, n - 1);
      assert Name(n - 1) !in Fleet(l, n - 1) by { assert |Name(n - 1)| == n - 1; }
    }
  }

  /** An instance: at moment ttl a full cache holds an entry nothing can be served from, and the store may
      yet discard a fresh one instead. */
  lemma BoundaryDiscardsFresh(l: Limits)
    requires LimitsOk(l) && l.staleTtl < l.ttl
    ensures var cache, now, victim := Fleet(l, MAX_INDEXES), l.ttl, Name(1);
      && OnBoundary(l, cache, now) && !SparesServable(l, cache, now) && VictimOk(l, cache, now, victim)
      && Name(0) in cache && !Servable(l, cache[Name(0)], now)
      && victim in Discarded(l, cache, now, victim) && Servable(l, cache[victim], now)
      && Name(0) !in Discarded(l, cache, now, victim)
  {
    hide Servable;
    var cache, now, victim := Fleet(l, MAX_INDEXES), l.ttl, Name(1);
    FleetShape(l, MAX_INDEXES);
    assert |Name(0)| == 0 && |Name(1)| == 1;
    assert Age(cache[Name(0)], now) == l.ttl && Age(cache[Name(1)], now) == 0;
    ServableIffNotExpired(l, cache[Name(0)], now);
    ServableIffNotExpired(l, cache[victim], now);
    BoundaryDiscardsServable(l, cache, now);
    assert Survivors(l, cache, now) == cache;
  }
}
