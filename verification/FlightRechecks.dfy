/** What the recheck at the start of a flight is for: no flight builds what is cached by then. */
module FlightRechecks {
  import opened Wrappers
  import opened Oci
  import opened ArtifactCaches
  import opened CacheInvariants
  import opened Upstreams
  import opened Resolvers
  import opened Sessions
  import opened Transparency
  import opened Flights
  import opened FlightInvariants
  import opened FlightWork

  /** Of this chart, lookups by version end in failure or in what declares that version; of others nothing. */
  ghost function DeclaringLaws(repo: string, chart: string): Laws {
    Laws(
      (r: string, c: string, art: Artifact) => true,
      (r: string, c: string, version: string, outcome: Result<Artifact, Error>) =>
        r == repo && c == chart && outcome.Ok? ==> outcome.value.version == version,
      (q: Query, pc: Pc) => true)
  }

  lemma DeclaringReadsLawful(k: Setup, w: World, u: Site, repo: string, chart: string, t: nat, version: string)
    requires SteadyOrFailing(k, w, u, repo, chart) && VersionAgreement(k, u, repo, chart)
    ensures ReadsLawfully(k, w, DeclaringLaws(repo, chart), t, repo, chart, version)
  {
    hide Derive, Entries;
    if Entries(w(t), repo, chart).Ok? {
      var entry := FindVersion(Entries(u, repo, chart).value, version);
      assert entry.Some? ==> Lists(u, repo, chart, entry.value);
    }
  }

  lemma DeclaringLawsHold(k: Setup, w: World, u: Site, repo: string, chart: string)
    requires SteadyOrFailing(k, w, u, repo, chart) && VersionAgreement(k, u, repo, chart)
    ensures Lawful(k, w, DeclaringLaws(repo, chart))
  {
    hide SteadyOrFailing, VersionAgreement, Entries, Derive, NameOk;
    var l := DeclaringLaws(repo, chart);
    forall t: nat, r, c, version ensures ReadsLawfully(k, w, l, t, r, c, version) {
      if r == repo && c == chart {
        DeclaringReadsLawful(k, w, u, repo, chart, t, version);
      } else {
        OthersReadLawfully(k, w, repo, chart, t, r, c, version);
      }
    }
  }

  lemma OthersReadLawfully(k: Setup, w: World, repo: string, chart: string, t: nat, r: string, c: string,
                           version: string)
    requires r != repo || c != chart
    ensures ReadsLawfully(k, w, DeclaringLaws(repo, chart), t, r, c, version)
  {
    hide Derive, Entries, BuildAt, FindVersion;
  }

  /** The client leads a flight for this chart that has got past its recheck and stored nothing yet. */
  predicate Building(m: Machine, c: nat, repo: string, chart: string) {
    && c in m.clients && m.clients[c].query.repo == repo && m.clients[c].query.chart == chart
    && m.clients[c].pc.Leading?
    && (m.clients[c].pc.stage.ReadIndex? || m.clients[c].pc.stage.BuildEntry? || m.clients[c].pc.stage.Store?)
  }

  /** What it is to build is not cached. */
  ghost predicate Unwasted(m: Machine, repo: string, chart: string) {
    forall c | Building(m, c, repo, chart) :: VersionKey(repo, chart, m.clients[c].pc.version) !in m.cache.byID
  }

  /** A version key becomes present only by storing an artifact of that name that declares that version. */
  lemma StoredKey(max: int, c: Cache, repo: string, chart: string, art: Artifact, repo': string, chart': string,
                  version: string)
    requires NameOk(repo, chart) && NameOk(repo', chart')
    requires VersionKey(repo', chart', version) in Add(max, c, repo, chart, art).byID
    ensures VersionKey(repo', chart', version) in c.byID || (repo, chart, art.version) == (repo', chart', version)
  {
    hide VersionKey, Shrink;
    var e, key := NewEntry(repo, chart, art), VersionKey(repo', chart', version);
    if key !in c.byID && e.ids[0] !in c.byID {
      ShrinkNarrows(max, Push(c, e));
      assert key in e.ids;
      VersionKeyKind(repo', chart', version);
      assert Owned(e);
      OwnedKinds(e);
      VersionKeyInjective(repo, chart, art.version, repo', chart', version);
    }
  }

  /** Steps that store nothing make no key appear. */
  lemma KeysOnlyByStoring(k: Setup, w: World, m: Machine, c: nat)
    requires c in m.clients && !(m.clients[c].pc.Leading? && m.clients[c].pc.stage.Store?)
    ensures MoveStep(k, w, m, c).cache.byID == m.cache.byID
  {
    hide Resume, AfterEntries, AfterDigestLookup, Entries, FindVersion, BuildAt, VersionKey, DigestKey, MoveToFront;
  }

  /** A client gets past its recheck only where its version is not cached, and stays with its version until it is
      through. */
  lemma PastRecheck(k: Setup, w: World, m: Machine, c: nat, repo: string, chart: string)
    requires c in m.clients && !Building(m, c, repo, chart) && Building(MoveStep(k, w, m, c), c, repo, chart)
    ensures VersionKey(repo, chart, MoveStep(k, w, m, c).clients[c].pc.version) !in m.cache.byID
  {
    hide Entries, FindVersion, BuildAt, VersionKey, DigestKey, MoveToFront, Resume, AfterEntries, AfterDigestLookup;
    var q := m.clients[c].query;
    match m.clients[c].pc {
      case Begin =>
        NotLeadingAfterDigestLookup(q, None);
        if !q.VersionQuery? {
          NotLeadingAfterDigestLookup(q, Get(m.cache, DigestKey(q.repo, q.chart, q.digest)).1);
        }
      case NeedEntries(purpose) => NotLeadingAfterEntries(k, q, purpose, Entries(w(m.now), q.repo, q.chart));
      case Look(task, version) =>
        var hit := Get(m.cache, VersionKey(q.repo, q.chart, version)).1;
        if hit.Some? { NotLeadingAfterResume(k, q, task, Ok(hit.value)); }
      case Wait(task, _, f) =>
        if f in m.calls && m.calls[f].outcome.Some? { NotLeadingAfterResume(k, q, task, m.calls[f].outcome.value); }
      case Leading(task, _, _, stage) =>
        if stage.Settle? { NotLeadingAfterResume(k, q, task, stage.r); }
      case _ =>
    }
  }

  lemma StaysWithVersion(k: Setup, w: World, m: Machine, c: nat, repo: string, chart: string)
    requires Building(m, c, repo, chart) && Building(MoveStep(k, w, m, c), c, repo, chart)
    ensures MoveStep(k, w, m, c).clients[c].pc.version == m.clients[c].pc.version
  {
    hide Entries, FindVersion, BuildAt, VersionKey, MoveToFront, Add, Resume;
  }

  lemma ThroughOnceStored(k: Setup, w: World, m: Machine, c: nat, repo: string, chart: string)
    requires c in m.clients && m.clients[c].pc.Leading? && m.clients[c].pc.stage.Store?
    requires m.clients[c].pc.flight in m.calls
    ensures !Building(MoveStep(k, w, m, c), c, repo, chart)
  {
    hide Add;
  }

  lemma StoringCache(k: Setup, w: World, m: Machine, c: nat)
    requires c in m.clients && m.clients[c].pc.Leading? && m.clients[c].pc.stage.Store?
    requires m.clients[c].pc.flight in m.calls
    ensures var q := m.clients[c].query;
      MoveStep(k, w, m, c).cache == Add(k.opts.cacheBytes, m.cache, q.repo, q.chart, m.clients[c].pc.stage.art)
  {
    hide Add;
  }

  /** A store makes no other building leader's version appear: it would have to be of the same version. */
  lemma StoreSparesOthers(k: Setup, w: World, m: Machine, c: nat, d: nat, repo: string, chart: string)
    requires Invariant(k, w, DeclaringLaws(repo, chart), m) && Unwasted(m, repo, chart)
    requires c in m.clients && m.clients[c].pc.Leading? && m.clients[c].pc.stage.Store?
    requires Building(m, d, repo, chart) && d != c
    ensures VersionKey(repo, chart, m.clients[d].pc.version) !in MoveStep(k, w, m, c).cache.byID
  {
    hide Invariant, MoveStep, Add, VersionKey, NameOk;
    var l := DeclaringLaws(repo, chart);
    ClientOk(k, w, l, m, c);
    ClientOk(k, w, l, m, d);
    var (a, b) := (m.clients[c], m.clients[d]);
    StoringCache(k, w, m, c);
    if VersionKey(repo, chart, b.pc.version) in MoveStep(k, w, m, c).cache.byID {
      StoredKey(k.opts.cacheBytes, m.cache, a.query.repo, a.query.chart, a.pc.stage.art, repo, chart, b.pc.version);
      OneLeaderPerKey(k, w, l, m, c, d);
    }
  }

  lemma MoveUnwasted(k: Setup, w: World, m: Machine, c: nat, repo: string, chart: string)
    requires Invariant(k, w, DeclaringLaws(repo, chart), m) && Unwasted(m, repo, chart) && c in m.clients
    ensures Unwasted(MoveStep(k, w, m, c), repo, chart)
  {
    hide Invariant, MoveStep, VersionKey;
    var l := DeclaringLaws(repo, chart);
    var m' := MoveStep(k, w, m, c);
    ClientOk(k, w, l, m, c);
    MoveStepTouches(k, w, m, c);
    var storing := m.clients[c].pc.Leading? && m.clients[c].pc.stage.Store?;
    if storing {
      ThroughOnceStored(k, w, m, c, repo, chart);
    } else {
      KeysOnlyByStoring(k, w, m, c);
    }
    forall d | Building(m', d, repo, chart)
      ensures VersionKey(repo, chart, m'.clients[d].pc.version) !in m'.cache.byID
    {
      if d != c {
        assert m'.clients[d] == m.clients[d];
        if storing {
          StoreSparesOthers(k, w, m, c, d, repo, chart);
        }
      } else if Building(m, c, repo, chart) {
        StaysWithVersion(k, w, m, c, repo, chart);
      } else {
        PastRecheck(k, w, m, c, repo, chart);
      }
    }
  }

  /** Of a chart whose entries declare the versions they are listed under, however its upstream fails: in every
      interleaving, whatever a flight past its recheck is about to build or store is not cached at that moment. */
  lemma {:induction false} NothingCachedIsBuilt(k: Setup, w: World, u: Site, repo: string, chart: string,
                                                events: seq<Event>)
    requires SteadyOrFailing(k, w, u, repo, chart) && VersionAgreement(k, u, repo, chart)
    ensures Unwasted(Interleave(k, w, events), repo, chart)
    decreases events
  {
    hide MoveStep, Invariant, SteadyOrFailing, VersionAgreement, Lawful, NameOk;
    if events != [] {
      var earlier, e := events[..|events| - 1], events[|events| - 1];
      var m := Interleave(k, w, earlier);
      NothingCachedIsBuilt(k, w, u, repo, chart, earlier);
      DeclaringLawsHold(k, w, u, repo, chart);
      InvariantAlways(k, w, DeclaringLaws(repo, chart), earlier);
      if e.Move? && e.client in m.clients {
        MoveUnwasted(k, w, m, e.client, repo, chart);
      }
    }
  }
}
