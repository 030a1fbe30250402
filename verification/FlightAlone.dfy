/** A client with nobody else moving: the interleaved machine comes to what the resolver's own methods do. */
module FlightAlone {
  import opened Wrappers
  import opened Oci
  import opened ArtifactCaches
  import opened Upstreams
  import opened Signing
  import opened Resolvers
  import opened Flights

  ghost function Next(k: Setup, w: World, m: Machine, c: nat): Machine {
    EventStep(k, w, m, Move(c))
  }

  /** The machine after n steps of one client. */
  ghost function Moved(k: Setup, w: World, m: Machine, c: nat, n: nat): Machine {
    if n == 0 then m else Next(k, w, Moved(k, w, m, c, n - 1), c)
  }

  /** Steps of one client alone lead from the one machine to the other. */
  ghost predicate Gets(k: Setup, w: World, m: Machine, c: nat, m': Machine) {
    exists n: nat :: m' == Moved(k, w, m, c, n)
  }

  lemma NoMoves(k: Setup, w: World, m: Machine, c: nat)
    ensures Gets(k, w, m, c, m)
  {
    assert m == Moved(k, w, m, c, 0);
  }

  lemma OneMore(k: Setup, w: World, m: Machine, c: nat, m': Machine)
    requires Gets(k, w, m, c, m')
    ensures Gets(k, w, m, c, Next(k, w, m', c))
  {
    hide Next;
    var n: nat :| m' == Moved(k, w, m, c, n);
    assert Next(k, w, m', c) == Moved(k, w, m, c, n + 1);
  }

  /** No flight is in the air, and the client stands at pc, with the cache, the clock and its builds as in s. */
  ghost predicate Stands(m: Machine, c: nat, q: Query, pc: Pc, s: State) {
    && m.flights == map[] && c in m.clients && m.clients[c] == Client(q, pc)
    && s == State(m.cache, m.now, Builds(m, c))
  }

  /** Where a leader stands, its flight the only one. */
  ghost predicate Leads(m: Machine, c: nat, q: Query, task: Task, version: string, stage: Stage, s: State) {
    && c in m.clients && m.clients[c].query == q && m.clients[c].pc.Leading?
    && var f := m.clients[c].pc.flight;
    && m.clients[c].pc == Leading(task, version, f, stage)
    && f in m.calls && m.flights == map[VersionKey(q.repo, q.chart, version) := f]
    && s == State(m.cache, m.now, Builds(m, c))
  }

  lemma SettleAlone(k: Setup, w: World, m: Machine, c: nat, q: Query, task: Task, version: string,
                    r: Result<Artifact, Error>, s: State)
    requires Leads(m, c, q, task, version, Settle(r), s)
    ensures Stands(Next(k, w, m, c), c, q, Resume(k, q, task, r), s)
  {
    hide Resume, VersionKey;
  }

  lemma StoreAlone(k: Setup, w: World, m: Machine, c: nat, q: Query, task: Task, version: string, art: Artifact,
                   s: State)
    requires Leads(m, c, q, task, version, Store(art), s)
    ensures Leads(Next(k, w, m, c), c, q, task, version, Settle(Ok(art)),
                  s.(cache := Add(k.opts.cacheBytes, s.cache, q.repo, q.chart, art)))
  {
    hide Add, VersionKey;
  }

  lemma BuildAlone(k: Setup, w: World, m: Machine, c: nat, q: Query, task: Task, version: string, entry: IndexEntry,
                   s: State)
    requires Leads(m, c, q, task, version, BuildEntry(entry), s)
    ensures var r := Derive(k, w(s.now), w(s.now + 1), q.repo, entry);
      Leads(Next(k, w, m, c), c, q, task, version, if r.Ok? then Store(r.value) else Settle(r),
            s.(now := s.now + 2))
  {
    hide Derive, VersionKey;
  }

  lemma ReadAlone(k: Setup, w: World, m: Machine, c: nat, q: Query, task: Task, version: string, s: State)
    requires Leads(m, c, q, task, version, ReadIndex, s)
    ensures var m' := Next(k, w, m, c);
      if ReachesBuild(w, s.now, q.repo, q.chart, version) then
        Leads(m', c, q, task, version,
              BuildEntry(FindVersion(Entries(w(s.now), q.repo, q.chart).value, version).value),
              s.(now := s.now + 1, builds := s.builds + 1))
      else
        Leads(m', c, q, task, version, Settle(Uncached(k, w, s.now, q.repo, q.chart, version)), s.(now := s.now + 1))
  {
    hide Derive, VersionKey, Entries, FindVersion;
  }

  lemma JoinAlone(k: Setup, w: World, m: Machine, c: nat, q: Query, task: Task, version: string, s: State)
    requires Stands(m, c, q, Join(task, version), s)
    ensures Leads(Next(k, w, m, c), c, q, task, version, Recheck, s)
  {
    hide VersionKey;
  }

  lemma RecheckAlone(k: Setup, w: World, m: Machine, c: nat, q: Query, task: Task, version: string, s: State)
    requires Leads(m, c, q, task, version, Recheck, s) && VersionKey(q.repo, q.chart, version) !in s.cache.byID
    ensures Leads(Next(k, w, m, c), c, q, task, version, ReadIndex, s)
  {
    hide VersionKey;
  }

  lemma MissAlone(k: Setup, w: World, start: Machine, m: Machine, c: nat, q: Query, task: Task, version: string,
                  s: State)
    returns (m': Machine)
    requires Gets(k, w, start, c, m) && Leads(m, c, q, task, version, ReadIndex, s)
    requires VersionKey(q.repo, q.chart, version) !in s.cache.byID
    ensures Gets(k, w, start, c, m')
    ensures var (s', r) := FlightStep(k, w, s, q.repo, q.chart, version); Stands(m', c, q, Resume(k, q, task, r), s')
  {
    hide Next, Resume, Entries, FindVersion, Derive, Add, VersionKey, Gets, Stands;
    ReadAlone(k, w, m, c, q, task, version, s);
    OneMore(k, w, start, c, m);
    m' := Next(k, w, m, c);
    if ReachesBuild(w, s.now, q.repo, q.chart, version) {
      var entry := FindVersion(Entries(w(s.now), q.repo, q.chart).value, version).value;
      var s1 := s.(now := s.now + 1, builds := s.builds + 1);
      BuildAlone(k, w, m', c, q, task, version, entry, s1);
      OneMore(k, w, start, c, m');
      m' := Next(k, w, m', c);
      var r := Derive(k, w(s1.now), w(s1.now + 1), q.repo, entry);
      assert r == Uncached(k, w, s.now, q.repo, q.chart, version);
      var s2 := s1.(now := s1.now + 2);
      if r.Ok? {
        StoreAlone(k, w, m', c, q, task, version, r.value, s2);
        OneMore(k, w, start, c, m');
        m' := Next(k, w, m', c);
        s2 := s2.(cache := Add(k.opts.cacheBytes, s2.cache, q.repo, q.chart, r.value));
      }
      SettleAlone(k, w, m', c, q, task, version, r, s2);
    } else {
      SettleAlone(k, w, m', c, q, task, version, Uncached(k, w, s.now, q.repo, q.chart, version),
                  s.(now := s.now + 1));
    }
    OneMore(k, w, start, c, m');
    m' := Next(k, w, m', c);
  }

  lemma LookAlone(k: Setup, w: World, start: Machine, m: Machine, c: nat, q: Query, task: Task, version: string,
                  s: State)
    returns (m': Machine)
    requires Gets(k, w, start, c, m) && Stands(m, c, q, Look(task, version), s)
    ensures Gets(k, w, start, c, m')
    ensures var (s', r) := VersionStep(k, w, s, q.repo, q.chart, version); Stands(m', c, q, Resume(k, q, task, r), s')
  {
    hide Resume, FlightStep, VersionKey, Gets, Leads, MoveToFront, Next;
    PeekAlone(k, w, m, c, q, task, version, s);
    OneMore(k, w, start, c, m);
    m' := Next(k, w, m, c);
    if VersionKey(q.repo, q.chart, version) !in s.cache.byID {
      JoinAlone(k, w, m', c, q, task, version, s);
      OneMore(k, w, start, c, m');
      m' := Next(k, w, m', c);
      RecheckAlone(k, w, m', c, q, task, version, s);
      OneMore(k, w, start, c, m');
      m' := Next(k, w, m', c);
      m' := MissAlone(k, w, start, m', c, q, task, version, s);
    }
  }

  lemma PeekAlone(k: Setup, w: World, m: Machine, c: nat, q: Query, task: Task, version: string, s: State)
    requires Stands(m, c, q, Look(task, version), s)
    ensures var (cache, hit) := Get(s.cache, VersionKey(q.repo, q.chart, version));
      Stands(Next(k, w, m, c), c, q, if hit.Some? then Resume(k, q, task, Ok(hit.value)) else Join(task, version),
             s.(cache := cache))
  {
    hide VersionKey, Resume, MoveToFront;
  }

  // Scans.

  lemma ScanAlone(k: Setup, w: World, start: Machine, m: Machine, c: nat, q: Query, want: Want,
                  candidates: seq<IndexEntry>, s: State)
    returns (m': Machine)
    requires Gets(k, w, start, c, m) && Stands(m, c, q, Continue(k, q, want, candidates), s)
    ensures Gets(k, w, start, c, m')
    ensures var (s', found) := ScanStep(k, w, s, q.repo, q.chart, Wanted(k, q, want), candidates);
      Stands(m', c, q, Conclude(k, q, want, found), s')
    decreases candidates
  {
    hide VersionStep, Gets, Stands, Conclude, Wanted;
    m' := m;
    if candidates != [] {
      var task, version := Scanning(want, candidates), candidates[0].version;
      m' := LookAlone(k, w, start, m, c, q, task, version, s);
      var (s1, r) := VersionStep(k, w, s, q.repo, q.chart, version);
      if (r.Ok? && !Wanted(k, q, want)(r.value)) || (r.Err? && Skippable(r.error)) {
        m' := ScanAlone(k, w, start, m', c, q, want, candidates[1..], s1);
      }
    }
  }

  lemma ReadEntriesAlone(k: Setup, w: World, m: Machine, c: nat, q: Query, purpose: Purpose, s: State)
    requires Stands(m, c, q, NeedEntries(purpose), s)
    ensures Stands(Next(k, w, m, c), c, q, AfterEntries(k, q, purpose, Entries(w(s.now), q.repo, q.chart)),
                   s.(now := s.now + 1))
  {
    hide AfterEntries, Entries;
  }

  lemma ScanChartAlone(k: Setup, w: World, start: Machine, m: Machine, c: nat, q: Query, want: Want, s: State)
    returns (m': Machine)
    requires Gets(k, w, start, c, m) && Stands(m, c, q, NeedEntries(ForScan(want)), s)
    ensures Gets(k, w, start, c, m')
    ensures var (s', found) := ScanChartStep(k, w, s, q.repo, q.chart, Wanted(k, q, want));
      Stands(m', c, q, Conclude(k, q, want, found), s')
  {
    hide Gets, Stands, Conclude, Wanted, Next, ScanStep, Entries, Candidates, Continue;
    ReadEntriesAlone(k, w, m, c, q, ForScan(want), s);
    OneMore(k, w, start, c, m);
    m' := Next(k, w, m, c);
    var entries := Entries(w(s.now), q.repo, q.chart);
    if entries.Ok? {
      m' := ScanAlone(k, w, start, m', c, q, want, Candidates(k, entries.value), s.(now := s.now + 1));
    }
  }

  // Whole requests.

  lemma BeginAlone(k: Setup, w: World, m: Machine, c: nat, q: Query, s: State)
    requires Stands(m, c, q, Begin, s)
    ensures q.VersionQuery? ==> Stands(Next(k, w, m, c), c, q, Look(Whole, q.version), s)
    ensures !q.VersionQuery? ==>
      var (cache, hit) := Get(s.cache, DigestKey(q.repo, q.chart, q.digest));
      Stands(Next(k, w, m, c), c, q, AfterDigestLookup(q, hit), s.(cache := cache))
  {
    hide DigestKey, MoveToFront;
  }

  lemma SignatureAlone(k: Setup, w: World, start: Machine, m: Machine, c: nat, q: Query, r: Result<Bytes, Error>,
                       s: State)
    returns (m': Machine)
    requires q.BlobQuery? && Gets(k, w, start, c, m) && Stands(m, c, q, FinishBlob(k, r), s)
    ensures Gets(k, w, start, c, m')
    ensures var (s', r') := if r == Err(BlobUnknown) && k.opts.signer.Some?
                            then SignatureBlobStep(k, w, s, q.repo, q.chart, q.digest) else (s, r);
      Stands(m', c, q, Done(Data(r')), s')
  {
    hide Gets, Stands, ScanChartStep, SignatureFor;
    m' := m;
    if r == Err(BlobUnknown) && k.opts.signer.Some? {
      m' := ScanChartAlone(k, w, start, m, c, q, WantSignature, s);
    }
  }

  lemma BlobScanAlone(k: Setup, w: World, start: Machine, m: Machine, c: nat, q: Query, s: State)
    returns (m': Machine)
    requires q.BlobQuery? && Gets(k, w, start, c, m) && Stands(m, c, q, NeedEntries(ForScan(WantBlob)), s)
    ensures Gets(k, w, start, c, m')
    ensures var (s', r) := BlobScanStep(k, w, s, q.repo, q.chart, q.digest);
      Stands(m', c, q, FinishBlob(k, r), s')
  {
    hide Gets, Stands, ScanChartStep, FinishBlob;
    m' := ScanChartAlone(k, w, start, m, c, q, WantBlob, s);
  }

  lemma BlobMissAlone(k: Setup, w: World, start: Machine, m: Machine, c: nat, q: Query, s: State)
    returns (m': Machine, finished: bool)
    requires q.BlobQuery? && Gets(k, w, start, c, m) && Stands(m, c, q, NeedEntries(ForLayer), s)
    ensures Gets(k, w, start, c, m')
    ensures var (s', r) := BlobMissStep(k, w, s, q.repo, q.chart, q.digest);
      Stands(m', c, q, if finished then Done(Data(r)) else FinishBlob(k, r), s') && (finished ==> r.Ok?)
  {
    hide Gets, Stands, BlobScanStep, VersionStep, FinishBlob, Entries, FindLayerDigest, Next;
    ReadEntriesAlone(k, w, m, c, q, ForLayer, s);
    OneMore(k, w, start, c, m);
    m' := Next(k, w, m, c);
    finished := false;
    var s1 := s.(now := s.now + 1);
    var entries := Entries(w(s.now), q.repo, q.chart);
    if entries.Ok? {
      var entry := FindLayerDigest(entries.value, q.digest);
      if entry.None? {
        m' := BlobScanAlone(k, w, start, m', c, q, s1);
      } else {
        m' := LookAlone(k, w, start, m', c, q, FastPath, entry.value.version, s1);
        var (s2, r) := VersionStep(k, w, s1, q.repo, q.chart, entry.value.version);
        finished := r.Ok? && r.value.Blob(q.digest).Some?;
        if r.Ok? && !finished {
          m' := BlobScanAlone(k, w, start, m', c, q, s2);
        }
      }
    }
  }

  /** What the resolver's own methods make of the query, from the client's state. */
  ghost function Sequential(k: Setup, w: World, s: State, q: Query): (State, Answer) {
    match q
    case VersionQuery(repo, chart, version) =>
      var (s', r) := VersionStep(k, w, s, repo, chart, version); (s', Found(r))
    case ManifestQuery(repo, chart, digest) =>
      var (s', r) := ManifestStep(k, w, s, repo, chart, digest); (s', Found(r))
    case BlobQuery(repo, chart, digest) =>
      var (s', r) := ServeBlobStep(k, w, s, repo, chart, digest); (s', Data(r))
  }

  lemma ManifestAlone(k: Setup, w: World, start: Machine, m: Machine, c: nat, q: Query, s: State)
    returns (m': Machine)
    requires q.ManifestQuery? && Gets(k, w, start, c, m)
    requires var (cache, hit) := Get(s.cache, DigestKey(q.repo, q.chart, q.digest));
      Stands(m, c, q, AfterDigestLookup(q, hit), s.(cache := cache))
    ensures Gets(k, w, start, c, m')
    ensures var (s', r) := ManifestStep(k, w, s, q.repo, q.chart, q.digest); Stands(m', c, q, Done(Found(r)), s')
  {
    hide Gets, Stands, ScanChartStep, DigestKey;
    m' := m;
    var (cache, hit) := Get(s.cache, DigestKey(q.repo, q.chart, q.digest));
    if hit.None? || hit.value.manifestDigest != q.digest {
      m' := ScanChartAlone(k, w, start, m, c, q, WantManifest, s.(cache := cache));
    }
  }

  lemma BlobAlone(k: Setup, w: World, start: Machine, m: Machine, c: nat, q: Query, s: State) returns (m': Machine)
    requires q.BlobQuery? && Gets(k, w, start, c, m)
    requires var (cache, hit) := Get(s.cache, DigestKey(q.repo, q.chart, q.digest));
      Stands(m, c, q, AfterDigestLookup(q, hit), s.(cache := cache))
    ensures Gets(k, w, start, c, m')
    ensures var (s', r) := ServeBlobStep(k, w, s, q.repo, q.chart, q.digest); Stands(m', c, q, Done(Data(r)), s')
  {
    hide Gets, Stands, BlobMissStep, DigestKey, SignatureBlobStep, FinishBlob;
    m' := m;
    var (cache, hit) := Get(s.cache, DigestKey(q.repo, q.chart, q.digest));
    if hit.None? || hit.value.Blob(q.digest).None? {
      var finished;
      m', finished := BlobMissAlone(k, w, start, m, c, q, s.(cache := cache));
      if !finished {
        var (s1, r) := BlobMissStep(k, w, s.(cache := cache), q.repo, q.chart, q.digest);
        m' := SignatureAlone(k, w, start, m', c, q, r, s1);
      }
    }
  }

  /** From any machine with no flight in the air, steps of one newly arrived client alone lead to its answer, and the
      answer, the cache, the clock and the builds are what the sequential resolver makes of the same request. */
  lemma ClientAlone(k: Setup, w: World, m: Machine, c: nat, q: Query) returns (m': Machine)
    requires m.flights == map[] && c in m.clients && m.clients[c] == Client(q, Begin)
    ensures Gets(k, w, m, c, m') && c in m'.clients && m'.flights == map[]
    ensures (State(m'.cache, m'.now, Builds(m', c)), m'.clients[c].pc)
         == var (s', answer) := Sequential(k, w, State(m.cache, m.now, Builds(m, c)), q); (s', Done(answer))
  {
    hide Next, Gets, VersionStep, ManifestStep, ServeBlobStep, AfterDigestLookup, DigestKey;
    var s := State(m.cache, m.now, Builds(m, c));
    NoMoves(k, w, m, c);
    OneMore(k, w, m, c, m);
    BeginAlone(k, w, m, c, q, s);
    m' := Next(k, w, m, c);
    match q {
      case VersionQuery(_, _, version) => m' := LookAlone(k, w, m, m', c, q, Whole, version, s);
      case ManifestQuery(_, _, _) => m' := ManifestAlone(k, w, m, m', c, q, s);
      case BlobQuery(_, _, _) => m' := BlobAlone(k, w, m, m', c, q, s);
    }
  }
}
