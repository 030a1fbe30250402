/** One invariant for every interleaving, for whatever laws the outcomes and answers obey. */
module FlightInvariants {
  import opened Wrappers
  import opened Oci
  import opened ArtifactCaches
  import opened CacheInvariants
  import opened Upstreams
  import opened Resolvers
  import opened Sessions
  import opened Flights

  /** Claims about built artifacts, about outcomes of version lookups, and about what a client may still do or
      answer. */
  datatype Laws = Laws(
    built: Claim,
    outcome: (string, string, string, Result<Artifact, Error>) -> bool,
    local: (Query, Pc) -> bool)

  ghost predicate Named(q: Query) {
    NameOk(q.repo, q.chart)
  }

  /** Every build of this entry, whenever it happens, is a lawful outcome. */
  ghost predicate BuildsLawfully(k: Setup, w: World, l: Laws, repo: string, chart: string, version: string,
                                 entry: IndexEntry) {
    forall t: nat :: l.outcome(repo, chart, version, BuildAt(k, w, t, repo, entry))
  }

  /** Reading the index at moment t leads only to lawful outcomes. */
  ghost predicate ReadsLawfully(k: Setup, w: World, l: Laws, t: nat, repo: string, chart: string, version: string) {
    match Entries(w(t), repo, chart)
    case Err(e) => l.outcome(repo, chart, version, Err(e))
    case Ok(entries) =>
      match FindVersion(entries, version)
      case None => l.outcome(repo, chart, version, Err(VersionUnknown))
      case Some(entry) => BuildsLawfully(k, w, l, repo, chart, version, entry)
  }

  ghost predicate OutcomesLawful(k: Setup, w: World, l: Laws) {
    && (forall repo, chart, art | l.built(repo, chart, art) :: l.outcome(repo, chart, art.version, Ok(art)))
    && (forall repo, chart, version, art | NameOk(repo, chart) && l.outcome(repo, chart, version, Ok(art)) ::
          l.built(repo, chart, art))
    && (forall t: nat, repo, chart, version | NameOk(repo, chart) :: ReadsLawfully(k, w, l, t, repo, chart, version))
  }

  /** The client-side claim survives each thing a client can learn. */
  ghost predicate LocalsLawful(k: Setup, w: World, l: Laws) {
    && (forall q | Named(q) :: l.local(q, Begin))
    && (forall q: Query, hit: Option<Artifact> | Named(q) && (hit.Some? ==> l.built(q.repo, q.chart, hit.value)) ::
          l.local(q, AfterDigestLookup(q, hit)))
    && (forall q: Query, purpose, t: nat | Named(q) && l.local(q, NeedEntries(purpose)) ::
          l.local(q, AfterEntries(k, q, purpose, Entries(w(t), q.repo, q.chart))))
    && (forall q: Query, task, version, r |
          Named(q) && l.local(q, Look(task, version)) && l.outcome(q.repo, q.chart, version, r) ::
          l.local(q, Resume(k, q, task, r)))
  }

  ghost predicate Lawful(k: Setup, w: World, l: Laws) {
    OutcomesLawful(k, w, l) && LocalsLawful(k, w, l)
  }

  /** A client inside a version lookup stands where it stood when the lookup began. */
  function LookOf(pc: Pc): Pc {
    match pc
    case Join(task, version) => Look(task, version)
    case Wait(task, version, _) => Look(task, version)
    case Leading(task, version, _, _) => Look(task, version)
    case _ => pc
  }

  ghost predicate StageOk(k: Setup, w: World, l: Laws, q: Query, version: string, stage: Stage) {
    match stage
    case Recheck => true
    case ReadIndex => true
    case BuildEntry(entry) => BuildsLawfully(k, w, l, q.repo, q.chart, version, entry)
    case Store(art) => l.outcome(q.repo, q.chart, version, Ok(art))
    case Settle(r) => l.outcome(q.repo, q.chart, version, r)
  }

  ghost predicate CallFor(m: Machine, f: nat, q: Query, version: string) {
    f in m.calls && m.calls[f].repo == q.repo && m.calls[f].chart == q.chart && m.calls[f].version == version
  }

  ghost predicate PcOk(k: Setup, w: World, l: Laws, m: Machine, c: nat, q: Query, pc: Pc) {
    && Named(q)
    && l.local(q, LookOf(pc))
    && (pc.Wait? ==> CallFor(m, pc.flight, q, pc.version))
    && (pc.Leading? ==>
          && CallFor(m, pc.flight, q, pc.version)
          && m.calls[pc.flight].leader == c && m.calls[pc.flight].outcome.None?
          && StageOk(k, w, l, q, pc.version, pc.stage))
  }

  function CallKey(call: Call): string {
    VersionKey(call.repo, call.chart, call.version)
  }

  ghost predicate Led(m: Machine, f: nat) {
    f in m.calls && m.calls[f].leader in m.clients
    && m.clients[m.calls[f].leader].pc.Leading? && m.clients[m.calls[f].leader].pc.flight == f
  }

  ghost predicate CallOk(l: Laws, m: Machine, f: nat)
    requires f in m.calls
  {
    var call := m.calls[f];
    && f < m.nextCall && NameOk(call.repo, call.chart)
    && match call.outcome
       case Some(r) => l.outcome(call.repo, call.chart, call.version, r)
       case None => CallKey(call) in m.flights && m.flights[CallKey(call)] == f && Led(m, f)
  }

  ghost predicate FlightOk(m: Machine, key: string)
    requires key in m.flights
  {
    var f := m.flights[key];
    f in m.calls && m.calls[f].outcome.None? && CallKey(m.calls[f]) == key
  }

  ghost predicate Invariant(k: Setup, w: World, l: Laws, m: Machine) {
    && Vouched(k, l.built, m.cache)
    && (forall c | c in m.clients :: PcOk(k, w, l, m, c, m.clients[c].query, m.clients[c].pc))
    && (forall f | f in m.calls :: CallOk(l, m, f))
    && (forall key | key in m.flights :: FlightOk(m, key))
  }

  /** Two leaders of the same chart version are one: at most one build per key is ever in flight. */
  lemma OneLeaderPerKey(k: Setup, w: World, l: Laws, m: Machine, c: nat, c': nat)
    requires Invariant(k, w, l, m) && c in m.clients && c' in m.clients
    requires var (a, b) := (m.clients[c], m.clients[c']);
      && a.pc.Leading? && b.pc.Leading? && a.pc.version == b.pc.version
      && a.query.repo == b.query.repo && a.query.chart == b.query.chart
    ensures c == c'
  {
  }

  /** A waiter's flight has landed, or its leader is at work: nobody waits in vain. */
  lemma WaitersAreServed(k: Setup, w: World, l: Laws, m: Machine, c: nat)
    requires Invariant(k, w, l, m) && c in m.clients && m.clients[c].pc.Wait?
    ensures var f := m.clients[c].pc.flight; f in m.calls && (m.calls[f].outcome.Some? || Led(m, f))
  {
  }

  lemma ClientOk(k: Setup, w: World, l: Laws, m: Machine, c: nat)
    requires Invariant(k, w, l, m) && c in m.clients
    ensures PcOk(k, w, l, m, c, m.clients[c].query, m.clients[c].pc)
  {
  }

  // Each step keeps the invariant.

  lemma SameCacheClaims(k: Setup, w: World, l: Laws, m: Machine, cache: Cache)
    requires Invariant(k, w, l, m) && Vouched(k, l.built, cache)
    ensures Invariant(k, w, l, m.(cache := cache))
  {
    hide VersionKey, Vouched, NameOk;
    var m' := m.(cache := cache);
    forall c | c in m'.clients ensures PcOk(k, w, l, m', c, m'.clients[c].query, m'.clients[c].pc) {
      assert PcOk(k, w, l, m, c, m.clients[c].query, m.clients[c].pc);
    }
    forall f | f in m'.calls ensures CallOk(l, m', f) { assert CallOk(l, m, f); }
    forall key | key in m'.flights ensures FlightOk(m', key) { assert FlightOk(m, key); }
  }

  lemma SameClock(k: Setup, w: World, l: Laws, m: Machine, now: nat)
    requires Invariant(k, w, l, m)
    ensures Invariant(k, w, l, m.(now := now))
  {
  }

  lemma SameCount(k: Setup, w: World, l: Laws, m: Machine, c: nat, stage: Stage)
    requires Invariant(k, w, l, m)
    ensures Invariant(k, w, l, Counted(m, c, stage))
  {
  }

  /** A client that leads no flight moves to a control point where it leads none,
      or one that leads a flight stays its leader. */
  lemma PcMoves(k: Setup, w: World, l: Laws, m: Machine, c: nat, pc: Pc)
    requires Invariant(k, w, l, m) && c in m.clients
    requires PcOk(k, w, l, m, c, m.clients[c].query, pc)
    requires pc.Leading? <==> m.clients[c].pc.Leading?
    requires pc.Leading? ==> pc.flight == m.clients[c].pc.flight
    ensures Invariant(k, w, l, AtPc(m, c, pc))
  {
    hide VersionKey, Vouched, NameOk;
    var m' := AtPc(m, c, pc);
    forall d | d in m'.clients ensures PcOk(k, w, l, m', d, m'.clients[d].query, m'.clients[d].pc) {
      assert PcOk(k, w, l, m, d, m.clients[d].query, m.clients[d].pc);
    }
    forall f | f in m'.calls ensures CallOk(l, m', f) { assert CallOk(l, m, f); }
    forall key | key in m'.flights ensures FlightOk(m', key) { assert FlightOk(m, key); }
  }

  lemma BeginKeeps(k: Setup, w: World, l: Laws, m: Machine, c: nat)
    requires Lawful(k, w, l) && Invariant(k, w, l, m) && c in m.clients && m.clients[c].pc.Begin?
    ensures Invariant(k, w, l, BeginStep(k, m, c))
  {
    hide VersionKey, DigestKey, Vouched, NameOk, Get, OutcomesLawful, AfterDigestLookup;
    var q := m.clients[c].query;
    assert PcOk(k, w, l, m, c, q, Begin);
    if q.VersionQuery? {
      NotLeadingAfterDigestLookup(q, None);
      PcMoves(k, w, l, m, c, AfterDigestLookup(q, None));
    } else {
      var (cache, hit) := Get(m.cache, DigestKey(q.repo, q.chart, q.digest));
      GetDigestSound(k, l.built, m.cache, q.repo, q.chart, q.digest);
      SameCacheClaims(k, w, l, m, cache);
      NotLeadingAfterDigestLookup(q, hit);
      PcMoves(k, w, l, m.(cache := cache), c, AfterDigestLookup(q, hit));
    }
  }

  lemma NotLeadingAfterDigestLookup(q: Query, hit: Option<Artifact>)
    ensures LookOf(AfterDigestLookup(q, hit)) == AfterDigestLookup(q, hit)
    ensures !AfterDigestLookup(q, hit).Leading? && !AfterDigestLookup(q, hit).Wait?
  {
  }

  lemma NotLeadingAfterResume(k: Setup, q: Query, task: Task, r: Result<Artifact, Error>)
    ensures LookOf(Resume(k, q, task, r)) == Resume(k, q, task, r)
    ensures !Resume(k, q, task, r).Leading? && !Resume(k, q, task, r).Wait?
  {
  }

  lemma NotLeadingAfterEntries(k: Setup, q: Query, purpose: Purpose, r: Result<seq<IndexEntry>, Error>)
    ensures LookOf(AfterEntries(k, q, purpose, r)) == AfterEntries(k, q, purpose, r)
    ensures !AfterEntries(k, q, purpose, r).Leading? && !AfterEntries(k, q, purpose, r).Wait?
  {
  }

  /** A client outside any flight resumes after a lawful outcome. */
  lemma ResumeKeeps(k: Setup, w: World, l: Laws, m: Machine, c: nat, task: Task, version: string,
                    r: Result<Artifact, Error>)
    requires Lawful(k, w, l) && Invariant(k, w, l, m) && c in m.clients
    requires !m.clients[c].pc.Leading? && LookOf(m.clients[c].pc) == Look(task, version)
    requires l.outcome(m.clients[c].query.repo, m.clients[c].query.chart, version, r)
    ensures Invariant(k, w, l, AtPc(m, c, Resume(k, m.clients[c].query, task, r)))
  {
    hide VersionKey, Vouched, NameOk, OutcomesLawful, Resume, AfterEntries, AfterDigestLookup;
    var q := m.clients[c].query;
    assert PcOk(k, w, l, m, c, q, m.clients[c].pc);
    NotLeadingAfterResume(k, q, task, r);
    PcMoves(k, w, l, m, c, Resume(k, q, task, r));
  }

  lemma GetVersionSound(k: Setup, w: World, l: Laws, m: Machine, q: Query, version: string)
    requires Lawful(k, w, l) && Invariant(k, w, l, m) && Named(q)
    ensures var (cache, hit) := Get(m.cache, VersionKey(q.repo, q.chart, version));
      && Invariant(k, w, l, m.(cache := cache))
      && (hit.Some? ==> l.outcome(q.repo, q.chart, version, Ok(hit.value)))
  {
    hide LocalsLawful, Vouched, NameOk;
    var key := VersionKey(q.repo, q.chart, version);
    GetVouched(k, l.built, m.cache, key);
    SameCacheClaims(k, w, l, m, Get(m.cache, key).0);
    if key in m.cache.byID {
      VersionHit(k, l.built, m.cache, q.repo, q.chart, version);
    }
  }

  lemma LookKeeps(k: Setup, w: World, l: Laws, m: Machine, c: nat, task: Task, version: string)
    requires Lawful(k, w, l) && Invariant(k, w, l, m) && c in m.clients && m.clients[c].pc == Look(task, version)
    ensures Invariant(k, w, l, LookStep(k, m, c, task, version))
  {
    hide VersionKey, Vouched, NameOk, Lawful, Get, Resume;
    var q := m.clients[c].query;
    assert PcOk(k, w, l, m, c, q, Look(task, version));
    var (cache, hit) := Get(m.cache, VersionKey(q.repo, q.chart, version));
    GetVersionSound(k, w, l, m, q, version);
    if hit.Some? {
      ResumeKeeps(k, w, l, m.(cache := cache), c, task, version, Ok(hit.value));
    } else {
      PcMoves(k, w, l, m.(cache := cache), c, Join(task, version));
    }
  }

  lemma JoinKeeps(k: Setup, w: World, l: Laws, m: Machine, c: nat, task: Task, version: string)
    requires Invariant(k, w, l, m) && c in m.clients && m.clients[c].pc == Join(task, version)
    ensures Invariant(k, w, l, JoinStep(m, c, task, version))
  {
    var q := m.clients[c].query;
    assert PcOk(k, w, l, m, c, q, Join(task, version));
    var key := VersionKey(q.repo, q.chart, version);
    if key in m.flights {
      var f := m.flights[key];
      assert FlightOk(m, key) && CallOk(l, m, f);
      VersionKeyInjective(q.repo, q.chart, version, m.calls[f].repo, m.calls[f].chart, m.calls[f].version);
      hide VersionKey, Vouched, NameOk;
      PcMoves(k, w, l, m, c, Wait(task, version, f));
    } else {
      hide VersionKey, Vouched, NameOk;
      TakeOffKeeps(k, w, l, m, c, task, version);
    }
  }

  /** The client takes off as the leader of a new flight. */
  ghost predicate TakingOff(k: Setup, w: World, l: Laws, m: Machine, c: nat, task: Task, version: string) {
    && Invariant(k, w, l, m) && c in m.clients && m.clients[c].pc == Join(task, version)
    && VersionKey(m.clients[c].query.repo, m.clients[c].query.chart, version) !in m.flights
  }

  lemma TakeOffFresh(k: Setup, w: World, l: Laws, m: Machine)
    requires Invariant(k, w, l, m)
    ensures m.nextCall !in m.calls
  {
    hide Vouched, PcOk, FlightOk;
    assert m.nextCall in m.calls ==> CallOk(l, m, m.nextCall);
  }

  lemma TakeOffClient(k: Setup, w: World, l: Laws, m: Machine, c: nat, task: Task, version: string, d: nat)
    requires TakingOff(k, w, l, m, c, task, version) && d in m.clients
    ensures var m' := JoinStep(m, c, task, version);
      d in m'.clients && PcOk(k, w, l, m', d, m'.clients[d].query, m'.clients[d].pc)
  {
    hide VersionKey, Vouched, NameOk, CallOk, FlightOk;
    TakeOffFresh(k, w, l, m);
    assert PcOk(k, w, l, m, d, m.clients[d].query, m.clients[d].pc);
  }

  lemma TakeOffCall(k: Setup, w: World, l: Laws, m: Machine, c: nat, task: Task, version: string, f: nat)
    requires TakingOff(k, w, l, m, c, task, version) && f in JoinStep(m, c, task, version).calls
    ensures CallOk(l, JoinStep(m, c, task, version), f)
  {
    hide VersionKey, Vouched, NameOk, FlightOk;
    TakeOffFresh(k, w, l, m);
    assert PcOk(k, w, l, m, c, m.clients[c].query, m.clients[c].pc);
    assert f in m.calls ==> CallOk(l, m, f);
  }

  lemma TakeOffFlight(k: Setup, w: World, l: Laws, m: Machine, c: nat, task: Task, version: string, key: string)
    requires TakingOff(k, w, l, m, c, task, version) && key in JoinStep(m, c, task, version).flights
    ensures FlightOk(JoinStep(m, c, task, version), key)
  {
    hide VersionKey, Vouched, NameOk, PcOk, CallOk;
    TakeOffFresh(k, w, l, m);
    assert key in m.flights ==> FlightOk(m, key);
  }

  lemma TakeOffKeeps(k: Setup, w: World, l: Laws, m: Machine, c: nat, task: Task, version: string)
    requires TakingOff(k, w, l, m, c, task, version)
    ensures Invariant(k, w, l, JoinStep(m, c, task, version))
  {
    hide VersionKey, Vouched, NameOk, PcOk, CallOk, FlightOk;
    var m' := JoinStep(m, c, task, version);
    forall d | d in m'.clients ensures PcOk(k, w, l, m', d, m'.clients[d].query, m'.clients[d].pc) {
      TakeOffClient(k, w, l, m, c, task, version, d);
    }
    forall f | f in m'.calls ensures CallOk(l, m', f) {
      TakeOffCall(k, w, l, m, c, task, version, f);
    }
    forall key | key in m'.flights ensures FlightOk(m', key) {
      TakeOffFlight(k, w, l, m, c, task, version, key);
    }
  }

  /** The leader's flight lands: its outcome is published and its key freed. */
  function Land(m: Machine, f: nat, r: Result<Artifact, Error>, key: string): Machine
    requires f in m.calls
  {
    m.(calls := m.calls[f := m.calls[f].(outcome := Some(r))], flights := m.flights - {key})
  }

  /** The client settles the flight it leads. */
  ghost predicate Settling(k: Setup, w: World, l: Laws, m: Machine, c: nat, task: Task, version: string, f: nat,
                           r: Result<Artifact, Error>) {
    && Invariant(k, w, l, m) && c in m.clients
    && m.clients[c].pc == Leading(task, version, f, Settle(r)) && f in m.calls
  }

  /** The machine once it has. */
  function Settled(m: Machine, c: nat, version: string, f: nat, r: Result<Artifact, Error>, pc: Pc): Machine
    requires c in m.clients && f in m.calls
  {
    AtPc(Land(m, f, r, VersionKey(m.clients[c].query.repo, m.clients[c].query.chart, version)), c, pc)
  }

  lemma LeaderOk(k: Setup, w: World, l: Laws, m: Machine, c: nat, task: Task, version: string, f: nat,
                 r: Result<Artifact, Error>)
    requires Settling(k, w, l, m, c, task, version, f, r)
    ensures PcOk(k, w, l, m, c, m.clients[c].query, m.clients[c].pc) && CallOk(l, m, f)
  {
    hide VersionKey, Vouched, NameOk, FlightOk;
  }

  lemma SettleClient(k: Setup, w: World, l: Laws, m: Machine, c: nat, task: Task, version: string, f: nat,
                     r: Result<Artifact, Error>, pc: Pc, d: nat)
    requires Settling(k, w, l, m, c, task, version, f, r) && d in m.clients
    requires !pc.Leading? && !pc.Wait? && Named(m.clients[c].query) && l.local(m.clients[c].query, LookOf(pc))
    ensures var m' := Settled(m, c, version, f, r, pc);
      d in m'.clients && PcOk(k, w, l, m', d, m'.clients[d].query, m'.clients[d].pc)
  {
    hide VersionKey, Vouched, NameOk, CallOk, FlightOk;
    LeaderOk(k, w, l, m, c, task, version, f, r);
    assert PcOk(k, w, l, m, d, m.clients[d].query, m.clients[d].pc);
  }

  lemma SettleCall(k: Setup, w: World, l: Laws, m: Machine, c: nat, task: Task, version: string, f: nat,
                   r: Result<Artifact, Error>, pc: Pc, g: nat)
    requires Settling(k, w, l, m, c, task, version, f, r) && g in m.calls
    ensures g in Settled(m, c, version, f, r, pc).calls && CallOk(l, Settled(m, c, version, f, r, pc), g)
  {
    hide VersionKey, Vouched, NameOk, FlightOk;
    LeaderOk(k, w, l, m, c, task, version, f, r);
    assert CallOk(l, m, g);
  }

  lemma SettleFlight(k: Setup, w: World, l: Laws, m: Machine, c: nat, task: Task, version: string, f: nat,
                     r: Result<Artifact, Error>, pc: Pc, key: string)
    requires Settling(k, w, l, m, c, task, version, f, r) && key in Settled(m, c, version, f, r, pc).flights
    ensures FlightOk(Settled(m, c, version, f, r, pc), key)
  {
    hide VersionKey, Vouched, NameOk;
    LeaderOk(k, w, l, m, c, task, version, f, r);
    assert FlightOk(m, key);
  }

  lemma SettledKeeps(k: Setup, w: World, l: Laws, m: Machine, c: nat, task: Task, version: string, f: nat,
                     r: Result<Artifact, Error>, pc: Pc)
    requires Settling(k, w, l, m, c, task, version, f, r)
    requires !pc.Leading? && !pc.Wait? && Named(m.clients[c].query) && l.local(m.clients[c].query, LookOf(pc))
    ensures Invariant(k, w, l, Settled(m, c, version, f, r, pc))
  {
    hide VersionKey, Vouched, NameOk, PcOk, CallOk, FlightOk;
    var m' := Settled(m, c, version, f, r, pc);
    forall d | d in m'.clients ensures PcOk(k, w, l, m', d, m'.clients[d].query, m'.clients[d].pc) {
      SettleClient(k, w, l, m, c, task, version, f, r, pc, d);
    }
    forall g | g in m'.calls ensures CallOk(l, m', g) {
      SettleCall(k, w, l, m, c, task, version, f, r, pc, g);
    }
    forall key | key in m'.flights ensures FlightOk(m', key) {
      SettleFlight(k, w, l, m, c, task, version, f, r, pc, key);
    }
  }

  lemma SettleKeeps(k: Setup, w: World, l: Laws, m: Machine, c: nat, task: Task, version: string, f: nat,
                    r: Result<Artifact, Error>)
    requires Lawful(k, w, l) && Settling(k, w, l, m, c, task, version, f, r)
    ensures Invariant(k, w, l, LeadStep(k, w, m, c, task, version, f, Settle(r)))
  {
    hide VersionKey, Vouched, NameOk, OutcomesLawful, Resume, AfterEntries, AfterDigestLookup, Invariant, CallOk;
    var q := m.clients[c].query;
    LeaderOk(k, w, l, m, c, task, version, f, r);
    NotLeadingAfterResume(k, q, task, r);
    SettledKeeps(k, w, l, m, c, task, version, f, r, Resume(k, q, task, r));
  }

  lemma StageMoves(k: Setup, w: World, l: Laws, m: Machine, c: nat, task: Task, version: string, f: nat,
                   stage: Stage, next: Stage)
    requires Invariant(k, w, l, m) && c in m.clients && m.clients[c].pc == Leading(task, version, f, stage)
    requires StageOk(k, w, l, m.clients[c].query, version, next)
    ensures Invariant(k, w, l, AtPc(m, c, Leading(task, version, f, next)))
  {
    hide VersionKey, Vouched, NameOk;
    assert PcOk(k, w, l, m, c, m.clients[c].query, m.clients[c].pc);
    PcMoves(k, w, l, m, c, Leading(task, version, f, next));
  }

  lemma RecheckKeeps(k: Setup, w: World, l: Laws, m: Machine, c: nat, task: Task, version: string, f: nat)
    requires Lawful(k, w, l) && Invariant(k, w, l, m) && c in m.clients
    requires m.clients[c].pc == Leading(task, version, f, Recheck) && f in m.calls
    ensures Invariant(k, w, l, LeadStep(k, w, m, c, task, version, f, Recheck))
  {
    hide VersionKey, Vouched, NameOk, Lawful, Get, Resume, Entries;
    var q := m.clients[c].query;
    assert PcOk(k, w, l, m, c, q, m.clients[c].pc);
    var (cache, hit) := Get(m.cache, VersionKey(q.repo, q.chart, version));
    GetVersionSound(k, w, l, m, q, version);
    StageMoves(k, w, l, m.(cache := cache), c, task, version, f, Recheck,
               if hit.Some? then Settle(Ok(hit.value)) else ReadIndex);
  }

  lemma ReadIndexKeeps(k: Setup, w: World, l: Laws, m: Machine, c: nat, task: Task, version: string, f: nat)
    requires Lawful(k, w, l) && Invariant(k, w, l, m) && c in m.clients
    requires m.clients[c].pc == Leading(task, version, f, ReadIndex) && f in m.calls
    ensures Invariant(k, w, l, LeadStep(k, w, m, c, task, version, f, ReadIndex))
  {
    hide VersionKey, Vouched, LocalsLawful, Entries, FindVersion, BuildsLawfully, Invariant;
    var q := m.clients[c].query;
    assert Named(q) by { QueriesNamed(k, w, l, m, c); }
    assert ReadsLawfully(k, w, l, m.now, q.repo, q.chart, version);
    SameClock(k, w, l, m, m.now + 1);
    var next := LeadStep(k, w, m, c, task, version, f, ReadIndex).clients[c].pc.stage;
    SameCount(k, w, l, m.(now := m.now + 1), c, next);
    StageMoves(k, w, l, Counted(m.(now := m.now + 1), c, next), c, task, version, f, ReadIndex, next);
  }

  lemma QueriesNamed(k: Setup, w: World, l: Laws, m: Machine, c: nat)
    requires Invariant(k, w, l, m) && c in m.clients
    ensures Named(m.clients[c].query)
  {
  }

  lemma BuildKeeps(k: Setup, w: World, l: Laws, m: Machine, c: nat, task: Task, version: string, f: nat,
                   entry: IndexEntry)
    requires Lawful(k, w, l) && Invariant(k, w, l, m) && c in m.clients
    requires m.clients[c].pc == Leading(task, version, f, BuildEntry(entry)) && f in m.calls
    ensures Invariant(k, w, l, LeadStep(k, w, m, c, task, version, f, BuildEntry(entry)))
  {
    hide VersionKey, Vouched, NameOk, Lawful, BuildAt, Resume, Entries, Invariant;
    var q := m.clients[c].query;
    ClientOk(k, w, l, m, c);
    var r := BuildAt(k, w, m.now, q.repo, entry);
    assert l.outcome(q.repo, q.chart, version, r);
    SameClock(k, w, l, m, m.now + 2);
    StageMoves(k, w, l, m.(now := m.now + 2), c, task, version, f, BuildEntry(entry),
               if r.Ok? then Store(r.value) else Settle(r));
  }

  lemma StoreKeeps(k: Setup, w: World, l: Laws, m: Machine, c: nat, task: Task, version: string, f: nat, art: Artifact)
    requires Lawful(k, w, l) && Invariant(k, w, l, m) && c in m.clients
    requires m.clients[c].pc == Leading(task, version, f, Store(art)) && f in m.calls
    ensures Invariant(k, w, l, LeadStep(k, w, m, c, task, version, f, Store(art)))
  {
    hide VersionKey, Vouched, LocalsLawful, Add, Resume, Entries;
    var q := m.clients[c].query;
    assert PcOk(k, w, l, m, c, q, m.clients[c].pc);
    assert l.built(q.repo, q.chart, art);
    AddVouched(k, l.built, m.cache, q.repo, q.chart, art);
    var cache := Add(k.opts.cacheBytes, m.cache, q.repo, q.chart, art);
    SameCacheClaims(k, w, l, m, cache);
    StageMoves(k, w, l, m.(cache := cache), c, task, version, f, Store(art), Settle(Ok(art)));
  }

  lemma LeadKeeps(k: Setup, w: World, l: Laws, m: Machine, c: nat, task: Task, version: string, f: nat, stage: Stage)
    requires Lawful(k, w, l) && Invariant(k, w, l, m) && c in m.clients
    requires m.clients[c].pc == Leading(task, version, f, stage) && f in m.calls
    ensures Invariant(k, w, l, LeadStep(k, w, m, c, task, version, f, stage))
  {
    hide Lawful, Invariant, LeadStep;
    match stage
    case Recheck => RecheckKeeps(k, w, l, m, c, task, version, f);
    case ReadIndex => ReadIndexKeeps(k, w, l, m, c, task, version, f);
    case BuildEntry(entry) => BuildKeeps(k, w, l, m, c, task, version, f, entry);
    case Store(art) => StoreKeeps(k, w, l, m, c, task, version, f, art);
    case Settle(r) => SettleKeeps(k, w, l, m, c, task, version, f, r);
  }

  lemma NeedEntriesKeeps(k: Setup, w: World, l: Laws, m: Machine, c: nat, purpose: Purpose)
    requires Lawful(k, w, l) && Invariant(k, w, l, m) && c in m.clients && m.clients[c].pc == NeedEntries(purpose)
    ensures Invariant(k, w, l, MoveStep(k, w, m, c))
  {
    hide VersionKey, Vouched, NameOk, OutcomesLawful, Resume, AfterEntries, AfterDigestLookup, Entries, Invariant;
    var q := m.clients[c].query;
    ClientOk(k, w, l, m, c);
    var pc := AfterEntries(k, q, purpose, Entries(w(m.now), q.repo, q.chart));
    SameClock(k, w, l, m, m.now + 1);
    NotLeadingAfterEntries(k, q, purpose, Entries(w(m.now), q.repo, q.chart));
    PcMoves(k, w, l, m.(now := m.now + 1), c, pc);
  }

  lemma MoveKeeps(k: Setup, w: World, l: Laws, m: Machine, c: nat)
    requires Lawful(k, w, l) && Invariant(k, w, l, m) && c in m.clients
    ensures Invariant(k, w, l, MoveStep(k, w, m, c))
  {
    hide VersionKey, Vouched, NameOk, Lawful, Resume, AfterEntries, AfterDigestLookup, BeginStep, LookStep, JoinStep,
        LeadStep;
    assert PcOk(k, w, l, m, c, m.clients[c].query, m.clients[c].pc);
    match m.clients[c].pc
    case Begin => BeginKeeps(k, w, l, m, c);
    case NeedEntries(purpose) => NeedEntriesKeeps(k, w, l, m, c, purpose);
    case Look(task, version) => LookKeeps(k, w, l, m, c, task, version);
    case Join(task, version) => JoinKeeps(k, w, l, m, c, task, version);
    case Wait(task, version, f) =>
      assert CallOk(l, m, f);
      if m.calls[f].outcome.Some? {
        ResumeKeeps(k, w, l, m, c, task, version, m.calls[f].outcome.value);
      }
    case Leading(task, version, f, stage) => LeadKeeps(k, w, l, m, c, task, version, f, stage);
    case Done(_) =>
  }

  lemma ArriveKeeps(k: Setup, w: World, l: Laws, m: Machine, c: nat, q: Query)
    requires Lawful(k, w, l) && Invariant(k, w, l, m) && c !in m.clients && Named(q)
    ensures Invariant(k, w, l, m.(clients := m.clients[c := Client(q, Begin)]))
  {
    hide VersionKey, Vouched, NameOk, OutcomesLawful;
    var m' := m.(clients := m.clients[c := Client(q, Begin)]);
    forall d | d in m'.clients ensures PcOk(k, w, l, m', d, m'.clients[d].query, m'.clients[d].pc) {
      assert d != c ==> PcOk(k, w, l, m, d, m.clients[d].query, m.clients[d].pc);
    }
    forall f | f in m'.calls ensures CallOk(l, m', f) { assert CallOk(l, m, f); }
    forall key | key in m'.flights ensures FlightOk(m', key) { assert FlightOk(m, key); }
  }

  /** The invariant holds at every step of every interleaving. */
  lemma {:induction false} InvariantAlways(k: Setup, w: World, l: Laws, events: seq<Event>)
    requires Lawful(k, w, l)
    ensures Invariant(k, w, l, Interleave(k, w, events))
    decreases events
  {
    hide Lawful, MoveStep;
    if events == [] {
      assert Vouched(k, l.built, EMPTY);
    } else {
      var m := Interleave(k, w, events[..|events| - 1]);
      InvariantAlways(k, w, l, events[..|events| - 1]);
      match events[|events| - 1]
      case Arrive(c, q) =>
        if c !in m.clients && NameOk(q.repo, q.chart) { ArriveKeeps(k, w, l, m, c, q); }
      case Move(c) =>
        if c in m.clients { MoveKeeps(k, w, l, m, c); }
    }
  }
}
