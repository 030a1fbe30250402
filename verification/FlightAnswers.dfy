/** What clients get back under any interleaving. */
module FlightAnswers {
  import opened Wrappers
  import opened Oci
  import opened CacheInvariants
  import opened Upstreams
  import opened Signing
  import opened Resolvers
  import opened Sessions
  import opened Transparency
  import opened Replicas
  import opened Flights
  import opened FlightInvariants

  ghost predicate WantOk(k: Setup, q: Query, want: Want) {
    match want
    case WantManifest => q.ManifestQuery?
    case WantBlob => q.BlobQuery?
    case WantSignature => q.BlobQuery? && k.opts.signer.Some?
  }

  /** The control point is one this kind of query can reach. */
  ghost predicate WellPlaced(k: Setup, q: Query, pc: Pc) {
    match pc
    case NeedEntries(ForLayer) => q.BlobQuery?
    case NeedEntries(ForScan(want)) => WantOk(k, q, want)
    case Look(Whole, version) => q.VersionQuery? && version == q.version
    case Look(FastPath, _) => q.BlobQuery?
    case Look(Scanning(want, candidates), version) =>
      WantOk(k, q, want) && candidates != [] && version == candidates[0].version
    case Done(answer) => answer.Data? <==> q.BlobQuery?
    case _ => true
  }

  // Upstream changing at will: every success carries the digest asked for.

  ghost predicate Addressed(k: Setup, q: Query, answer: Answer) {
    match answer
    case Found(Ok(art)) => Sealed(k.codec, art) && (q.ManifestQuery? ==> art.manifestDigest == q.digest)
    case Data(Ok(data)) => q.BlobQuery? ==> Digest(k.codec, data) == q.digest
    case _ => true
  }

  ghost predicate AddressedAt(k: Setup, q: Query, pc: Pc) {
    WellPlaced(k, q, pc) && (pc.Done? ==> Addressed(k, q, pc.answer))
  }

  ghost function SealedLaws(k: Setup): Laws {
    Laws(
      IsSealed(k),
      (repo: string, chart: string, version: string, r: Result<Artifact, Error>) => r.Ok? ==> Sealed(k.codec, r.value),
      (q: Query, pc: Pc) => AddressedAt(k, q, pc))
  }

  lemma ResumeAddressed(k: Setup, q: Query, task: Task, version: string, r: Result<Artifact, Error>)
    requires WellPlaced(k, q, Look(task, version)) && (r.Ok? ==> Sealed(k.codec, r.value))
    ensures AddressedAt(k, q, Resume(k, q, task, r))
  {
  }

  lemma AfterEntriesAddressed(k: Setup, q: Query, purpose: Purpose, r: Result<seq<IndexEntry>, Error>)
    requires WellPlaced(k, q, NeedEntries(purpose))
    ensures AddressedAt(k, q, AfterEntries(k, q, purpose, r))
  {
  }

  lemma DigestLookupAddressed(k: Setup, q: Query, hit: Option<Artifact>)
    requires hit.Some? ==> Sealed(k.codec, hit.value)
    ensures AddressedAt(k, q, AfterDigestLookup(q, hit))
  {
  }

  lemma SealedLawsHold(k: Setup, w: World)
    ensures Lawful(k, w, SealedLaws(k))
  {
    hide Sealed, Resume, AfterEntries, AfterDigestLookup, Entries, NameOk;
    var l := SealedLaws(k);
    assert OutcomesLawful(k, w, l) by {
      forall t: nat, repo, chart, version | NameOk(repo, chart)
        ensures ReadsLawfully(k, w, l, t, repo, chart, version)
      {
        hide Derive, FindVersion;
        forall entry ensures BuildsLawfully(k, w, l, repo, chart, version, entry) {}
      }
    }
    forall q: Query, hit: Option<Artifact> | Named(q) && (hit.Some? ==> l.built(q.repo, q.chart, hit.value))
      ensures l.local(q, AfterDigestLookup(q, hit))
    {
      DigestLookupAddressed(k, q, hit);
    }
    forall q: Query, purpose, t: nat | Named(q) && l.local(q, NeedEntries(purpose))
      ensures l.local(q, AfterEntries(k, q, purpose, Entries(w(t), q.repo, q.chart)))
    {
      AfterEntriesAddressed(k, q, purpose, Entries(w(t), q.repo, q.chart));
    }
    forall q: Query, task, version, r |
      Named(q) && l.local(q, Look(task, version)) && l.outcome(q.repo, q.chart, version, r)
      ensures l.local(q, Resume(k, q, task, r))
    {
      ResumeAddressed(k, q, task, version, r);
    }
  }

  /** Under any interleaving and any upstream, every answer is content-addressed and the cache keeps its invariant. */
  lemma InterleavedContentAddressed(k: Setup, w: World, events: seq<Event>)
    ensures var m := Interleave(k, w, events);
      && WellIndexed(m.cache) && Bounded(k.opts.cacheBytes, m.cache)
      && forall c | c in m.clients && m.clients[c].pc.Done? :: Addressed(k, m.clients[c].query, m.clients[c].pc.answer)
  {
    hide Interleave, Sealed, Addressed, WellPlaced, WellIndexed;
    SealedLawsHold(k, w);
    InvariantAlways(k, w, SealedLaws(k), events);
    var m := Interleave(k, w, events);
    forall c | c in m.clients && m.clients[c].pc.Done?
      ensures Addressed(k, m.clients[c].query, m.clients[c].pc.answer)
    {
      assert PcOk(k, w, SealedLaws(k), m, c, m.clients[c].query, m.clients[c].pc);
    }
  }

  /** Under any interleaving, at most one leader per chart version is between joining and landing,
      and every waiter's flight has landed or is led. */
  lemma InterleavedSingleFlight(k: Setup, w: World, events: seq<Event>, c: nat, c': nat)
    requires var m := Interleave(k, w, events); c in m.clients && c' in m.clients
    ensures var m := Interleave(k, w, events);
      var (a, b) := (m.clients[c], m.clients[c']);
      (a.pc.Leading? && b.pc.Leading? && a.pc.version == b.pc.version
       && a.query.repo == b.query.repo && a.query.chart == b.query.chart) ==> c == c'
    ensures var m := Interleave(k, w, events);
      m.clients[c].pc.Wait? ==>
        var f := m.clients[c].pc.flight; f in m.calls && (m.calls[f].outcome.Some? || Led(m, f))
  {
    hide Interleave, Lawful, Invariant;
    SealedLawsHold(k, w);
    InvariantAlways(k, w, SealedLaws(k), events);
    var m := Interleave(k, w, events);
    var l := SealedLaws(k);
    if m.clients[c].pc.Wait? { WaitersAreServed(k, w, l, m, c); }
    if m.clients[c].pc.Leading? && m.clients[c'].pc.Leading? && m.clients[c].pc.version == m.clients[c'].pc.version
      && m.clients[c].query.repo == m.clients[c'].query.repo && m.clients[c].query.chart == m.clients[c'].query.chart {
      OneLeaderPerKey(k, w, l, m, c, c');
    }
  }

  // One chart standing still: every answer about it is the sequential one.

  ghost function ColdAnswer(k: Setup, u: Site, q: Query): Answer {
    match q
    case VersionQuery(repo, chart, version) => Found(ColdVersion(k, u, repo, chart, version))
    case ManifestQuery(repo, chart, digest) => Found(ColdManifest(k, u, repo, chart, digest))
    case BlobQuery(repo, chart, digest) => Data(ColdServeBlob(k, u, repo, chart, digest))
  }

  ghost function SignatureAnswer(k: Setup, u: Site, q: Query): Answer {
    Data(ColdSignatureBlob(k, u, q.repo, q.chart, if q.BlobQuery? then q.digest else ""))
  }

  /** The answer a client at a resting control point is bound to give, without any cache. */
  ghost function Bound(k: Setup, u: Site, q: Query, pc: Pc): Answer {
    match pc
    case Done(answer) => answer
    case Look(Whole, version) => Found(ColdVersion(k, u, q.repo, q.chart, version))
    case Look(FastPath, version) =>
      (match ColdVersion(k, u, q.repo, q.chart, version)
       case Err(e) => BoundBlob(k, u, q, Err(e))
       case Ok(art) =>
         if q.BlobQuery? && art.Blob(q.digest).Some? then Data(BlobIn(art, q.digest)) else BoundScan(k, u, q, WantBlob))
    case Look(Scanning(want, candidates), _) =>
      BoundFound(k, u, q, want, ColdScan(k, u, q.repo, q.chart, Wanted(k, q, want), candidates))
    case NeedEntries(ForScan(want)) => BoundScan(k, u, q, want)
    case _ => ColdAnswer(k, u, q)
  }

  ghost function BoundScan(k: Setup, u: Site, q: Query, want: Want): Answer {
    BoundFound(k, u, q, want, ColdFind(k, u, q.repo, q.chart, Wanted(k, q, want)))
  }

  ghost function BoundBlob(k: Setup, u: Site, q: Query, r: Result<Bytes, Error>): Answer {
    if r == Err(BlobUnknown) && k.opts.signer.Some? then SignatureAnswer(k, u, q) else Data(r)
  }

  /** What a scan's end is bound to answer. */
  ghost function BoundFound(k: Setup, u: Site, q: Query, want: Want, found: Result<Option<Artifact>, Error>): Answer {
    var pc := Conclude(k, q, want, found);
    if pc.Done? then pc.answer else SignatureAnswer(k, u, q)
  }

  /** An answer straight from the cache: an artifact some version resolves to cold, under the digest asked for. */
  ghost predicate WarmAnswer(k: Setup, u: Site, q: Query, answer: Answer) {
    match q
    case VersionQuery(_, _, _) => false
    case ManifestQuery(repo, chart, digest) =>
      answer.Found? && answer.art.Ok? && Yields(k, u, repo, chart, answer.art.value)
        && answer.art.value.manifestDigest == digest
    case BlobQuery(repo, chart, digest) =>
      answer.Data? && answer.data.Ok? && BlobYielded(k, u, repo, chart, digest, answer.data.value)
  }

  /** The versions the query comes to look up cannot be mistaken. */
  ghost predicate Answerable(k: Setup, u: Site, q: Query) {
    match q
    case VersionQuery(repo, chart, version) => Unmistaken(k, u, repo, chart, version)
    case _ => ListedUnmistaken(k, u, q.repo, q.chart)
  }

  /** Nor can those a client has yet to look up from where it stands. */
  ghost predicate Ahead(k: Setup, u: Site, q: Query, pc: Pc) {
    match pc
    case Look(Whole, version) => Unmistaken(k, u, q.repo, q.chart, version)
    case Look(FastPath, version) => Unmistaken(k, u, q.repo, q.chart, version)
    case Look(Scanning(_, candidates), _) => AllUnmistaken(k, u, q.repo, q.chart, candidates)
    case _ => true
  }

  ghost predicate OnCourse(k: Setup, u: Site, q: Query, pc: Pc) {
    && WellPlaced(k, q, pc) && Ahead(k, u, q, pc)
    && (Bound(k, u, q, pc) == ColdAnswer(k, u, q) || (pc.Done? && WarmAnswer(k, u, q, pc.answer)))
  }

  /** The query is about this chart, and answerable. */
  ghost predicate About(k: Setup, u: Site, repo: string, chart: string, q: Query) {
    q.repo == repo && q.chart == chart && Answerable(k, u, q)
  }

  /** What a lookup of one of the chart's versions may come to: an artifact some version resolves to, and if the version
      cannot be mistaken, its cold outcome. */
  ghost predicate OutcomeCold(k: Setup, u: Site, repo: string, chart: string, version: string,
                              r: Result<Artifact, Error>) {
    && (r.Ok? ==> Yields(k, u, repo, chart, r.value))
    && (Unmistaken(k, u, repo, chart, version) ==> r == ColdVersion(k, u, repo, chart, version))
  }

  /** Laws for one chart; of the others they say nothing. */
  ghost function ColdLaws(k: Setup, u: Site, repo: string, chart: string): Laws {
    Laws(
      ChartYields(k, u, repo, chart),
      (r: string, c: string, version: string, outcome: Result<Artifact, Error>) =>
        r == repo && c == chart ==> OutcomeCold(k, u, repo, chart, version, outcome),
      (q: Query, pc: Pc) => About(k, u, repo, chart, q) ==> OnCourse(k, u, q, pc))
  }

  /** The signature phase is bound to the signature answer. */
  lemma BoundSignature(k: Setup, u: Site, q: Query)
    requires WantOk(k, q, WantSignature)
    ensures BoundScan(k, u, q, WantSignature) == SignatureAnswer(k, u, q)
  {
  }

  lemma ConcludeBound(k: Setup, u: Site, q: Query, want: Want, found: Result<Option<Artifact>, Error>)
    requires WantOk(k, q, want)
    ensures WellPlaced(k, q, Conclude(k, q, want, found))
    ensures Bound(k, u, q, Conclude(k, q, want, found)) == BoundFound(k, u, q, want, found)
  {
  }

  lemma ContinueBound(k: Setup, u: Site, q: Query, want: Want, candidates: seq<IndexEntry>)
    requires WantOk(k, q, want)
    ensures WellPlaced(k, q, Continue(k, q, want, candidates))
    ensures Bound(k, u, q, Continue(k, q, want, candidates))
         == BoundFound(k, u, q, want, ColdScan(k, u, q.repo, q.chart, Wanted(k, q, want), candidates))
  {
  }

  /** Resuming after the cold outcome of a version keeps a client bound to the same answer. */
  lemma ResumeBound(k: Setup, u: Site, q: Query, task: Task, version: string)
    requires WellPlaced(k, q, Look(task, version))
    ensures var pc := Resume(k, q, task, ColdVersion(k, u, q.repo, q.chart, version));
      WellPlaced(k, q, pc) && Bound(k, u, q, pc) == Bound(k, u, q, Look(task, version))
  {
    hide ColdVersion, ColdAnswer, Conclude, Continue, BoundFound, Wanted;
    var r := ColdVersion(k, u, q.repo, q.chart, version);
    match task
    case Whole =>
    case FastPath =>
      if q.BlobQuery? && k.opts.signer.Some? { BoundSignature(k, u, q); }
    case Scanning(want, candidates) =>
      ContinueBound(k, u, q, want, candidates[1..]);
      match r
      case Err(e) => ConcludeBound(k, u, q, want, Err(e));
      case Ok(art) => ConcludeBound(k, u, q, want, Ok(Some(art)));
  }

  lemma AfterEntriesBound(k: Setup, u: Site, q: Query, purpose: Purpose)
    requires WellPlaced(k, q, NeedEntries(purpose))
    ensures var pc := AfterEntries(k, q, purpose, Entries(u, q.repo, q.chart));
      WellPlaced(k, q, pc) && Bound(k, u, q, pc) == Bound(k, u, q, NeedEntries(purpose))
  {
    hide ColdVersion, Conclude, Continue, Candidates, Wanted, ColdScan;
    match purpose
    case ForLayer =>
      ForLayerBound(k, u, q);
    case ForScan(want) =>
      hide BoundFound, ColdAnswer;
      match Entries(u, q.repo, q.chart)
      case Err(e) => ConcludeBound(k, u, q, want, Err(e));
      case Ok(entries) => ContinueBound(k, u, q, want, Candidates(k, entries));
  }

  lemma ForLayerBound(k: Setup, u: Site, q: Query)
    requires q.BlobQuery?
    ensures var pc := AfterEntries(k, q, ForLayer, Entries(u, q.repo, q.chart));
      WellPlaced(k, q, pc) && Bound(k, u, q, pc) == ColdAnswer(k, u, q)
  {
    hide ColdVersion, ColdFind, ColdSignatureBlob, SignatureFor;
    if k.opts.signer.Some? {
      BoundSignature(k, u, q);
    }
    BoundBlobScan(k, u, q);
  }

  /** Scanning for a chart blob, with the handler's fallback, as a cold definition. */
  lemma BoundBlobScan(k: Setup, u: Site, q: Query)
    requires q.BlobQuery?
    ensures BoundScan(k, u, q, WantBlob) == BoundBlob(k, u, q, ColdBlobScan(k, u, q.repo, q.chart, q.digest))
  {
  }

  lemma DigestLookupOnCourse(k: Setup, u: Site, q: Query, hit: Option<Artifact>)
    requires Answerable(k, u, q) && (hit.Some? ==> Yields(k, u, q.repo, q.chart, hit.value))
    ensures OnCourse(k, u, q, AfterDigestLookup(q, hit))
  {
    hide ColdVersion, ColdServeBlob, Unmistaken, ListedUnmistaken, Yields;
    if hit.Some? && q.BlobQuery? && hit.value.Blob(q.digest).Some? {
      assert Holds(hit.value, q.digest, hit.value.Blob(q.digest).value.0);
    }
  }

  lemma ContinueAhead(k: Setup, u: Site, q: Query, want: Want, candidates: seq<IndexEntry>)
    requires AllUnmistaken(k, u, q.repo, q.chart, candidates)
    ensures Ahead(k, u, q, Continue(k, q, want, candidates))
  {
    hide Unmistaken;
  }

  lemma ResumeAhead(k: Setup, u: Site, q: Query, task: Task, version: string, r: Result<Artifact, Error>)
    requires Ahead(k, u, q, Look(task, version))
    ensures Ahead(k, u, q, Resume(k, q, task, r))
  {
    hide Unmistaken, Continue, Wanted;
    if task.Scanning? && task.candidates != [] {
      ContinueAhead(k, u, q, task.want, task.candidates[1..]);
    }
  }

  lemma AfterEntriesAhead(k: Setup, u: Site, q: Query, purpose: Purpose)
    requires ListedUnmistaken(k, u, q.repo, q.chart)
    ensures Ahead(k, u, q, AfterEntries(k, q, purpose, Entries(u, q.repo, q.chart)))
  {
    hide ListedUnmistaken, Unmistaken, AllUnmistaken, Entries, Candidates, Continue;
    if Entries(u, q.repo, q.chart).Ok? {
      var entries := Entries(u, q.repo, q.chart).value;
      CandidatesUnmistaken(k, u, q.repo, q.chart, entries);
      if purpose.ForScan? {
        ContinueAhead(k, u, q, purpose.want, Candidates(k, entries));
      } else {
        LayerUnmistaken(k, u, q.repo, q.chart, if q.BlobQuery? then q.digest else "");
      }
    }
  }

  /** The version being looked up is among those ahead. */
  lemma LookedUp(k: Setup, u: Site, q: Query, task: Task, version: string)
    requires WellPlaced(k, q, Look(task, version)) && Ahead(k, u, q, Look(task, version))
    ensures Unmistaken(k, u, q.repo, q.chart, version)
  {
    hide Unmistaken;
  }

  lemma ResumeOnCourse(k: Setup, u: Site, q: Query, task: Task, version: string, r: Result<Artifact, Error>)
    requires OnCourse(k, u, q, Look(task, version)) && OutcomeCold(k, u, q.repo, q.chart, version, r)
    ensures OnCourse(k, u, q, Resume(k, q, task, r))
  {
    hide WellPlaced, Ahead, Bound, ColdAnswer, WarmAnswer, Resume, ColdVersion, Unmistaken, Yields;
    LookedUp(k, u, q, task, version);
    ResumeBound(k, u, q, task, version);
    ResumeAhead(k, u, q, task, version, r);
  }

  lemma AfterEntriesOnCourse(k: Setup, u: Site, q: Query, purpose: Purpose)
    requires OnCourse(k, u, q, NeedEntries(purpose)) && Answerable(k, u, q)
    ensures OnCourse(k, u, q, AfterEntries(k, q, purpose, Entries(u, q.repo, q.chart)))
  {
    hide Ahead, Bound, ColdAnswer, WarmAnswer, AfterEntries, ListedUnmistaken, Unmistaken, Entries;
    AfterEntriesBound(k, u, q, purpose);
    AfterEntriesAhead(k, u, q, purpose);
  }

  lemma BuildsCold(k: Setup, w: World, u: Site, repo: string, chart: string, entry: IndexEntry, t: nat)
    requires Steady(k, w, u, repo, chart) && Lists(u, repo, chart, entry)
    ensures BuildAt(k, w, t, repo, entry) == Derive(k, u, u, repo, entry)
  {
    hide Derive, Lists, Entries;
  }

  lemma ColdIsLawful(k: Setup, u: Site, repo: string, chart: string, version: string)
    ensures OutcomeCold(k, u, repo, chart, version, ColdVersion(k, u, repo, chart, version))
  {
    hide ColdVersion;
  }

  lemma ColdReadsLawful(k: Setup, w: World, u: Site, repo: string, chart: string, t: nat, version: string)
    requires Steady(k, w, u, repo, chart)
    ensures ReadsLawfully(k, w, ColdLaws(k, u, repo, chart), t, repo, chart, version)
  {
    hide OutcomeCold, Derive, Steady, BuildAt, Entries;
    EntriesSteady(k, w, u, t, repo, chart);
    ColdIsLawful(k, u, repo, chart, version);
    if Entries(u, repo, chart).Ok? {
      var entry := FindVersion(Entries(u, repo, chart).value, version);
      if entry.Some? {
        forall t': nat ensures BuildAt(k, w, t', repo, entry.value) == Derive(k, u, u, repo, entry.value) {
          BuildsCold(k, w, u, repo, chart, entry.value, t');
        }
      }
    }
  }

  lemma CachedIsLawful(k: Setup, u: Site, repo: string, chart: string, art: Artifact)
    requires Yields(k, u, repo, chart, art)
    ensures OutcomeCold(k, u, repo, chart, art.version, Ok(art))
  {
    hide ColdVersion;
    var other :| ColdVersion(k, u, repo, chart, other) == Ok(art);
    assert Declares(k, u, repo, chart, other, art.version);
  }

  lemma ColdOutcomesLawful(k: Setup, w: World, u: Site, repo: string, chart: string)
    requires Steady(k, w, u, repo, chart)
    ensures OutcomesLawful(k, w, ColdLaws(k, u, repo, chart))
  {
    hide Steady, Yields, ColdVersion, Unmistaken, Entries, Derive, NameOk;
    var l := ColdLaws(k, u, repo, chart);
    forall r, c, art | l.built(r, c, art) ensures l.outcome(r, c, art.version, Ok(art)) {
      if r == repo && c == chart {
        CachedIsLawful(k, u, repo, chart, art);
      }
    }
    forall t: nat, r, c, version ensures ReadsLawfully(k, w, l, t, r, c, version) {
      if r == repo && c == chart {
        ColdReadsLawful(k, w, u, repo, chart, t, version);
      }
    }
  }

  lemma ColdLocalsLawful(k: Setup, w: World, u: Site, repo: string, chart: string)
    requires Steady(k, w, u, repo, chart)
    ensures LocalsLawful(k, w, ColdLaws(k, u, repo, chart))
  {
    hide Steady, Resume, AfterEntries, AfterDigestLookup, Entries, NameOk, OnCourse, OutcomeCold, Yields, Answerable;
    var l := ColdLaws(k, u, repo, chart);
    forall q | About(k, u, repo, chart, q) ensures OnCourse(k, u, q, Begin) {
      BeginOnCourse(k, u, q);
    }
    forall q: Query, hit: Option<Artifact> |
      About(k, u, repo, chart, q) && (hit.Some? ==> l.built(q.repo, q.chart, hit.value))
      ensures OnCourse(k, u, q, AfterDigestLookup(q, hit))
    {
      DigestLookupOnCourse(k, u, q, hit);
    }
    forall q: Query, purpose, t: nat | About(k, u, repo, chart, q) && OnCourse(k, u, q, NeedEntries(purpose))
      ensures OnCourse(k, u, q, AfterEntries(k, q, purpose, Entries(w(t), q.repo, q.chart)))
    {
      EntriesSteady(k, w, u, t, repo, chart);
      AfterEntriesOnCourse(k, u, q, purpose);
    }
    forall q: Query, task, version, r | About(k, u, repo, chart, q) && OnCourse(k, u, q, Look(task, version))
      && OutcomeCold(k, u, q.repo, q.chart, version, r)
      ensures OnCourse(k, u, q, Resume(k, q, task, r))
    {
      ResumeOnCourse(k, u, q, task, version, r);
    }
  }

  lemma BeginOnCourse(k: Setup, u: Site, q: Query)
    ensures OnCourse(k, u, q, Begin)
  {
  }

  /** Under any interleaving of any number of clients, whatever other charts are asked for and however they change: a
      client asking for a version of a chart that stands still gets exactly what the sequential cache-free definition
      gives, a client asking it for a digest that,
        or an answer from the cache; provided the versions it comes to look up
      cannot be mistaken. */
  lemma InterleavedTransparent(k: Setup, w: World, u: Site, events: seq<Event>, c: nat)
    requires var m := Interleave(k, w, events);
      && c in m.clients && m.clients[c].pc.Done?
      && Steady(k, w, u, m.clients[c].query.repo, m.clients[c].query.chart) && Answerable(k, u, m.clients[c].query)
    ensures var client := Interleave(k, w, events).clients[c];
      client.pc.answer == ColdAnswer(k, u, client.query) || WarmAnswer(k, u, client.query, client.pc.answer)
  {
    hide Interleave, ColdAnswer, WarmAnswer, WellPlaced, Ahead, Steady, Answerable;
    var m := Interleave(k, w, events);
    var q := m.clients[c].query;
    var l := ColdLaws(k, u, q.repo, q.chart);
    ColdOutcomesLawful(k, w, u, q.repo, q.chart);
    ColdLocalsLawful(k, w, u, q.repo, q.chart);
    InvariantAlways(k, w, l, events);
    assert PcOk(k, w, l, m, c, q, m.clients[c].pc);
    assert About(k, u, q.repo, q.chart, q);
  }

  /** Hence the bytes a client gets are those of the sequential answer whenever that succeeds. */
  lemma InterleavedBytes(k: Setup, w: World, u: Site, events: seq<Event>, c: nat)
    requires CollisionFree(k.codec)
    requires var m := Interleave(k, w, events);
      && c in m.clients && m.clients[c].pc.Done?
      && Steady(k, w, u, m.clients[c].query.repo, m.clients[c].query.chart) && Answerable(k, u, m.clients[c].query)
    ensures var client := Interleave(k, w, events).clients[c];
      match client.query
      case VersionQuery(repo, chart, version) => client.pc.answer == Found(ColdVersion(k, u, repo, chart, version))
      case ManifestQuery(repo, chart, digest) =>
        ColdManifest(k, u, repo, chart, digest).Ok? ==>
          client.pc.answer.Found? && client.pc.answer.art.Ok?
          && client.pc.answer.art.value.manifest == ColdManifest(k, u, repo, chart, digest).value.manifest
      case BlobQuery(repo, chart, digest) =>
        ColdServeBlob(k, u, repo, chart, digest).Ok? ==>
          client.pc.answer == Data(ColdServeBlob(k, u, repo, chart, digest))
  {
    hide Interleave, ColdVersion, ColdManifest, ColdServeBlob, Steady, Answerable, BlobYielded, Yields;
    InterleavedTransparent(k, w, u, events, c);
    var client := Interleave(k, w, events).clients[c];
    if client.pc.answer != ColdAnswer(k, u, client.query) {
      WarmBytes(k, u, client.query, client.pc.answer);
    }
  }

  lemma WarmBytes(k: Setup, u: Site, q: Query, answer: Answer)
    requires CollisionFree(k.codec) && WarmAnswer(k, u, q, answer)
    ensures q.ManifestQuery? && ColdManifest(k, u, q.repo, q.chart, q.digest).Ok? ==>
      answer.art.value.manifest == ColdManifest(k, u, q.repo, q.chart, q.digest).value.manifest
    ensures q.BlobQuery? && ColdServeBlob(k, u, q.repo, q.chart, q.digest).Ok? ==>
      answer == Data(ColdServeBlob(k, u, q.repo, q.chart, q.digest))
  {
    hide ColdVersion, ColdManifest, ColdServeBlob, BlobYielded, Yields;
    if q.ManifestQuery? && ColdManifest(k, u, q.repo, q.chart, q.digest).Ok? {
      YieldsSealed(k, u, q.repo, q.chart, answer.art.value);
      ColdManifestDigest(k, u, q.repo, q.chart, q.digest);
      SameDigestSameBytes(k.codec, answer.art.value.manifest,
                          ColdManifest(k, u, q.repo, q.chart, q.digest).value.manifest);
    }
    if q.BlobQuery? && ColdServeBlob(k, u, q.repo, q.chart, q.digest).Ok? {
      YieldedBlobHasDigest(k, u, q.repo, q.chart, q.digest, answer.data.value);
      ColdServeDigest(k, u, q.repo, q.chart, q.digest);
      SameDigestSameBytes(k.codec, answer.data.value, ColdServeBlob(k, u, q.repo, q.chart, q.digest).value);
    }
  }

  // One chart standing still but failing at times: a success is the sequential one.

  /** What a lookup of one of its versions may come to: a failure, or what the version resolves to cold. */
  ghost predicate SuccessCold(k: Setup, u: Site, repo: string, chart: string, version: string,
                              r: Result<Artifact, Error>) {
    r.Ok? ==>
      && Yields(k, u, repo, chart, r.value)
      && (Unmistaken(k, u, repo, chart, version) ==> r == ColdVersion(k, u, repo, chart, version))
  }

  /** A client asking for a version stands where such clients do, and has no other success to show. */
  ghost predicate NeverWrong(k: Setup, u: Site, q: Query, pc: Pc) {
    q.VersionQuery? ==>
      && WellPlaced(k, q, pc) && !pc.NeedEntries? && (pc.Look? ==> pc.task.Whole?)
      && (pc.Done? ==> pc.answer.Found? && SuccessCold(k, u, q.repo, q.chart, q.version, pc.answer.art))
  }

  ghost function SuccessLaws(k: Setup, u: Site, repo: string, chart: string): Laws {
    Laws(
      ChartYields(k, u, repo, chart),
      (r: string, c: string, version: string, outcome: Result<Artifact, Error>) =>
        r == repo && c == chart ==> SuccessCold(k, u, repo, chart, version, outcome),
      (q: Query, pc: Pc) => q.repo == repo && q.chart == chart ==> NeverWrong(k, u, q, pc))
  }

  lemma SuccessReadsLawful(k: Setup, w: World, u: Site, repo: string, chart: string, t: nat, version: string)
    requires SteadyOrFailing(k, w, u, repo, chart)
    ensures ReadsLawfully(k, w, SuccessLaws(k, u, repo, chart), t, repo, chart, version)
  {
    hide Derive, Entries, Unmistaken;
    if Entries(w(t), repo, chart).Ok? {
      var entry := FindVersion(Entries(u, repo, chart).value, version);
      if entry.Some? {
        assert Lists(u, repo, chart, entry.value);
        assert ColdVersion(k, u, repo, chart, version) == Derive(k, u, u, repo, entry.value);
      }
    }
  }

  lemma SuccessLawsHold(k: Setup, w: World, u: Site, repo: string, chart: string)
    requires SteadyOrFailing(k, w, u, repo, chart)
    ensures Lawful(k, w, SuccessLaws(k, u, repo, chart))
  {
    hide SteadyOrFailing, Yields, ColdVersion, Unmistaken, Entries, Derive, NameOk;
    var l := SuccessLaws(k, u, repo, chart);
    assert OutcomesLawful(k, w, l) by {
      forall r, c, art | l.built(r, c, art) ensures l.outcome(r, c, art.version, Ok(art)) {
        if r == repo && c == chart {
          CachedIsLawful(k, u, repo, chart, art);
        }
      }
      forall t: nat, r, c, version ensures ReadsLawfully(k, w, l, t, r, c, version) {
        if r == repo && c == chart {
          SuccessReadsLawful(k, w, u, repo, chart, t, version);
        }
      }
    }
    assert LocalsLawful(k, w, l);
  }

  /** Under any interleaving, while the chart's upstream keeps failing: a client asking for a version that cannot be
      mistaken gets a failure, or exactly what the sequential cache-free definition gives. */
  lemma InterleavedSuccess(k: Setup, w: World, u: Site, events: seq<Event>, c: nat)
    requires var m := Interleave(k, w, events);
      && c in m.clients && m.clients[c].pc.Done? && m.clients[c].query.VersionQuery?
      && SteadyOrFailing(k, w, u, m.clients[c].query.repo, m.clients[c].query.chart)
      && Answerable(k, u, m.clients[c].query)
    ensures var client := Interleave(k, w, events).clients[c];
      && client.pc.answer.Found?
      && (client.pc.answer.art.Ok? ==> client.pc.answer == ColdAnswer(k, u, client.query))
  {
    hide Interleave, SteadyOrFailing, Unmistaken, ColdVersion, Yields, WellPlaced;
    var m := Interleave(k, w, events);
    var q := m.clients[c].query;
    var l := SuccessLaws(k, u, q.repo, q.chart);
    SuccessLawsHold(k, w, u, q.repo, q.chart);
    InvariantAlways(k, w, l, events);
    assert PcOk(k, w, l, m, c, q, m.clients[c].pc);
  }
}
