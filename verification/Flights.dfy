/** Many clients at once: one cache, one singleflight group, every interleaving of their steps. */
module Flights {
  import opened Wrappers
  import opened Oci
  import opened ArtifactCaches
  import opened CacheInvariants
  import opened Upstreams
  import opened Signing
  import opened Resolvers

  datatype Query =
    | VersionQuery(repo: string, chart: string, version: string)
    | ManifestQuery(repo: string, chart: string, digest: string)
    | BlobQuery(repo: string, chart: string, digest: string)

  datatype Answer = Found(art: Result<Artifact, Error>) | Data(data: Result<Bytes, Error>)

  /** What a scan looks for. */
  datatype Want = WantManifest | WantBlob | WantSignature

  /** Why the index is about to be read. */
  datatype Purpose = ForLayer | ForScan(want: Want)

  /** What a client will do with the version it is looking up: the first of candidates, when scanning. */
  datatype Task = Whole | FastPath | Scanning(want: Want, candidates: seq<IndexEntry>)

  /** How far the leader of a flight has got. */
  datatype Stage =
    | Recheck
    | ReadIndex
    | BuildEntry(entry: IndexEntry)
    | Store(art: Artifact)
    | Settle(r: Result<Artifact, Error>)

  /** Each control point precedes one atomic step. */
  datatype Pc =
    | Begin
    | NeedEntries(purpose: Purpose)
    | Look(task: Task, version: string)
    | Join(task: Task, version: string)
    | Wait(task: Task, version: string, flight: nat)
    | Leading(task: Task, version: string, flight: nat, stage: Stage)
    | Done(answer: Answer)

  datatype Client = Client(query: Query, pc: Pc)

  /** One singleflight call; outcome is None while its leader works. */
  datatype Call = Call(repo: string, chart: string, version: string, leader: nat,
                       outcome: Option<Result<Artifact, Error>>)

  /** builds counts, client by client, the chart builds it has started. */
  datatype Machine = Machine(
    cache: Cache, now: nat,
    clients: map<nat, Client>,
    calls: map<nat, Call>, flights: map<string, nat>, nextCall: nat,
    builds: map<nat, nat>)

  const START := Machine(EMPTY, 0, map[], map[], map[], 0, map[])

  function Builds(m: Machine, c: nat): nat {
    if c in m.builds then m.builds[c] else 0
  }

  /** A leader about to build has one more to its count. */
  function Counted(m: Machine, c: nat, stage: Stage): Machine {
    if stage.BuildEntry? then m.(builds := m.builds[c := Builds(m, c) + 1]) else m
  }

  datatype Event = Arrive(client: nat, query: Query) | Move(client: nat)

  // What one client does next, given what it just learnt.

  function Wanted(k: Setup, q: Query, want: Want): Artifact -> bool {
    match want
    case WantManifest => HasManifest(if q.ManifestQuery? then q.digest else "")
    case WantBlob => HasBlob(if q.BlobQuery? then q.digest else "")
    case WantSignature =>
      if k.opts.signer.Some? && q.BlobQuery?
      then SignatureHasBlob(k, k.opts.signer.value, q.repo, q.chart, q.digest)
      else (_: Artifact) => false
  }

  /** The handler's fallback: a digest that is no chart blob may be a signature's. */
  function FinishBlob(k: Setup, r: Result<Bytes, Error>): Pc {
    if r == Err(BlobUnknown) && k.opts.signer.Some? then NeedEntries(ForScan(WantSignature)) else Done(Data(r))
  }

  function BlobIn(art: Artifact, digest: string): Result<Bytes, Error> {
    if art.Blob(digest).Some? then Ok(art.Blob(digest).value.0) else Err(BlobUnknown)
  }

  function SignatureBlobIn(k: Setup, q: Query, art: Artifact): Result<Bytes, Error> {
    if k.opts.signer.Some? && q.BlobQuery? then
      var blob := SignatureFor(k.codec, k.opts.signer.value, q.repo + "/" + q.chart, art.manifestDigest).Blob(q.digest);
      if blob.Some? then Ok(blob.value.0) else Err(BlobUnknown)
    else Err(BlobUnknown)
  }

  /** A scan has ended: with an error, with nothing, or with a match. */
  function Conclude(k: Setup, q: Query, want: Want, found: Result<Option<Artifact>, Error>): Pc {
    match want
    case WantManifest =>
      Done(Found(match found
        case Err(e) => Err(e)
        case Ok(None) => Err(VersionUnknown)
        case Ok(Some(art)) => Ok(art)))
    case WantBlob =>
      FinishBlob(k, match found
        case Err(e) => Err(e)
        case Ok(None) => Err(BlobUnknown)
        case Ok(Some(art)) => BlobIn(art, if q.BlobQuery? then q.digest else ""))
    case WantSignature =>
      Done(Data(match found
        case Err(e) => Err(e)
        case Ok(None) => Err(BlobUnknown)
        case Ok(Some(art)) => SignatureBlobIn(k, q, art)))
  }

  function Continue(k: Setup, q: Query, want: Want, candidates: seq<IndexEntry>): Pc {
    if candidates == [] then Conclude(k, q, want, Ok(None))
    else Look(Scanning(want, candidates), candidates[0].version)
  }

  /** The version lookup of the current task has answered. */
  function Resume(k: Setup, q: Query, task: Task, r: Result<Artifact, Error>): Pc {
    match task
    case Whole => Done(Found(r))
    case FastPath =>
      (match r
       case Err(e) => FinishBlob(k, Err(e))
       case Ok(art) =>
         if q.BlobQuery? && art.Blob(q.digest).Some? then Done(Data(BlobIn(art, q.digest)))
         else NeedEntries(ForScan(WantBlob)))
    case Scanning(want, candidates) =>
      if candidates == [] then Conclude(k, q, want, Ok(None))
      else match r
        case Err(e) =>
          if Skippable(e) then Continue(k, q, want, candidates[1..]) else Conclude(k, q, want, Err(e))
        case Ok(art) =>
          if Wanted(k, q, want)(art) then Conclude(k, q, want, Ok(Some(art))) else Continue(k, q, want, candidates[1..])
  }

  function AfterEntries(k: Setup, q: Query, purpose: Purpose, r: Result<seq<IndexEntry>, Error>): Pc {
    match purpose
    case ForScan(want) =>
      (match r
       case Err(e) => Conclude(k, q, want, Err(e))
       case Ok(entries) => Continue(k, q, want, Candidates(k, entries)))
    case ForLayer =>
      match r
      case Err(e) => FinishBlob(k, Err(e))
      case Ok(entries) =>
        match FindLayerDigest(entries, if q.BlobQuery? then q.digest else "")
        case Some(entry) => Look(FastPath, entry.version)
        case None => NeedEntries(ForScan(WantBlob))
  }

  function AfterDigestLookup(q: Query, hit: Option<Artifact>): Pc {
    match q
    case VersionQuery(_, _, version) => Look(Whole, version)
    case ManifestQuery(_, _, digest) =>
      if hit.Some? && hit.value.manifestDigest == digest then Done(Found(Ok(hit.value)))
      else NeedEntries(ForScan(WantManifest))
    case BlobQuery(_, _, digest) =>
      if hit.Some? && hit.value.Blob(digest).Some? then Done(Data(BlobIn(hit.value, digest))) else NeedEntries(ForLayer)
  }

  // One atomic step of one client.

  function AtPc(m: Machine, c: nat, pc: Pc): Machine
    requires c in m.clients
  {
    m.(clients := m.clients[c := m.clients[c].(pc := pc)])
  }

  ghost function BeginStep(k: Setup, m: Machine, c: nat): Machine
    requires c in m.clients
  {
    var q := m.clients[c].query;
    if q.VersionQuery? then AtPc(m, c, AfterDigestLookup(q, None))
    else
      var (cache, hit) := Get(m.cache, DigestKey(q.repo, q.chart, q.digest));
      AtPc(m.(cache := cache), c, AfterDigestLookup(q, hit))
  }

  ghost function LookStep(k: Setup, m: Machine, c: nat, task: Task, version: string): Machine
    requires c in m.clients
  {
    var q := m.clients[c].query;
    var (cache, hit) := Get(m.cache, VersionKey(q.repo, q.chart, version));
    AtPc(m.(cache := cache), c, if hit.Some? then Resume(k, q, task, Ok(hit.value)) else Join(task, version))
  }

  /** Enter the singleflight group: follow the flight under this key, or lead a new one. */
  function JoinStep(m: Machine, c: nat, task: Task, version: string): Machine
    requires c in m.clients
  {
    var q := m.clients[c].query;
    var key := VersionKey(q.repo, q.chart, version);
    if key in m.flights then AtPc(m, c, Wait(task, version, m.flights[key]))
    else
      var f := m.nextCall;
      AtPc(m.(calls := m.calls[f := Call(q.repo, q.chart, version, c, None)],
              flights := m.flights[key := f], nextCall := f + 1),
           c, Leading(task, version, f, Recheck))
  }

  /** A build whose two exchanges start at moment t. */
  function BuildAt(k: Setup, w: World, t: nat, repo: string, entry: IndexEntry): Result<Artifact, Error> {
    Derive(k, w(t), w(t + 1), repo, entry)
  }

  ghost function LeadStep(k: Setup, w: World, m: Machine, c: nat, task: Task, version: string, f: nat,
                          stage: Stage): Machine
    requires c in m.clients && f in m.calls
  {
    var q := m.clients[c].query;
    match stage
    case Recheck =>
      var (cache, hit) := Get(m.cache, VersionKey(q.repo, q.chart, version));
      AtPc(m.(cache := cache), c, Leading(task, version, f, if hit.Some? then Settle(Ok(hit.value)) else ReadIndex))
    case ReadIndex =>
      var next := match Entries(w(m.now), q.repo, q.chart)
        case Err(e) => Settle(Err(e))
        case Ok(entries) =>
          match FindVersion(entries, version)
          case None => Settle(Err(VersionUnknown))
          case Some(entry) => BuildEntry(entry);
      AtPc(Counted(m.(now := m.now + 1), c, next), c, Leading(task, version, f, next))
    case BuildEntry(entry) =>
      var r := BuildAt(k, w, m.now, q.repo, entry);
      AtPc(m.(now := m.now + 2), c, Leading(task, version, f, if r.Ok? then Store(r.value) else Settle(r)))
    case Store(art) =>
      AtPc(m.(cache := Add(k.opts.cacheBytes, m.cache, q.repo, q.chart, art)), c,
           Leading(task, version, f, Settle(Ok(art))))
    case Settle(r) =>
      AtPc(m.(calls := m.calls[f := m.calls[f].(outcome := Some(r))],
              flights := m.flights - {VersionKey(q.repo, q.chart, version)}),
           c, Resume(k, q, task, r))
  }

  ghost function MoveStep(k: Setup, w: World, m: Machine, c: nat): Machine
    requires c in m.clients
  {
    var q := m.clients[c].query;
    match m.clients[c].pc
    case Begin => BeginStep(k, m, c)
    case NeedEntries(purpose) =>
      AtPc(m.(now := m.now + 1), c, AfterEntries(k, q, purpose, Entries(w(m.now), q.repo, q.chart)))
    case Look(task, version) => LookStep(k, m, c, task, version)
    case Join(task, version) => JoinStep(m, c, task, version)
    case Wait(task, version, f) =>
      if f in m.calls && m.calls[f].outcome.Some? then AtPc(m, c, Resume(k, q, task, m.calls[f].outcome.value)) else m
    case Leading(task, version, f, stage) =>
      if f in m.calls then LeadStep(k, w, m, c, task, version, f, stage) else m
    case Done(_) => m
  }

  ghost function EventStep(k: Setup, w: World, m: Machine, e: Event): Machine {
    match e
    case Arrive(c, q) =>
      if c in m.clients || !NameOk(q.repo, q.chart) then m else m.(clients := m.clients[c := Client(q, Begin)])
    case Move(c) => if c in m.clients then MoveStep(k, w, m, c) else m
  }

  /** Any interleaving of arrivals and steps. */
  ghost function Interleave(k: Setup, w: World, events: seq<Event>): Machine {
    if events == [] then START
    else EventStep(k, w, Interleave(k, w, events[..|events| - 1]), events[|events| - 1])
  }
}
