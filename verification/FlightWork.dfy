/** How many chart builds each client can start, under any interleaving and however upstream changes. */
module FlightWork {
  import opened Wrappers
  import opened Oci
  import opened ArtifactCaches
  import opened CacheInvariants
  import opened Upstreams
  import opened Resolvers
  import opened Work
  import opened Flights

  /** What a scan for signatures may add to a blob request. */
  function SignatureShare(k: Setup, m: nat): nat {
    if k.opts.signer.Some? then m else 0
  }

  /** Builds that a scan over n candidates may still start, its fallback included. */
  function ScanLeft(k: Setup, want: Want, n: nat, m: nat): nat {
    n + if want.WantBlob? then SignatureShare(k, m) else 0
  }

  function TaskLeft(k: Setup, task: Task, m: nat): nat {
    match task
    case Whole => 1
    case FastPath => 1 + m + SignatureShare(k, m)
    case Scanning(want, candidates) => ScanLeft(k, want, |candidates|, m)
  }

  /** The most builds a client may still start, where no scan of its chart is wider than m. */
  function Left(k: Setup, q: Query, pc: Pc, m: nat): int {
    match pc
    case Begin => Budget(k, q, m)
    case NeedEntries(ForLayer) => 1 + m + SignatureShare(k, m)
    case NeedEntries(ForScan(want)) => ScanLeft(k, want, m, m)
    case Look(task, _) => TaskLeft(k, task, m)
    case Join(task, _) => TaskLeft(k, task, m)
    case Wait(task, _, _) => TaskLeft(k, task, m)
    case Leading(task, _, _, Recheck) => TaskLeft(k, task, m)
    case Leading(task, _, _, ReadIndex) => TaskLeft(k, task, m)
    case Leading(task, _, _, _) => TaskLeft(k, task, m) - 1
    case Done(_) => 0
  }

  /** For m = min(number of entries, ScanLimit): one by version, m by manifest digest, m + 1 by blob without signing
      and 2m + 1 with. */
  function Budget(k: Setup, q: Query, m: nat): nat {
    match q
    case VersionQuery(_, _, _) => 1
    case ManifestQuery(_, _, _) => m
    case BlobQuery(_, _, _) => if k.opts.signer.Some? then 2 * m + 1 else m + 1
  }

  /** A scan under way has a candidate before it. */
  predicate TaskOk(task: Task) {
    task.Scanning? ==> task.candidates != []
  }

  predicate PcTaskOk(pc: Pc) {
    match pc
    case Look(task, _) => TaskOk(task)
    case Join(task, _) => TaskOk(task)
    case Wait(task, _, _) => TaskOk(task)
    case Leading(task, _, _, _) => TaskOk(task)
    case _ => true
  }

  /** The client is within its budget, counting what it may yet start. */
  ghost predicate WithinBudget(k: Setup, machine: Machine, c: nat, m: nat)
    requires c in machine.clients
  {
    var client := machine.clients[c];
    PcTaskOk(client.pc) && 0 <= Left(k, client.query, client.pc, m)
    && Builds(machine, c) + Left(k, client.query, client.pc, m) <= Budget(k, client.query, m)
  }

  lemma ContinueLeft(k: Setup, q: Query, want: Want, candidates: seq<IndexEntry>, m: nat)
    ensures PcTaskOk(Continue(k, q, want, candidates))
    ensures 0 <= Left(k, q, Continue(k, q, want, candidates), m) <= ScanLeft(k, want, |candidates|, m)
  {
  }

  lemma ConcludeLeft(k: Setup, q: Query, want: Want, found: Result<Option<Artifact>, Error>, m: nat)
    ensures PcTaskOk(Conclude(k, q, want, found))
    ensures 0 <= Left(k, q, Conclude(k, q, want, found), m) <= ScanLeft(k, want, 0, m)
  {
  }

  /** A version lookup that has answered leaves one build less to start. */
  lemma ResumeLeft(k: Setup, q: Query, task: Task, r: Result<Artifact, Error>, m: nat)
    requires TaskOk(task)
    ensures PcTaskOk(Resume(k, q, task, r)) && 0 <= Left(k, q, Resume(k, q, task, r), m) <= TaskLeft(k, task, m) - 1
  {
    hide Continue, Conclude, Wanted;
    match task
    case Whole =>
    case FastPath =>
    case Scanning(want, candidates) =>
      ContinueLeft(k, q, want, candidates[1..], m);
      match r
      case Err(e) => ConcludeLeft(k, q, want, Err(e), m);
      case Ok(art) => ConcludeLeft(k, q, want, Ok(Some(art)), m);
  }

  lemma AfterEntriesLeft(k: Setup, q: Query, purpose: Purpose, r: Result<seq<IndexEntry>, Error>, m: nat)
    requires r.Ok? ==> |Candidates(k, r.value)| <= m
    ensures var pc := AfterEntries(k, q, purpose, r);
      PcTaskOk(pc) && 0 <= Left(k, q, pc, m) <= Left(k, q, NeedEntries(purpose), m)
  {
    hide Continue, Conclude, Candidates;
    match purpose
    case ForLayer =>
    case ForScan(want) =>
      match r
      case Err(e) => ConcludeLeft(k, q, want, Err(e), m);
      case Ok(entries) => ContinueLeft(k, q, want, Candidates(k, entries), m);
  }

  lemma DigestLookupLeft(k: Setup, q: Query, hit: Option<Artifact>, m: nat)
    ensures var pc := AfterDigestLookup(q, hit); PcTaskOk(pc) && 0 <= Left(k, q, pc, m) <= Budget(k, q, m)
  {
  }

  lemma LeadStepBudget(k: Setup, w: World, machine: Machine, c: nat, task: Task, version: string, f: nat, stage: Stage,
                       m: nat)
    requires c in machine.clients && f in machine.calls && WithinBudget(k, machine, c, m)
    requires machine.clients[c].pc == Leading(task, version, f, stage)
    ensures var next := LeadStep(k, w, machine, c, task, version, f, stage);
      c in next.clients && next.clients[c].query == machine.clients[c].query && WithinBudget(k, next, c, m)
  {
    hide Entries, FindVersion, BuildAt, Get, Add, VersionKey, Resume, TaskLeft, Budget;
    match stage
    case Settle(r) => ResumeLeft(k, machine.clients[c].query, task, r, m);
    case _ =>
      assert 1 <= TaskLeft(k, task, m) by { SomeLeft(k, task, m); }
  }

  lemma SomeLeft(k: Setup, task: Task, m: nat)
    requires TaskOk(task)
    ensures 1 <= TaskLeft(k, task, m)
  {
  }

  lemma LookStepBudget(k: Setup, machine: Machine, c: nat, task: Task, version: string, m: nat)
    requires c in machine.clients && WithinBudget(k, machine, c, m)
    requires machine.clients[c].pc == Look(task, version)
    ensures var next := LookStep(k, machine, c, task, version); c in next.clients && WithinBudget(k, next, c, m)
  {
    hide Get, VersionKey, Resume, TaskLeft, Budget;
    var q := machine.clients[c].query;
    var hit := Get(machine.cache, VersionKey(q.repo, q.chart, version)).1;
    if hit.Some? {
      ResumeLeft(k, q, task, Ok(hit.value), m);
    }
  }

  lemma BeginStepBudget(k: Setup, machine: Machine, c: nat, m: nat)
    requires c in machine.clients && WithinBudget(k, machine, c, m) && machine.clients[c].pc.Begin?
    ensures c in BeginStep(k, machine, c).clients && WithinBudget(k, BeginStep(k, machine, c), c, m)
  {
    hide Get, DigestKey, AfterDigestLookup, TaskLeft, Budget;
    var q := machine.clients[c].query;
    DigestLookupLeft(k, q, None, m);
    if !q.VersionQuery? {
      DigestLookupLeft(k, q, Get(machine.cache, DigestKey(q.repo, q.chart, q.digest)).1, m);
    }
  }

  lemma MoveStepBudget(k: Setup, w: World, machine: Machine, c: nat, m: nat)
    requires c in machine.clients && WithinBudget(k, machine, c, m)
    requires NeverWider(k, w, machine.clients[c].query.repo, machine.clients[c].query.chart, m)
    ensures c in MoveStep(k, w, machine, c).clients && WithinBudget(k, MoveStep(k, w, machine, c), c, m)
  {
    hide Entries, VersionKey, Resume, AfterEntries, TaskLeft, Candidates, LeadStep, LookStep, BeginStep, Budget;
    var q := machine.clients[c].query;
    match machine.clients[c].pc
    case Begin => BeginStepBudget(k, machine, c, m);
    case NeedEntries(purpose) =>
      WidthOf(k, w(machine.now), q.repo, q.chart);
      assert Width(k, w(machine.now), q.repo, q.chart) <= m;
      AfterEntriesLeft(k, q, purpose, Entries(w(machine.now), q.repo, q.chart), m);
    case Look(task, version) => LookStepBudget(k, machine, c, task, version, m);
    case Join(_, _) =>
    case Wait(task, version, f) =>
      if f in machine.calls && machine.calls[f].outcome.Some? {
        ResumeLeft(k, q, task, machine.calls[f].outcome.value, m);
      }
    case Leading(task, version, f, stage) =>
      if f in machine.calls {
        LeadStepBudget(k, w, machine, c, task, version, f, stage, m);
      }
    case Done(_) =>
  }

  /** One client's step leaves the others and their counts alone, and its own query. */
  ghost predicate Touches(machine: Machine, next: Machine, c: nat)
    requires c in machine.clients
  {
    && (exists pc :: next.clients == machine.clients[c := machine.clients[c].(pc := pc)])
    && (next.builds == machine.builds || next.builds == machine.builds[c := Builds(machine, c) + 1])
  }

  lemma AtPcTouches(machine: Machine, m': Machine, c: nat, pc: Pc)
    requires c in machine.clients && m'.clients == machine.clients
    requires m'.builds == machine.builds || m'.builds == machine.builds[c := Builds(machine, c) + 1]
    ensures Touches(machine, AtPc(m', c, pc), c)
  {
    assert AtPc(m', c, pc).clients == machine.clients[c := machine.clients[c].(pc := pc)];
  }

  lemma LeadStepTouches(k: Setup, w: World, machine: Machine, c: nat, task: Task, version: string, f: nat, stage: Stage)
    requires c in machine.clients && f in machine.calls
    ensures Touches(machine, LeadStep(k, w, machine, c, task, version, f, stage), c)
  {
    hide Entries, FindVersion, BuildAt, Get, Add, VersionKey, Resume;
    var next := LeadStep(k, w, machine, c, task, version, f, stage);
    var pc := next.clients[c].pc;
    assert next.clients == machine.clients[c := machine.clients[c].(pc := pc)];
  }

  lemma MoveStepTouches(k: Setup, w: World, machine: Machine, c: nat)
    requires c in machine.clients
    ensures Touches(machine, MoveStep(k, w, machine, c), c)
  {
    hide Entries, Get, VersionKey, DigestKey, Resume, AfterEntries, AfterDigestLookup, LeadStep, Touches;
    forall m': Machine, pc | m'.clients == machine.clients && m'.builds == machine.builds
      ensures Touches(machine, AtPc(m', c, pc), c)
    {
      AtPcTouches(machine, m', c, pc);
    }
    assert Touches(machine, machine,
                   c) by { AtPcTouches(machine, machine, c, machine.clients[c].pc); Restored(machine, c); }
    match machine.clients[c].pc
    case Leading(task, version, f, stage) =>
      if f in machine.calls {
        LeadStepTouches(k, w, machine, c, task, version, f, stage);
      }
    case _ =>
  }

  lemma Restored(machine: Machine, c: nat)
    requires c in machine.clients
    ensures AtPc(machine, c, machine.clients[c].pc) == machine
  {
    assert machine.clients[c := machine.clients[c]] == machine.clients;
  }

  /** Nobody counts before arriving. */
  ghost predicate CountsArrived(machine: Machine) {
    machine.builds.Keys <= machine.clients.Keys
  }

  lemma CountsKept(k: Setup, w: World, machine: Machine, e: Event)
    requires CountsArrived(machine)
    ensures CountsArrived(EventStep(k, w, machine, e))
    ensures forall c | c in machine.clients ::
      c in EventStep(k, w, machine, e).clients
        && EventStep(k, w, machine, e).clients[c].query == machine.clients[c].query
  {
    hide MoveStep, NameOk;
    if e.Move? && e.client in machine.clients {
      MoveStepTouches(k, w, machine, e.client);
    }
  }

  /** The clients whose charts' scans are never wider than m. */
  ghost predicate Narrow(k: Setup, w: World, q: Query, m: nat) {
    NeverWider(k, w, q.repo, q.chart, m)
  }

  lemma EventBudget(k: Setup, w: World, machine: Machine, e: Event, c: nat, m: nat)
    requires CountsArrived(machine)
    requires c in machine.clients ==> WithinBudget(k, machine, c, m)
    requires c in EventStep(k, w, machine, e).clients && Narrow(k, w, EventStep(k, w, machine, e).clients[c].query, m)
    ensures WithinBudget(k, EventStep(k, w, machine, e), c, m)
  {
    hide MoveStep, NeverWider, NameOk;
    if e.Move? && e.client in machine.clients {
      MoveStepTouches(k, w, machine, e.client);
      if e.client == c {
        MoveStepBudget(k, w, machine, c, m);
      }
    }
  }

  lemma {:induction false} BudgetAlways(k: Setup, w: World, events: seq<Event>, c: nat, m: nat)
    ensures CountsArrived(Interleave(k, w, events))
    ensures var machine := Interleave(k, w, events);
      c in machine.clients && Narrow(k, w, machine.clients[c].query, m) ==> WithinBudget(k, machine, c, m)
    decreases events
  {
    hide EventStep, WithinBudget, Narrow;
    if events != [] {
      var n := |events| - 1;
      var before := Interleave(k, w, events[..n]);
      BudgetAlways(k, w, events[..n], c, m);
      CountsKept(k, w, before, events[n]);
      var machine := Interleave(k, w, events);
      if c in machine.clients && Narrow(k, w, machine.clients[c].query, m) {
        EventBudget(k, w, before, events[n], c, m);
      }
    }
  }

  /** Under any interleaving and however upstream changes, no client ever starts more builds than its request alone
      may: one by version, m by manifest digest, m + 1 by blob without signing and 2m + 1 with. */
  lemma InterleavedWorkBounded(k: Setup, w: World, events: seq<Event>, c: nat, m: nat)
    requires var machine := Interleave(k, w, events);
      c in machine.clients && NeverWider(k, w, machine.clients[c].query.repo, machine.clients[c].query.chart, m)
    ensures Builds(Interleave(k, w, events), c) <= Budget(k, Interleave(k, w, events).clients[c].query, m)
  {
    hide Interleave, NeverWider, Budget, Left;
    BudgetAlways(k, w, events, c, m);
  }

  /** What some clients have started together. */
  ghost function Together(machine: Machine, clients: seq<nat>): nat {
    if clients == [] then 0 else Builds(machine, clients[0]) + Together(machine, clients[1..])
  }

  /** Any number of clients asking for versions, of one chart or many, start at most one build each. */
  lemma {:induction false} VersionClientsWork(k: Setup, w: World, events: seq<Event>, clients: seq<nat>)
    requires var machine := Interleave(k, w, events);
      forall c | c in clients :: c in machine.clients && machine.clients[c].query.VersionQuery?
    ensures Together(Interleave(k, w, events), clients) <= |clients|
    decreases clients
  {
    hide Interleave;
    if clients != [] {
      var c := clients[0];
      assert c in clients;
      var q := Interleave(k, w, events).clients[c].query;
      ScanLimitBoundsWidth(k, w, q.repo, q.chart);
      InterleavedWorkBounded(k, w, events, c, k.opts.scanLimit);
      VersionClientsWork(k, w, events, clients[1..]);
    }
  }
}
