/** Nobody is stuck and nobody goes on for ever: every interleaving can be brought to its answers. */
module FlightProgress {
  import opened Wrappers
  import opened Oci
  import opened ArtifactCaches
  import opened CacheInvariants
  import opened Upstreams
  import opened Resolvers
  import opened Flights
  import opened FlightInvariants
  import opened FlightAnswers
  import opened FlightWork

  /** A step of the client would take it further: it has no answer yet, and waits for no flight still led. */
  predicate CanMove(m: Machine, c: nat) {
    c in m.clients
    && match m.clients[c].pc
       case Done(_) => false
       case Wait(_, _, f) => f in m.calls && m.calls[f].outcome.Some?
       case Leading(_, _, f, _) => f in m.calls
       case _ => true
  }

  // How far each control point is, at most, from an answer.

  function ScanSteps(k: Setup): nat {
    8 * k.opts.scanLimit + 9
  }

  /** A scan for a chart blob may be followed by one for a signature's. */
  function Fallback(k: Setup, want: Want): nat {
    if want == WantBlob then ScanSteps(k) else 0
  }

  function TaskSteps(k: Setup, task: Task): nat {
    match task
    case Whole => 0
    case FastPath => 2 * ScanSteps(k)
    case Scanning(want, candidates) => Fallback(k, want) + 8 * |candidates|
  }

  function StageSteps(stage: Stage): nat {
    match stage
    case Recheck => 6
    case ReadIndex => 5
    case BuildEntry(_) => 4
    case Store(_) => 3
    case Settle(_) => 2
  }

  function StepsLeft(k: Setup, pc: Pc): nat {
    match pc
    case Begin => 2 * ScanSteps(k) + 10
    case NeedEntries(ForLayer) => 2 * ScanSteps(k) + 9
    case NeedEntries(ForScan(want)) => Fallback(k, want) + ScanSteps(k)
    case Look(task, _) => TaskSteps(k, task) + 8
    case Join(task, _) => TaskSteps(k, task) + 7
    case Wait(task, _, _) => TaskSteps(k, task) + 6
    case Leading(task, _, _, stage) => TaskSteps(k, task) + StageSteps(stage)
    case Done(_) => 0
  }

  lemma ConcludeDescends(k: Setup, q: Query, want: Want, found: Result<Option<Artifact>, Error>)
    ensures StepsLeft(k, Conclude(k, q, want, found)) <= Fallback(k, want)
  {
    hide BlobIn, SignatureBlobIn;
  }

  lemma ContinueDescends(k: Setup, q: Query, want: Want, candidates: seq<IndexEntry>)
    ensures StepsLeft(k, Continue(k, q, want, candidates)) <= Fallback(k, want) + 8 * |candidates| + 8
  {
    hide Conclude;
    ConcludeDescends(k, q, want, Ok(None));
  }

  lemma ResumeDescends(k: Setup, q: Query, task: Task, r: Result<Artifact, Error>)
    ensures StepsLeft(k, Resume(k, q, task, r)) < TaskSteps(k, task) + 2
  {
    hide Conclude, Continue, Wanted, BlobIn;
    match task
    case Scanning(want, candidates) =>
      forall found ensures StepsLeft(k, Conclude(k, q, want, found)) <= Fallback(k, want) {
        ConcludeDescends(k, q, want, found);
      }
      if candidates != [] {
        ContinueDescends(k, q, want, candidates[1..]);
      }
    case _ =>
  }

  lemma AfterEntriesDescends(k: Setup, q: Query, purpose: Purpose, r: Result<seq<IndexEntry>, Error>)
    ensures StepsLeft(k, AfterEntries(k, q, purpose, r)) < StepsLeft(k, NeedEntries(purpose))
  {
    hide Conclude, Continue, FindLayerDigest;
    if purpose.ForScan? {
      forall found ensures StepsLeft(k, Conclude(k, q, purpose.want, found)) <= Fallback(k, purpose.want) {
        ConcludeDescends(k, q, purpose.want, found);
      }
      if r.Ok? {
        ContinueDescends(k, q, purpose.want, Candidates(k, r.value));
      }
    }
  }

  lemma DigestLookupDescends(k: Setup, q: Query, hit: Option<Artifact>)
    ensures StepsLeft(k, AfterDigestLookup(q, hit)) < StepsLeft(k, Begin)
  {
    hide BlobIn;
  }

  lemma LeadDescends(k: Setup, w: World, m: Machine, c: nat, task: Task, version: string, f: nat, stage: Stage)
    requires c in m.clients && f in m.calls && m.clients[c].pc == Leading(task, version, f, stage)
    ensures var m' := LeadStep(k, w, m, c, task, version, f, stage);
      c in m'.clients && StepsLeft(k, m'.clients[c].pc) < StepsLeft(k, m.clients[c].pc)
  {
    hide Get, Add, Entries, FindVersion, BuildAt, VersionKey, Resume;
    forall r ensures StepsLeft(k, Resume(k, m.clients[c].query, task, r)) < TaskSteps(k, task) + 2 {
      ResumeDescends(k, m.clients[c].query, task, r);
    }
  }

  /** Each step that can be taken brings its client nearer to an answer. */
  lemma MoveDescends(k: Setup, w: World, m: Machine, c: nat)
    requires CanMove(m, c)
    ensures var m' := MoveStep(k, w, m, c);
      c in m'.clients && StepsLeft(k, m'.clients[c].pc) < StepsLeft(k, m.clients[c].pc)
  {
    hide Get, Entries, VersionKey, DigestKey, LeadStep, Resume, AfterEntries, AfterDigestLookup, ScanSteps, TaskSteps;
    var q := m.clients[c].query;
    match m.clients[c].pc
    case Begin =>
      DigestLookupDescends(k, q, None);
      if !q.VersionQuery? {
        DigestLookupDescends(k, q, Get(m.cache, DigestKey(q.repo, q.chart, q.digest)).1);
      }
    case NeedEntries(purpose) => AfterEntriesDescends(k, q, purpose, Entries(w(m.now), q.repo, q.chart));
    case Look(task, version) =>
      var hit := Get(m.cache, VersionKey(q.repo, q.chart, version)).1;
      if hit.Some? {
        ResumeDescends(k, q, task, Ok(hit.value));
      }
    case Wait(task, _, f) => ResumeDescends(k, q, task, m.calls[f].outcome.value);
    case Leading(task, version, f, stage) => LeadDescends(k, w, m, c, task, version, f, stage);
    case _ =>
  }

  lemma OthersStay(k: Setup, w: World, m: Machine, e: Event, c: nat)
    requires c in m.clients && e != Move(c)
    ensures c in EventStep(k, w, m, e).clients && EventStep(k, w, m, e).clients[c] == m.clients[c]
  {
    hide MoveStep;
    if e.Move? && e.client in m.clients {
      MoveStepTouches(k, w, m, e.client);
    }
  }

  lemma NewcomersBegin(k: Setup, w: World, m: Machine, e: Event, c: nat)
    requires c !in m.clients && c in EventStep(k, w, m, e).clients
    ensures EventStep(k, w, m, e).clients[c].pc == Begin
  {
    hide MoveStep;
    if e.Move? && e.client in m.clients {
      MoveStepTouches(k, w, m, e.client);
    }
  }

  /** How often the client took a step that got it further. */
  ghost function Moves(k: Setup, w: World, events: seq<Event>, c: nat): nat {
    if events == [] then 0
    else
      var n := |events| - 1;
      Moves(k, w, events[..n], c)
      + if events[n] == Move(c) && CanMove(Interleave(k, w, events[..n]), c) then 1 else 0
  }

  /** In no run does a client take more than 16 steps for each entry a scan may visit, and 28 besides. */
  lemma MovesBounded(k: Setup, w: World, events: seq<Event>, c: nat)
    ensures Moves(k, w, events, c) <= 16 * k.opts.scanLimit + 28
  {
    MovesCounted(k, w, events, c);
  }

  lemma {:induction false} MovesCounted(k: Setup, w: World, events: seq<Event>, c: nat)
    ensures var m := Interleave(k, w, events);
      Moves(k, w, events, c) + (if c in m.clients then StepsLeft(k, m.clients[c].pc) else StepsLeft(k, Begin))
      <= 16 * k.opts.scanLimit + 28
    decreases events
  {
    hide MoveStep, CanMove;
    if events != [] {
      var n := |events| - 1;
      var m := Interleave(k, w, events[..n]);
      MovesCounted(k, w, events[..n], c);
      if c !in m.clients {
        CannotMove(m, c);
        if c in EventStep(k, w, m, events[n]).clients {
          NewcomersBegin(k, w, m, events[n], c);
        }
      } else if events[n] != Move(c) {
        OthersStay(k, w, m, events[n], c);
      } else if CanMove(m, c) {
        MoveDescends(k, w, m, c);
      } else {
        StuckStays(k, w, m, c);
      }
    }
  }

  lemma CannotMove(m: Machine, c: nat)
    requires c !in m.clients
    ensures !CanMove(m, c)
  {
  }

  lemma StuckStays(k: Setup, w: World, m: Machine, c: nat)
    requires c in m.clients && !CanMove(m, c)
    ensures MoveStep(k, w, m, c) == m
  {
  }

  /** Whoever has no answer yet can move, or waits for a flight whose leader can. */
  lemma SomeoneCanMove(k: Setup, w: World, events: seq<Event>, c: nat) returns (d: nat)
    requires var m := Interleave(k, w, events); c in m.clients && !m.clients[c].pc.Done?
    ensures CanMove(Interleave(k, w, events), d)
  {
    hide Interleave, Lawful, Invariant, StageOk;
    SealedLawsHold(k, w);
    InvariantAlways(k, w, SealedLaws(k), events);
    var m := Interleave(k, w, events);
    var l := SealedLaws(k);
    ClientOk(k, w, l, m, c);
    d := c;
    if m.clients[c].pc.Wait? {
      WaitersAreServed(k, w, l, m, c);
      if Led(m, m.clients[c].pc.flight) {
        d := m.calls[m.clients[c].pc.flight].leader;
      }
    }
  }

  /** All that the clients have left to do. */
  ghost function Effort(k: Setup, m: Machine, clients: set<nat>): nat
    requires clients <= m.clients.Keys
  {
    if clients == {} then 0
    else
      var c :| c in clients;
      StepsLeft(k, m.clients[c].pc) + Effort(k, m, clients - {c})
  }

  lemma {:induction false} EffortSplit(k: Setup, m: Machine, clients: set<nat>, c: nat)
    requires clients <= m.clients.Keys && c in clients
    ensures Effort(k, m, clients) == StepsLeft(k, m.clients[c].pc) + Effort(k, m, clients - {c})
  {
    var d :| d in clients && Effort(k, m, clients) == StepsLeft(k, m.clients[d].pc) + Effort(k, m, clients - {d});
    if d != c {
      EffortSplit(k, m, clients - {d}, c);
      EffortSplit(k, m, clients - {c}, d);
      assert clients - {d} - {c} == clients - {c} - {d};
    }
  }

  lemma {:induction false} EffortSame(k: Setup, m: Machine, m': Machine, clients: set<nat>)
    requires clients <= m.clients.Keys && clients <= m'.clients.Keys
    requires forall c | c in clients :: m'.clients[c] == m.clients[c]
    ensures Effort(k, m', clients) == Effort(k, m, clients)
  {
    if c :| c in clients {
      EffortSplit(k, m, clients, c);
      EffortSplit(k, m', clients, c);
      EffortSame(k, m, m', clients - {c});
    }
  }

  lemma MoveTakesEffort(k: Setup, w: World, m: Machine, c: nat)
    requires CanMove(m, c)
    ensures var m' := MoveStep(k, w, m, c);
      m'.clients.Keys == m.clients.Keys && Effort(k, m', m'.clients.Keys) < Effort(k, m, m.clients.Keys)
  {
    hide MoveStep, StepsLeft;
    MoveStepTouches(k, w, m, c);
    MoveDescends(k, w, m, c);
    var m' := MoveStep(k, w, m, c);
    var all := m.clients.Keys;
    EffortSplit(k, m, all, c);
    EffortSplit(k, m', all, c);
    EffortSame(k, m, m', all - {c});
  }

  /** From wherever an interleaving has got to, its clients can all be brought to their answers, with no one else
      arriving. */
  lemma {:induction false} EveryoneCanFinish(k: Setup, w: World, events: seq<Event>) returns (more: seq<Event>)
    ensures forall e | e in more :: e.Move?
    ensures var m, m' := Interleave(k, w, events), Interleave(k, w, events + more);
      m'.clients.Keys == m.clients.Keys && forall c | c in m'.clients :: m'.clients[c].pc.Done?
    decreases Effort(k, Interleave(k, w, events), Interleave(k, w, events).clients.Keys)
  {
    hide MoveStep, CanMove, StepsLeft, Interleave;
    var m := Interleave(k, w, events);
    more := [];
    assert events + [] == events;
    if c :| c in m.clients && !m.clients[c].pc.Done? {
      var d := SomeoneCanMove(k, w, events, c);
      MoveTakesEffort(k, w, m, d);
      OneMore(k, w, events, d);
      more := EveryoneCanFinish(k, w, events + [Move(d)]);
      assert events + [Move(d)] + more == events + ([Move(d)] + more);
      more := [Move(d)] + more;
    }
  }

  lemma OneMore(k: Setup, w: World, events: seq<Event>, d: nat)
    requires CanMove(Interleave(k, w, events), d)
    ensures Interleave(k, w, events + [Move(d)]) == MoveStep(k, w, Interleave(k, w, events), d)
  {
    hide MoveStep;
    assert (events + [Move(d)])[..|events|] == events;
  }
}
