/** Many index requests at once, against a clock that only moves forward. */
module IndexRuns {
  import opened Wrappers
  import opened Oci
  import opened Upstreams
  import opened IndexCaches

  /** A successful re-fetch of repo, stored at a moment. */
  datatype Refresh = Refresh(repo: string, idx: Index, at: int)

  /** One upstream fetch: under way, answered with an index not yet stored, or over. */
  datatype Flight =
    | Flying(repo: string)
    | Answered(repo: string, idx: Index)
    | Landed(repo: string, idx: Index, at: int)
    | Lost(repo: string, error: Error)

  /** What a call's result rests on: the allowlist, a fresh entry it read, the flight it joined landing, or that
      flight failing and what it read in the cache then. */
  datatype Basis =
    | Refusal
    | FreshEntry(entry: CachedIndex)
    | Landing(flight: nat)
    | Loss(flight: nat, error: Error, read: Option<CachedIndex>)

  /** Each control point precedes one atomic step; since is when the call began. */
  datatype Pc =
    | Reading
    | Deciding(entry: Option<CachedIndex>)
    | Joining
    | Waiting(flight: nat)
    | StaleDeciding(flight: nat, error: Error, entry: Option<CachedIndex>)
    | Returned(result: Result<Index, Error>, decided: int, basis: Basis)

  datatype Call = Call(repo: string, since: int, pc: Pc)

  datatype Machine = Machine(
    now: int, cache: IndexMap, calls: map<nat, Call>,
    fetches: map<nat, Flight>, flying: map<string, nat>, next: nat,
    refreshes: set<Refresh>)

  datatype Event =
    | Tick(d: nat)
    | Arrive(call: nat, repo: string)
    | Step(call: nat)
    | Reply(flight: nat, outcome: Result<Index, Error>)
    | Store(flight: nat, lag: nat, victim: string)

  function Start(now: int): Machine {
    Machine(now, map[], map[], map[], map[], 0, {})
  }

  /** Fixed over a run: the limits and the host allowlist. */
  datatype Policy = Policy(limits: Limits, allowed: string -> bool)

  function At(m: Machine, c: nat, pc: Pc): Machine
    requires c in m.calls
  {
    m.(calls := m.calls[c := m.calls[c].(pc := pc)])
  }

  function CallStep(p: Policy, m: Machine, c: nat): Machine
    requires c in m.calls
  {
    var repo := m.calls[c].repo;
    match m.calls[c].pc
    case Reading =>
      if !p.allowed(repo) then At(m, c, Returned(Err(HostNotAllowed), m.now, Refusal))
      else At(m, c, Deciding(EntryFor(m.cache, repo)))
    case Deciding(entry) =>
      if entry.Some? && Fresh(p.limits, entry.value, m.now) then
        At(m, c, Returned(Ok(entry.value.idx), m.now, FreshEntry(entry.value)))
      else At(m, c, Joining)
    case Joining =>
      if repo in m.flying then At(m, c, Waiting(m.flying[repo]))
      else
        At(m.(fetches := m.fetches[m.next := Flying(repo)], flying := m.flying[repo := m.next], next := m.next + 1),
           c, Waiting(m.next))
    case Waiting(f) =>
      if f !in m.fetches then m
      else (match m.fetches[f]
        case Landed(_, idx, at) => At(m, c, Returned(Ok(idx), at, Landing(f)))
        case Lost(_, e) => At(m, c, StaleDeciding(f, e, EntryFor(m.cache, repo)))
        case _ => m)
    case StaleDeciding(f, e, entry) =>
      At(m, c, Returned(StaleFor(p.limits, entry, e, m.now), m.now, Loss(f, e, entry)))
    case Returned(_, _, _) => m
  }

  /** Upstream answers the flight: a failure ends it, an index is about to be stored. */
  function ReplyStep(m: Machine, f: nat, outcome: Result<Index, Error>): Machine {
    if f in m.fetches && m.fetches[f].Flying? then
      var repo := m.fetches[f].repo;
      match outcome
      case Ok(idx) => m.(fetches := m.fetches[f := Answered(repo, idx)])
      case Err(e) => m.(fetches := m.fetches[f := Lost(repo, e)], flying := m.flying - {repo})
    else m
  }

  /** The flight stores its index, time passing inside the critical section, and ends. */
  function StoreStep(p: Policy, m: Machine, f: nat, lag: nat, victim: string): Machine {
    if f in m.fetches && m.fetches[f].Answered? then
      var repo, idx, at := m.fetches[f].repo, m.fetches[f].idx, m.now + lag;
      m.(now := at,
         cache := Stored(p.limits, m.cache, repo, idx, m.now, at, victim),
         fetches := m.fetches[f := Landed(repo, idx, at)],
         flying := m.flying - {repo},
         refreshes := m.refreshes + {Refresh(repo, idx, at)})
    else m
  }

  ghost function EventStep(p: Policy, m: Machine, e: Event): Machine {
    match e
    case Tick(d) => m.(now := m.now + d)
    case Arrive(c, repo) => if c in m.calls then m else m.(calls := m.calls[c := Call(repo, m.now, Reading)])
    case Step(c) => if c in m.calls then CallStep(p, m, c) else m
    case Reply(f, outcome) => ReplyStep(m, f, outcome)
    case Store(f, lag, victim) =>
      if VictimOk(p.limits, m.cache, m.now, victim) then StoreStep(p, m, f, lag, victim) else m
  }

  ghost function Run(p: Policy, start: int, events: seq<Event>): Machine {
    if events == [] then Start(start)
    else EventStep(p, Run(p, start, events[..|events| - 1]), events[|events| - 1])
  }

  // The invariant.

  ghost predicate Refreshed(m: Machine, repo: string, e: CachedIndex) {
    Refresh(repo, e.idx, e.fetched) in m.refreshes && e.fetched <= m.now
  }

  /** The index was stored for this repo by a successful fetch no older than the widest window at some moment of the
      call. */
  ghost predicate Justified(p: Policy, m: Machine, call: Call, idx: Index, decided: int) {
    exists at: int :: Refresh(call.repo, idx, at) in m.refreshes && JustifiedAt(p, m, call, at, decided)
  }

  ghost predicate JustifiedAt(p: Policy, m: Machine, call: Call, at: int, decided: int) {
    at <= decided && decided - at <= MaxAge(p.limits) && call.since <= decided <= m.now
  }

  /** The result is what its basis makes it. */
  ghost predicate Explained(p: Policy, m: Machine, repo: string, result: Result<Index, Error>, decided: int,
                            basis: Basis) {
    match basis
    case Refusal => !p.allowed(repo) && result == Err(HostNotAllowed)
    case FreshEntry(entry) =>
      p.allowed(repo) && decided - entry.fetched < p.limits.ttl && result == Ok(entry.idx)
    case Landing(f) =>
      p.allowed(repo) && result.Ok? && f in m.fetches && m.fetches[f] == Landed(repo, result.value, decided)
    case Loss(f, e, read) =>
      && p.allowed(repo) && f in m.fetches && m.fetches[f] == Lost(repo, e)
      && result == (if p.limits.staleTtl > 0 && e != NotFound && e != HostNotAllowed
                       && read.Some? && decided - read.value.fetched <= p.limits.staleTtl
                    then Ok(read.value.idx) else Err(e))
  }

  ghost predicate PcOk(p: Policy, m: Machine, call: Call, pc: Pc) {
    && call.since <= m.now
    && (match pc
       case Deciding(Some(e)) => Refreshed(m, call.repo, e)
       case Waiting(f) =>
         f in m.fetches && m.fetches[f].repo == call.repo && (m.fetches[f].Landed? ==> call.since <= m.fetches[f].at)
       case StaleDeciding(f, e, entry) =>
         f in m.fetches && m.fetches[f] == Lost(call.repo, e) && (entry.Some? ==> Refreshed(m, call.repo, entry.value))
       case Returned(r, decided, basis) =>
         (r.Ok? ==> Justified(p, m, call, r.value, decided)) && Explained(p, m, call.repo, r, decided, basis)
       case _ => true)
    && (!p.allowed(call.repo) ==> pc.Reading? || pc.Returned?)
  }

  ghost predicate FetchOk(m: Machine, f: nat)
    requires f in m.fetches
  {
    && f < m.next
    && (m.fetches[f].Landed? ==> Refreshed(m, m.fetches[f].repo, CachedIndex(m.fetches[f].idx, m.fetches[f].at)))
    && (m.fetches[f].Flying? || m.fetches[f].Answered? ==>
          m.fetches[f].repo in m.flying && m.flying[m.fetches[f].repo] == f)
  }

  ghost predicate FlyingOk(m: Machine, repo: string)
    requires repo in m.flying
  {
    var f := m.flying[repo];
    f in m.fetches && m.fetches[f].repo == repo && (m.fetches[f].Flying? || m.fetches[f].Answered?)
  }

  ghost predicate Invariant(p: Policy, m: Machine) {
    && |m.cache| <= MAX_INDEXES
    && (forall repo | repo in m.cache :: Refreshed(m, repo, m.cache[repo]))
    && (forall c | c in m.calls :: PcOk(p, m, m.calls[c], m.calls[c].pc))
    && (forall f | f in m.fetches :: FetchOk(m, f))
    && (forall repo | repo in m.flying :: FlyingOk(m, repo))
  }

  /** A flight only moves forward, and stores no earlier than now. */
  ghost predicate Successor(m: Machine, f: Flight, f': Flight) {
    f' == f || (f'.repo == f.repo && (f.Flying? || f.Answered?) && (f'.Landed? ==> m.now <= f'.at))
  }

  lemma CallMoves(p: Policy, m: Machine, c: nat, pc: Pc)
    requires Invariant(p, m) && c in m.calls && PcOk(p, m, m.calls[c], pc)
    ensures Invariant(p, At(m, c, pc))
  {
  }

  /** Machines that differ only by a later clock, more refreshes and forward flights keep their calls in order. */
  lemma CallsPersist(p: Policy, m: Machine, m': Machine)
    requires Invariant(p, m) && m'.calls == m.calls
    requires m.now <= m'.now && m.refreshes <= m'.refreshes
    requires forall f | f in m.fetches :: f in m'.fetches && Successor(m, m.fetches[f], m'.fetches[f])
    ensures forall c | c in m'.calls :: PcOk(p, m', m'.calls[c], m'.calls[c].pc)
  {
  }

  lemma TakeOff(p: Policy, m: Machine, repo: string) returns (m': Machine)
    requires Invariant(p, m) && repo !in m.flying
    ensures m' == m.(fetches := m.fetches[m.next := Flying(repo)], flying := m.flying[repo := m.next],
                     next := m.next + 1)
    ensures Invariant(p, m')
  {
    m' := m.(fetches := m.fetches[m.next := Flying(repo)], flying := m.flying[repo := m.next], next := m.next + 1);
    assert m.next in m.fetches ==> FetchOk(m, m.next);
    CallsPersist(p, m, m');
    forall f | f in m'.fetches ensures FetchOk(m', f) { assert f in m.fetches ==> FetchOk(m, f); }
    forall r | r in m'.flying ensures FlyingOk(m', r) { assert r in m.flying ==> FlyingOk(m, r); }
  }

  lemma StaleJustified(p: Policy, m: Machine, call: Call, f: nat, e: Error, entry: Option<CachedIndex>)
    requires PcOk(p, m, call, StaleDeciding(f, e, entry))
    ensures PcOk(p, m, call, Returned(StaleFor(p.limits, entry, e, m.now), m.now, Loss(f, e, entry)))
  {
  }

  lemma CallOk(p: Policy, m: Machine, c: nat)
    requires Invariant(p, m) && c in m.calls
    ensures PcOk(p, m, m.calls[c], m.calls[c].pc)
  {
  }

  lemma ReadKeeps(p: Policy, m: Machine, c: nat)
    requires Invariant(p, m) && c in m.calls && m.calls[c].pc.Reading?
    ensures Invariant(p, CallStep(p, m, c))
  {
    var repo := m.calls[c].repo;
    if p.allowed(repo) {
      CallMoves(p, m, c, Deciding(EntryFor(m.cache, repo)));
    } else {
      CallMoves(p, m, c, Returned(Err(HostNotAllowed), m.now, Refusal));
    }
  }

  lemma DecideKeeps(p: Policy, m: Machine, c: nat, entry: Option<CachedIndex>)
    requires Invariant(p, m) && c in m.calls && m.calls[c].pc == Deciding(entry)
    ensures Invariant(p, CallStep(p, m, c))
  {
    CallOk(p, m, c);
    if entry.Some? && Fresh(p.limits, entry.value, m.now) {
      var e := entry.value;
      assert Refresh(m.calls[c].repo, e.idx, e.fetched) in m.refreshes
          && JustifiedAt(p, m, m.calls[c], e.fetched, m.now);
      CallMoves(p, m, c, Returned(Ok(e.idx), m.now, FreshEntry(e)));
    } else {
      CallMoves(p, m, c, Joining);
    }
  }

  lemma FlyingServes(p: Policy, m: Machine, c: nat)
    requires Invariant(p, m) && c in m.calls && m.calls[c].pc.Joining? && m.calls[c].repo in m.flying
    ensures PcOk(p, m, m.calls[c], Waiting(m.flying[m.calls[c].repo]))
  {
    hide Refreshed, FetchOk;
    CallOk(p, m, c);
    assert FlyingOk(m, m.calls[c].repo);
  }

  lemma JoinKeeps(p: Policy, m: Machine, c: nat)
    requires Invariant(p, m) && c in m.calls && m.calls[c].pc.Joining?
    ensures Invariant(p, CallStep(p, m, c))
  {
    hide Invariant, PcOk, Refreshed, FetchOk, FlyingOk;
    var repo := m.calls[c].repo;
    if repo in m.flying {
      FlyingServes(p, m, c);
      CallMoves(p, m, c, Waiting(m.flying[repo]));
    } else {
      var m' := TakeOff(p, m, repo);
      FlyingServes(p, m', c);
      CallMoves(p, m', c, Waiting(m.next));
    }
  }

  lemma WaitKeeps(p: Policy, m: Machine, c: nat, f: nat)
    requires LimitsOk(p.limits) && Invariant(p, m) && c in m.calls && m.calls[c].pc == Waiting(f)
    ensures Invariant(p, CallStep(p, m, c))
  {
    CallOk(p, m, c);
    assert FetchOk(m, f);
    match m.fetches[f]
    case Landed(repo, idx, at) =>
      assert Refresh(m.calls[c].repo, idx, at) in m.refreshes && JustifiedAt(p, m, m.calls[c], at, at);
      CallMoves(p, m, c, Returned(Ok(idx), at, Landing(f)));
    case Lost(repo, e) => CallMoves(p, m, c, StaleDeciding(f, e, EntryFor(m.cache, repo)));
    case _ =>
  }

  lemma CallKeeps(p: Policy, m: Machine, c: nat)
    requires LimitsOk(p.limits) && Invariant(p, m) && c in m.calls
    ensures Invariant(p, CallStep(p, m, c))
  {
    match m.calls[c].pc
    case Reading => ReadKeeps(p, m, c);
    case Deciding(entry) => DecideKeeps(p, m, c, entry);
    case Joining => JoinKeeps(p, m, c);
    case Waiting(f) => WaitKeeps(p, m, c, f);
    case StaleDeciding(f, e, entry) =>
      CallOk(p, m, c);
      StaleJustified(p, m, m.calls[c], f, e, entry);
      CallMoves(p, m, c, Returned(StaleFor(p.limits, entry, e, m.now), m.now, Loss(f, e, entry)));
    case Returned(_, _, _) =>
  }

  lemma ReplyKeeps(p: Policy, m: Machine, f: nat, outcome: Result<Index, Error>)
    requires Invariant(p, m)
    ensures Invariant(p, ReplyStep(m, f, outcome))
  {
    if f in m.fetches && m.fetches[f].Flying? {
      var m' := ReplyStep(m, f, outcome);
      CallsPersist(p, m, m');
      assert FetchOk(m, f);
      forall g | g in m'.fetches ensures FetchOk(m', g) { assert FetchOk(m, g); }
      forall r | r in m'.flying ensures FlyingOk(m', r) { assert FlyingOk(m, r); }
    }
  }

  lemma StoreCacheRefreshed(p: Policy, m: Machine, f: nat, lag: nat, victim: string)
    requires Invariant(p, m) && f in m.fetches && m.fetches[f].Answered?
    requires VictimOk(p.limits, m.cache, m.now, victim)
    ensures var m' := StoreStep(p, m, f, lag, victim);
      |m'.cache| <= MAX_INDEXES && forall repo | repo in m'.cache :: Refreshed(m', repo, m'.cache[repo])
  {
    hide Stored, VictimOk, PcOk, FetchOk, FlyingOk, Discarded;
    var repo, idx := m.fetches[f].repo, m.fetches[f].idx;
    StoreBounded(p.limits, m.cache, repo, idx, m.now, m.now + lag, victim);
    var m' := StoreStep(p, m, f, lag, victim);
    forall r | r in m'.cache ensures Refreshed(m', r, m'.cache[r]) {
      StoredExactly(p.limits, m.cache, repo, idx, m.now, m.now + lag, victim, r);
      assert r != repo ==> Refreshed(m, r, m.cache[r]);
    }
  }

  lemma LandingKeepsFlights(p: Policy, m: Machine, m': Machine, f: nat, idx: Index, at: int)
    requires Invariant(p, m) && f in m.fetches && m.fetches[f] == Answered(m.fetches[f].repo, idx) && m.now <= at
    requires m'.now == at && m'.next == m.next && m'.refreshes == m.refreshes + {Refresh(m.fetches[f].repo, idx, at)}
    requires m'.fetches == m.fetches[f := Landed(m.fetches[f].repo, idx, at)]
        && m'.flying == m.flying - {m.fetches[f].repo}
    ensures forall g | g in m'.fetches :: FetchOk(m', g)
    ensures forall r | r in m'.flying :: FlyingOk(m', r)
  {
    assert FetchOk(m, f);
    forall g | g in m'.fetches ensures FetchOk(m', g) {
      assert FetchOk(m, g);
    }
    forall r | r in m'.flying ensures FlyingOk(m', r) {
      assert FlyingOk(m, r);
    }
  }

  lemma StoreMovesOn(p: Policy, m: Machine, f: nat, lag: nat, victim: string)
    requires f in m.fetches && m.fetches[f].Answered?
    ensures var m' := StoreStep(p, m, f, lag, victim);
      && m'.calls == m.calls && m.now <= m'.now && m.refreshes <= m'.refreshes
      && forall g | g in m.fetches :: g in m'.fetches && Successor(m, m.fetches[g], m'.fetches[g])
  {
    hide Stored;
  }

  lemma StoreKeepsFlights(p: Policy, m: Machine, f: nat, lag: nat, victim: string)
    requires Invariant(p, m) && f in m.fetches && m.fetches[f].Answered?
    ensures var m' := StoreStep(p, m, f, lag, victim);
      (forall g | g in m'.fetches :: FetchOk(m', g)) && (forall r | r in m'.flying :: FlyingOk(m', r))
  {
    hide Stored, Invariant, FetchOk, FlyingOk;
    LandingKeepsFlights(p, m, StoreStep(p, m, f, lag, victim), f, m.fetches[f].idx, m.now + lag);
  }

  lemma StoreKeeps(p: Policy, m: Machine, f: nat, lag: nat, victim: string)
    requires Invariant(p, m) && VictimOk(p.limits, m.cache, m.now, victim)
    ensures Invariant(p, StoreStep(p, m, f, lag, victim))
  {
    if f in m.fetches && m.fetches[f].Answered? {
      hide StoreStep, Successor, VictimOk, PcOk, FetchOk, FlyingOk, Refreshed;
      StoreCacheRefreshed(p, m, f, lag, victim);
      StoreMovesOn(p, m, f, lag, victim);
      CallsPersist(p, m, StoreStep(p, m, f, lag, victim));
      StoreKeepsFlights(p, m, f, lag, victim);
    }
  }

  lemma QuietKeeps(p: Policy, m: Machine, m': Machine)
    requires Invariant(p, m)
    requires m.now <= m'.now && m' == m.(now := m'.now, calls := m'.calls)
    requires forall c | c in m'.calls ::
        (c in m.calls && m'.calls[c] == m.calls[c]) || m'.calls[c] == Call(m'.calls[c].repo, m.now, Reading)
    ensures Invariant(p, m')
  {
  }

  /** The invariant holds at every step of every interleaving. */
  lemma {:induction false} InvariantAlways(p: Policy, start: int, events: seq<Event>)
    requires LimitsOk(p.limits)
    ensures Invariant(p, Run(p, start, events))
    decreases events
  {
    hide Invariant, CallStep, ReplyStep, StoreStep, Survivors;
    if events == [] {
      assert Invariant(p, Start(start)) by { StartOk(p, start); }
    } else {
      var m := Run(p, start, events[..|events| - 1]);
      InvariantAlways(p, start, events[..|events| - 1]);
      match events[|events| - 1]
      case Tick(d) => QuietKeeps(p, m, m.(now := m.now + d));
      case Arrive(c, repo) =>
        if c !in m.calls { QuietKeeps(p, m, m.(calls := m.calls[c := Call(repo, m.now, Reading)])); }
      case Step(c) => if c in m.calls { CallKeeps(p, m, c); }
      case Reply(f, outcome) => ReplyKeeps(p, m, f, outcome);
      case Store(f, lag, victim) =>
        if VictimOk(p.limits, m.cache, m.now, victim) { StoreKeeps(p, m, f, lag, victim); }
    }
  }

  lemma StartOk(p: Policy, start: int)
    ensures Invariant(p, Start(start))
  {
  }

  /** Any index returned for a repo was stored by a successful fetch of that repo, and at some moment
      of the call was no older than the wider of the two windows. */
  lemma ReturnedIndexJustified(p: Policy, start: int, events: seq<Event>, c: nat)
    requires LimitsOk(p.limits)
    requires var m := Run(p, start, events); c in m.calls && m.calls[c].pc.Returned? && m.calls[c].pc.result.Ok?
    ensures var m := Run(p, start, events);
      Justified(p, m, m.calls[c], m.calls[c].pc.result.value, m.calls[c].pc.decided)
  {
    hide Run, EventStep;
    InvariantAlways(p, start, events);
    CallOk(p, Run(p, start, events), c);
  }

  /** What a finished call returns rests on the allowlist, on an entry younger than the ttl, on its own flight's
      index, or, that flight lost: exactly if the error is neither a 404 nor a refusal, stale answers are allowed, and
      the entry it read then is within their window, on that entry; otherwise it is the error. */
  lemma ReturnedExactly(p: Policy, start: int, events: seq<Event>, c: nat)
    requires LimitsOk(p.limits)
    requires var m := Run(p, start, events); c in m.calls && m.calls[c].pc.Returned?
    ensures var m := Run(p, start, events);
      var (pc, repo) := (m.calls[c].pc, m.calls[c].repo);
      match pc.basis
      case Refusal => !p.allowed(repo) && pc.result == Err(HostNotAllowed)
      case FreshEntry(entry) =>
        p.allowed(repo) && pc.decided - entry.fetched < p.limits.ttl && pc.result == Ok(entry.idx)
      case Landing(f) =>
        p.allowed(repo) && pc.result.Ok? && f in m.fetches && m.fetches[f] == Landed(repo, pc.result.value, pc.decided)
      case Loss(f, e, read) =>
        && p.allowed(repo) && f in m.fetches && m.fetches[f] == Lost(repo, e)
        && pc.result == (if p.limits.staleTtl > 0 && e != NotFound && e != HostNotAllowed
                            && read.Some? && pc.decided - read.value.fetched <= p.limits.staleTtl
                         then Ok(read.value.idx) else Err(e))
  {
    hide Run, EventStep, Justified;
    InvariantAlways(p, start, events);
    CallOk(p, Run(p, start, events), c);
  }

  /** So a call whose own fetch ended in a 404 or a policy refusal returns that error and nothing stale;
      a call for a host off the allowlist returns the refusal. */
  lemma AuthoritativeNeverMasked(p: Policy, start: int, events: seq<Event>, c: nat)
    requires LimitsOk(p.limits)
    requires var m := Run(p, start, events); c in m.calls && m.calls[c].pc.Returned?
    ensures var m := Run(p, start, events);
      var pc := m.calls[c].pc;
      && (!p.allowed(m.calls[c].repo) ==> pc.result == Err(HostNotAllowed))
      && (pc.basis.Landing? || pc.basis.Loss? ==>
            && pc.basis.flight in m.fetches && m.fetches[pc.basis.flight].repo == m.calls[c].repo
            && (m.fetches[pc.basis.flight].Lost?
                && m.fetches[pc.basis.flight].error in {NotFound, HostNotAllowed} ==>
                  pc.result == Err(m.fetches[pc.basis.flight].error)))
  {
    hide Run, EventStep;
    ReturnedExactly(p, start, events, c);
  }

  /** The moment of a read: the step before which the call was about to read, or its flight was lost, and the cache
      held this for the repo. */
  ghost predicate ReadBy(m: Machine, event: Event, c: nat, repo: string, read: Option<CachedIndex>, lost: Option<nat>) {
    && event == Step(c) && c in m.calls && m.calls[c].repo == repo
    && (if read.Some? then repo in m.cache && m.cache[repo] == read.value else repo !in m.cache)
    && (match lost
        case None => m.calls[c].pc == Reading
        case Some(f) => m.calls[c].pc == Waiting(f) && f in m.fetches && m.fetches[f].Lost?)
  }

  ghost predicate WasRead(p: Policy, start: int, events: seq<Event>, c: nat, repo: string, read: Option<CachedIndex>,
                          lost: Option<nat>) {
    exists i :: 0 <= i < |events| && ReadBy(Run(p, start, events[..i]), events[i], c, repo, read, lost)
  }

  /** What a control point carries was read in the cache. */
  ghost predicate PcRead(p: Policy, start: int, events: seq<Event>, c: nat, repo: string, pc: Pc) {
    match pc
    case Deciding(entry) => WasRead(p, start, events, c, repo, entry, None)
    case StaleDeciding(f, _, entry) => WasRead(p, start, events, c, repo, entry, Some(f))
    case Returned(_, _, FreshEntry(entry)) => WasRead(p, start, events, c, repo, Some(entry), None)
    case Returned(_, _, Loss(f, _, read)) => WasRead(p, start, events, c, repo, read, Some(f))
    case _ => true
  }

  lemma WasReadBefore(p: Policy, start: int, events: seq<Event>, c: nat, repo: string, pc: Pc)
    requires events != [] && PcRead(p, start, events[..|events| - 1], c, repo, pc)
    ensures PcRead(p, start, events, c, repo, pc)
  {
    hide Run, ReadBy;
    var earlier := events[..|events| - 1];
    forall i | 0 <= i < |earlier| ensures earlier[..i] == events[..i] && earlier[i] == events[i] {
    }
  }

  /** Whatever a call's result rests on in the cache, the cache did hold for its repo, when the call began to look or,
      for a stale answer, once its own flight was lost. */
  lemma {:induction false} ReadFromCache(p: Policy, start: int, events: seq<Event>, c: nat)
    requires c in Run(p, start, events).calls
    ensures var call := Run(p, start, events).calls[c]; PcRead(p, start, events, c, call.repo, call.pc)
    decreases events
  {
    hide WasRead, PcRead, EventStep;
    if events != [] {
      var n := |events| - 1;
      var m := Run(p, start, events[..n]);
      if c in m.calls {
        ReadFromCache(p, start, events[..n], c);
        WasReadBefore(p, start, events, c, m.calls[c].repo, m.calls[c].pc);
      }
      if events[n] != Step(c) {
        OthersStay(p, m, events[n], c);
        FreshlyReading(p, start, events, c);
      } else {
        StepCarries(p, start, events, c);
      }
    }
  }

  lemma OthersStay(p: Policy, m: Machine, e: Event, c: nat)
    requires e != Step(c)
    ensures c in m.calls ==> c in EventStep(p, m, e).calls && EventStep(p, m, e).calls[c] == m.calls[c]
    ensures c !in m.calls && c in EventStep(p, m, e).calls ==> EventStep(p, m, e).calls[c].pc == Reading
  {
    hide Stored, VictimOk, StaleFor, Fresh;
  }

  lemma StepReads(p: Policy, start: int, events: seq<Event>, c: nat)
    requires events != [] && events[|events| - 1] == Step(c)
    requires c in Run(p, start, events[..|events| - 1]).calls
    ensures var m := Run(p, start, events[..|events| - 1]);
      var call := m.calls[c];
      var read := EntryFor(m.cache, call.repo);
      && (call.pc.Reading? ==> WasRead(p, start, events, c, call.repo, read, None))
      && (call.pc.Waiting? && call.pc.flight in m.fetches && m.fetches[call.pc.flight].Lost? ==>
            WasRead(p, start, events, c, call.repo, read, Some(call.pc.flight)))
  {
    hide Run;
    var n := |events| - 1;
    var m := Run(p, start, events[..n]);
    var call := m.calls[c];
    var read := EntryFor(m.cache, call.repo);
    assert call.pc.Reading? ==> ReadBy(m, events[n], c, call.repo, read, None);
    assert call.pc.Waiting? && call.pc.flight in m.fetches && m.fetches[call.pc.flight].Lost? ==>
        ReadBy(m, events[n], c, call.repo, read, Some(call.pc.flight));
  }

  lemma FreshlyReading(p: Policy, start: int, events: seq<Event>, c: nat)
    ensures forall repo :: PcRead(p, start, events, c, repo, Reading)
  {
  }

  /** One step of the call: what its next control point carries was read now, or carried already. */
  lemma StepCarries(p: Policy, start: int, events: seq<Event>, c: nat)
    requires events != [] && events[|events| - 1] == Step(c)
    requires var m := Run(p, start, events[..|events| - 1]);
      c in m.calls ==> PcRead(p, start, events, c, m.calls[c].repo, m.calls[c].pc)
    ensures var m' := EventStep(p, Run(p, start, events[..|events| - 1]), Step(c));
      c in m'.calls ==> PcRead(p, start, events, c, m'.calls[c].repo, m'.calls[c].pc)
  {
    hide WasRead, StaleFor, Fresh, Run;
    if c in Run(p, start, events[..|events| - 1]).calls {
      StepReads(p, start, events, c);
    }
  }

  /** No repo is ever fetched twice at once. */
  lemma OneFetchPerRepo(p: Policy, start: int, events: seq<Event>, f: nat, g: nat)
    requires LimitsOk(p.limits)
    requires var m := Run(p, start, events);
      && f in m.fetches && g in m.fetches && m.fetches[f].repo == m.fetches[g].repo
      && (m.fetches[f].Flying? || m.fetches[f].Answered?) && (m.fetches[g].Flying? || m.fetches[g].Answered?)
    ensures f == g
  {
    hide Run, EventStep;
    InvariantAlways(p, start, events);
    assert FetchOk(Run(p, start, events), f) && FetchOk(Run(p, start, events), g);
  }

  // A call with nothing else running.

  ghost function Steps(p: Policy, m: Machine, events: seq<Event>): Machine
    decreases events
  {
    if events == [] then m else Steps(p, EventStep(p, m, events[0]), events[1..])
  }

  /** It reads, waits, decides, joins flight f; upstream answers; the index is stored, or the failure considered. */
  function Course(c: nat, f: nat, outcome: Result<Index, Error>, wait: nat, lag: nat, victim: string, later: nat)
    : seq<Event>
  {
    [Step(c), Tick(wait), Step(c), Step(c), Event.Reply(f, outcome)]
    + if outcome.Ok? then [Store(f, lag, victim), Step(c)] else [Step(c), Tick(later), Step(c)]
  }

  lemma StepsConcat(p: Policy, m: Machine, a: seq<Event>, b: seq<Event>)
    ensures Steps(p, m, a + b) == Steps(p, Steps(p, m, a), b)
    decreases a
  {
    hide EventStep;
    if a == [] {
      assert a + b == b;
    } else {
      assert (a + b)[0] == a[0] && (a + b)[1..] == a[1..] + b;
      StepsConcat(p, EventStep(p, m, a[0]), a[1..], b);
    }
  }

  lemma ThreeSteps(p: Policy, m: Machine, a: Event, b: Event, c: Event)
    ensures Steps(p, m, [a, b, c]) == EventStep(p, EventStep(p, EventStep(p, m, a), b), c)
  {
    hide EventStep;
    assert [a, b, c][1..] == [b, c];
    TwoSteps(p, EventStep(p, m, a), b, c);
  }

  lemma TwoSteps(p: Policy, m: Machine, a: Event, b: Event)
    ensures Steps(p, m, [a, b]) == EventStep(p, EventStep(p, m, a), b)
  {
    hide EventStep;
    assert [a, b][1..] == [b] && [b][1..] == [];
    assert Steps(p, EventStep(p, m, a), [b]) == Steps(p, EventStep(p, EventStep(p, m, a), b), []);
  }

  function Looked(p: Policy, m: Machine, repo: string, now: int): Pc {
    if !p.allowed(repo) then Returned(Err(HostNotAllowed), m.now, Refusal)
    else if repo in m.cache && now - m.cache[repo].fetched < p.limits.ttl then
      Returned(Ok(m.cache[repo].idx), now, FreshEntry(m.cache[repo]))
    else Joining
  }

  lemma Looking(p: Policy, m: Machine, c: nat, wait: nat)
    requires c in m.calls && m.calls[c].pc == Reading
    ensures Steps(p, m, [Step(c), Tick(wait), Step(c)]) ==
      At(m.(now := m.now + wait), c, Looked(p, m, m.calls[c].repo, m.now + wait))
  {
    hide Steps, ReplyStep, StoreStep, VictimOk;
    ThreeSteps(p, m, Step(c), Tick(wait), Step(c));
  }

  lemma Joins(p: Policy, m: Machine, c: nat, outcome: Result<Index, Error>)
    requires c in m.calls && m.calls[c].pc == Joining && m.calls[c].repo !in m.flying
    ensures var repo, f := m.calls[c].repo, m.next;
      var m' := Steps(p, m, [Step(c), Event.Reply(f, outcome)]);
      && m'.cache == m.cache && m'.now == m.now && c in m'.calls && m'.calls[c] == m.calls[c].(pc := Waiting(f))
      && f in m'.fetches
      && m'.fetches[f] == match outcome case Ok(idx) => Answered(repo, idx) case Err(e) => Lost(repo, e)
  {
    TwoSteps(p, m, Step(c), Event.Reply(m.next, outcome));
  }

  lemma Lands(p: Policy, m: Machine, c: nat, f: nat, lag: nat, victim: string)
    requires c in m.calls && m.calls[c].pc == Waiting(f) && f in m.fetches && m.fetches[f].Answered?
    requires VictimOk(p.limits, m.cache, m.now, victim)
    ensures var m' := Steps(p, m, [Store(f, lag, victim), Step(c)]);
      && c in m'.calls && m'.calls[c].pc == Returned(Ok(m.fetches[f].idx), m.now + lag, Landing(f))
      && m'.cache == Stored(p.limits, m.cache, m.fetches[f].repo, m.fetches[f].idx, m.now, m.now + lag, victim)
  {
    hide Stored, VictimOk;
    TwoSteps(p, m, Store(f, lag, victim), Step(c));
  }

  lemma Loses(p: Policy, m: Machine, c: nat, f: nat, later: nat)
    requires c in m.calls && m.calls[c].pc == Waiting(f) && f in m.fetches && m.fetches[f].Lost?
    ensures var m' := Steps(p, m, [Step(c), Tick(later), Step(c)]);
      var e, read := m.fetches[f].error, EntryFor(m.cache, m.calls[c].repo);
      && c in m'.calls && m'.cache == m.cache
      && m'.calls[c].pc == Returned(StaleFor(p.limits, read, e, m.now + later), m.now + later, Loss(f, e, read))
  {
    hide StaleFor;
    ThreeSteps(p, m, Step(c), Tick(later), Step(c));
  }

  lemma {:induction false} NothingMore(p: Policy, m: Machine, c: nat, f: nat, events: seq<Event>)
    requires c in m.calls && m.calls[c].pc.Returned? && f !in m.fetches
    requires forall e | e in events :: e == Step(c) || e.Tick? || ((e.Reply? || e.Store?) && e.flight == f)
    ensures var m' := Steps(p, m, events); m'.calls == m.calls && m'.cache == m.cache
    decreases events
  {
    if events != [] {
      assert events[0] in events;
      NothingMore(p, EventStep(p, m, events[0]), c, f, events[1..]);
    }
  }

  /** A call that meets no other comes to what one call of the client comes to, with the same reads of the clock. */
  lemma CallAlone(p: Policy, m: Machine, c: nat, outcome: Result<Index, Error>, wait: nat, lag: nat, victim: string,
                  later: nat)
    requires c in m.calls && m.calls[c].pc == Reading && m.calls[c].repo !in m.flying && m.next !in m.fetches
    requires VictimOk(p.limits, m.cache, m.now + wait, victim)
    ensures var repo, decided := m.calls[c].repo, m.now + wait;
      var young := repo in m.cache && decided - m.cache[repo].fetched < p.limits.ttl;
      var m' := Steps(p, m, Course(c, m.next, outcome, wait, lag, victim, later));
      && c in m'.calls && m'.calls[c].pc.Returned?
      && var result := m'.calls[c].pc.result;
      && (!p.allowed(repo) ==> result == Err(HostNotAllowed) && m'.cache == m.cache)
      && (p.allowed(repo) && young ==> result == Ok(m.cache[repo].idx) && m'.cache == m.cache)
      && (p.allowed(repo) && !young && outcome.Ok? ==>
            result == outcome
            && m'.cache == Stored(p.limits, m.cache, repo, outcome.value, decided, decided + lag, victim))
      && (p.allowed(repo) && !young && outcome.Err? ==>
            && m'.cache == m.cache
            && result == (if p.limits.staleTtl > 0 && outcome.error != NotFound && outcome.error != HostNotAllowed
                             && repo in m.cache && decided + later - m.cache[repo].fetched <= p.limits.staleTtl
                          then Ok(m.cache[repo].idx) else outcome))
  {
    hide VictimOk, Stored, Steps;
    var f, repo := m.next, m.calls[c].repo;
    var look, join := [Step(c), Tick(wait), Step(c)], [Step(c), Event.Reply(f, outcome)];
    var finish := if outcome.Ok? then [Store(f, lag, victim), Step(c)] else [Step(c), Tick(later), Step(c)];
    assert Course(c, f, outcome, wait, lag, victim, later) == look + (join + finish);
    StepsConcat(p, m, look, join + finish);
    Looking(p, m, c, wait);
    var m3 := Steps(p, m, look);
    if Looked(p, m, repo, m.now + wait).Returned? {
      NothingMore(p, m3, c, f, join + finish);
    } else {
      StepsConcat(p, m3, join, finish);
      Joins(p, m3, c, outcome);
      if outcome.Ok? {
        Lands(p, Steps(p, m3, join), c, f, lag, victim);
      } else {
        Loses(p, Steps(p, m3, join), c, f, later);
      }
    }
  }

  /** The cap holds at every step, whatever order map iteration takes. */
  lemma CacheAlwaysCapped(p: Policy, start: int, events: seq<Event>)
    requires LimitsOk(p.limits)
    ensures |Run(p, start, events).cache| <= 128
  {
    hide Run, EventStep;
    InvariantAlways(p, start, events);
  }

  // What every reply for a repo is like, every index returned for it is like.

  /** Every index the run received for the repo is good. */
  ghost predicate ReceivedGood(repo: string, good: Index -> bool, m: Machine) {
    && (forall r | r in m.refreshes && r.repo == repo :: good(r.idx))
    && (forall f | f in m.fetches && m.fetches[f].Answered? && m.fetches[f].repo == repo :: good(m.fetches[f].idx))
  }

  /** An index that answers a fetch of the repo is good. */
  ghost predicate ReplyGood(repo: string, good: Index -> bool, m: Machine, e: Event) {
    e.Reply? && e.outcome.Ok? && e.flight in m.fetches && m.fetches[e.flight].repo == repo ==> good(e.outcome.value)
  }

  ghost predicate RepliesGood(p: Policy, start: int, repo: string, good: Index -> bool, events: seq<Event>) {
    forall i | 0 <= i < |events| :: ReplyGood(repo, good, Run(p, start, events[..i]), events[i])
  }

  lemma {:induction false} RunReceivesGood(p: Policy, start: int, repo: string, good: Index -> bool, events: seq<Event>)
    requires RepliesGood(p, start, repo, good, events)
    ensures ReceivedGood(repo, good, Run(p, start, events))
    decreases events
  {
    hide EventStep, ReplyGood;
    if events != [] {
      var n := |events| - 1;
      forall i | 0 <= i < n ensures ReplyGood(repo, good, Run(p, start, events[..n][..i]), events[..n][i]) {
        assert events[..n][..i] == events[..i];
      }
      RunReceivesGood(p, start, repo, good, events[..n]);
      assert ReplyGood(repo, good, Run(p, start, events[..n]), events[n]);
      EventReceivesGood(p, repo, good, Run(p, start, events[..n]), events[n]);
    }
  }

  lemma EventReceivesGood(p: Policy, repo: string, good: Index -> bool, m: Machine, e: Event)
    requires ReceivedGood(repo, good, m) && ReplyGood(repo, good, m, e)
    ensures ReceivedGood(repo, good, EventStep(p, m, e))
  {
    hide Stored, VictimOk, StaleFor, Fresh;
  }

  /** Whatever is true of every index that answers a fetch of the repo is true of every index returned for it, fresh,
      cached or stale, whatever other repos do. */
  lemma ReturnedIndexGood(p: Policy, start: int, repo: string, good: Index -> bool, events: seq<Event>, c: nat)
    requires LimitsOk(p.limits) && RepliesGood(p, start, repo, good, events)
    requires var m := Run(p, start, events);
      c in m.calls && m.calls[c].repo == repo && m.calls[c].pc.Returned? && m.calls[c].pc.result.Ok?
    ensures good(Run(p, start, events).calls[c].pc.result.value)
  {
    hide Run, EventStep;
    RunReceivesGood(p, start, repo, good, events);
    ReturnedIndexJustified(p, start, events, c);
  }

  /** So while one repo's upstream stands still, every index returned for it is its own. */
  lemma IndexTransparent(p: Policy, start: int, repo: string, idx: Index, events: seq<Event>, c: nat)
    requires LimitsOk(p.limits) && RepliesGood(p, start, repo, (i: Index) => i == idx, events)
    requires var m := Run(p, start, events);
      c in m.calls && m.calls[c].repo == repo && m.calls[c].pc.Returned? && m.calls[c].pc.result.Ok?
    ensures Run(p, start, events).calls[c].pc.result.value == idx
  {
    hide Run, EventStep;
    ReturnedIndexGood(p, start, repo, (i: Index) => i == idx, events, c);
  }
}
