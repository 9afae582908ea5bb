/** The whole control plane: any number of managers on one transactional state, client
    transactions and provider instances, interleaved in any order. A manager that crashes
    takes no further step; a provider call it left running may still take effect before the
    lease it was issued under ends. */
module FleetProtocol {
  import opened Basics
  import opened FleetState
  import opened FleetOps
  import opened FleetInvariant
  import opened FleetPreserve
  import opened FleetHistory
  import opened FleetProvider
  import FleetTickWhole
  import FleetTick

  /** Where a manager is inside `Tick`. The names of the calls follow `start`,
      `reconcileUnknown`, `poll` and `stop`. */
  datatype Phase =
    | Idle
    | Held
    | Picked(wid: Id, snap: Worker)
    | Renewed(wid: Id, snap: Worker)
    | StartCall(wid: Id, at: Time, created: bool)
    | StartSeen(wid: Id, at: Time, started: StartOutcome)
    | ListSeen(wid: Id)
    | RestartCall(wid: Id)
    | RestartSeen(wid: Id, recovered: ReconcileOutcome)
    | PollSeen(wid: Id, snap: Worker, polled: PollOutcome)
    | StopCall(wid: Id)
    | StopSeen(wid: Id, ok: bool)
    | StopRead(wid: Id, gone: bool)

  /** A manager's position and the lease it last wrote. */
  datatype Local = Local(phase: Phase, lease: Time)

  /** `servers` holds the provider's instances by the worker their name is derived from. */
  datatype Global = Global(s: State, managers: map<Id, Local>, servers: map<Id, Id>, clock: Time)

  datatype Event =
    | Advance(clock: Time)
    | Appear(m: Id)
    | Client(now: Time, ops: seq<Op>)
    | Vanish(wid: Id)
    | Tick(m: Id, now: Time, ops: seq<Op>)
    | Release(m: Id)
    | Abandon(m: Id)
    | Pick(m: Id, wid: Id)
    | Renew(m: Id, now: Time)
    | ClaimStart(m: Id, now: Time)
    | Create(m: Id, uid: Id)
    | StartReturns(m: Id, started: StartOutcome)
    | StartCommits(m: Id, at: Time)
    | ListReturns(m: Id, given: Option<ReconcileOutcome>)
    | Restart(m: Id, now: Time)
    | RestartReturns(m: Id, recovered: ReconcileOutcome)
    | ReconcileCommits(m: Id, now: Time, at: Time)
    | PollReturns(m: Id, polled: PollOutcome)
    | PollCommits(m: Id, now: Time, at: Time)
    | StopChecks(m: Id, now: Time)
    | StopReturns(m: Id, ok: bool)
    | StopReads(m: Id, gone: bool)
    | StopCommits(m: Id, now: Time)

  // ---- What a client transaction leaves to the managers --------------------------------

  /** Only running workers change state, and only among the running states. */
  predicate QuietWorker(v: Worker, w: Worker) {
    w.providerId == v.providerId && (w.state == v.state || (Running(v.state) && Running(w.state)))
  }

  ghost predicate QuietWorkers(before: Workers, after: Workers) {
    && (forall w | w in before :: w in after && QuietWorker(before[w], after[w]))
    && (forall w | w in after && w !in before :: after[w].state.Requested? && after[w].providerId.None?)
  }

  ghost predicate Quiet(s: State, t: State) {
    t.leader == s.leader && t.leaseUntil == s.leaseUntil && QuietWorkers(s.workers, t.workers)
  }

  // ---- Steps ---------------------------------------------------------------------------

  predicate Calling(p: Phase) {
    p.StartCall? || p.RestartCall? || p.StopCall?
  }

  function Move(g: Global, m: Id, s: State, phase: Phase): Global
    requires m in g.managers
  {
    g.(s := s, managers := g.managers[m := g.managers[m].(phase := phase)])
  }

  function MoveLease(g: Global, m: Id, s: State, phase: Phase): Global {
    g.(s := s, managers := g.managers[m := Local(phase, s.leaseUntil)])
  }

  function Extend(s: State, now: Time): State {
    s.(leaseUntil := now + 30)
  }

  /** The workers `Tick` looks at after its transaction. */
  predicate Due(w: Worker, now: Time) {
    || w.state.Requested?
    || (now >= w.nextCheckAt &&
        (w.state.Unknown? || w.state.Stopping? || (w.providerId.Some? && (Running(w.state) || w.state.Lost?))))
  }

  ghost predicate Replays(c: Config, now: Time, s: State, ops: seq<Op>, t: State) {
    Replay(c, now, s, ops) == Some(t)
  }

  /** A commit after a provider call: nothing when the lease went to another manager; a missing
      worker would end the process inside the transaction. */
  function Commits(s: State, m: Id, wid: Id): bool {
    s.leader == Some(m) && wid in s.workers
  }

  /** Steps outside the provider calls. */
  ghost predicate Shared(c: Config, g: Global, e: Event, h: Global) {
    match e
    case Advance(clock) => g.clock <= clock && h == g.(clock := clock)
    case Appear(m) => m !in g.managers && h == g.(managers := g.managers[m := Local(Idle, 0)])
    case Client(now, ops) => now <= g.clock && Replays(c, now, g.s, ops, h.s) && Quiet(g.s, h.s) && h == g.(s := h.s)
    case Vanish(wid) => h == g.(servers := g.servers - {wid})
    case _ => false
  }

  ghost predicate Leading(c: Config, g: Global, e: Event, h: Global) {
    match e
    case Tick(m, now, ops) =>
      && m in g.managers && g.managers[m].phase.Idle? && now <= g.clock && FleetTickWhole.LeaseFree(g.s, m, now)
      && Replays(c, now, g.s, ops, h.s) && FleetTickWhole.TickDone(c, m, g.s, h.s, now)
      && h == MoveLease(g, m, h.s, Held)
    case Release(m) =>
      && m in g.managers && g.managers[m].phase.Idle?
      && h == g.(s := if g.s.leader == Some(m) then g.s.(leaseUntil := 0) else g.s)
    case Abandon(m) => m in g.managers && !Calling(g.managers[m].phase) && h == Move(g, m, g.s, Idle)
    case Pick(m, wid) =>
      && m in g.managers && g.managers[m].phase.Held? && wid in g.s.workers
      && (exists now :: now <= g.clock && Due(g.s.workers[wid], now))
      && h == Move(g, m, g.s, Picked(wid, g.s.workers[wid]))
    case Renew(m, now) =>
      && m in g.managers && g.managers[m].phase.Picked? && now <= g.clock
      && var p := g.managers[m].phase;
      h == if Holds(g.s, m, now) then MoveLease(g, m, Extend(g.s, now), Renewed(p.wid, p.snap)) else Move(g, m, g.s, Idle)
    case _ => false
  }

  ghost predicate Starts(c: Config, g: Global, e: Event, h: Global) {
    match e
    case ClaimStart(m, now) =>
      && m in g.managers && g.managers[m].phase.Renewed? && g.managers[m].phase.snap.state.Requested? && now <= g.clock
      && var wid := g.managers[m].phase.wid;
      h == if Holds(g.s, m, now) && wid in g.s.workers && g.s.workers[wid].state.Requested?
           then Move(g, m, StartClaim(g.s, wid, now), StartCall(wid, now, false))
           else Move(g, m, g.s, Idle)
    case Create(m, uid) =>
      && m in g.managers && g.clock < g.managers[m].lease
      && var p := g.managers[m].phase;
      && (p.StartCall? || p.RestartCall?) && p.wid !in g.servers
      && h == Move(g, m, g.s, if p.StartCall? then p.(created := true) else p).(servers := g.servers[p.wid := uid])
    case StartReturns(m, out) =>
      && m in g.managers && g.managers[m].phase.StartCall?
      && var p := g.managers[m].phase;
      (out.Denied? ==> !p.created) && h == Move(g, m, g.s, StartSeen(p.wid, p.at, out))
    case StartCommits(m, at) =>
      && m in g.managers && g.managers[m].phase.StartSeen?
      && var p := g.managers[m].phase;
      h == Move(g, m, if Commits(g.s, m, p.wid) then StartCommit(c, g.s, p.wid, p.started, p.at, at) else g.s, Idle)
    case _ => false
  }

  ghost predicate Reconciles(c: Config, g: Global, e: Event, h: Global) {
    match e
    case ListReturns(m, given) =>
      && m in g.managers && g.managers[m].phase.Renewed? && g.managers[m].phase.snap.state.Unknown?
      && var wid := g.managers[m].phase.wid;
      && (given.Some? ==> !given.value.Recovered?)
      && h == Move(g, m, g.s, if given.Some? then RestartSeen(wid, given.value) else ListSeen(wid))
    case Restart(m, now) =>
      && m in g.managers && g.managers[m].phase.ListSeen? && now <= g.clock
      && h == if Holds(g.s, m, now) then MoveLease(g, m, Extend(g.s, now), RestartCall(g.managers[m].phase.wid)) else Move(g, m, g.s, Idle)
    case RestartReturns(m, out) =>
      && m in g.managers && g.managers[m].phase.RestartCall?
      && h == Move(g, m, g.s, RestartSeen(g.managers[m].phase.wid, out))
    case ReconcileCommits(m, now, at) =>
      && m in g.managers && g.managers[m].phase.RestartSeen?
      && var p := g.managers[m].phase;
      h == Move(g, m, if g.s.leader == Some(m) then ReconcileCommit(c, g.s, p.wid, p.recovered, now, at) else g.s, Idle)
    case _ => false
  }

  /** The provider says the instance is gone. */
  predicate Gone(out: PollOutcome) {
    out.Missing? || (out.Found? && out.instance.status.IsStopped?)
  }

  ghost predicate Polls(c: Config, g: Global, e: Event, h: Global) {
    match e
    case PollReturns(m, out) =>
      && m in g.managers && g.managers[m].phase.Renewed?
      && var p := g.managers[m].phase;
      && Pollable(p.snap.state) && p.snap.providerId.Some? && (Gone(out) ==> p.wid !in g.servers)
      && h == Move(g, m, g.s, PollSeen(p.wid, p.snap, out))
    case PollCommits(m, now, at) =>
      && m in g.managers && g.managers[m].phase.PollSeen?
      && var p := g.managers[m].phase;
      h == Move(g, m, if Commits(g.s, m, p.wid) then PollCommit(c, g.s, p.wid, p.snap.providerId, p.polled, now, at) else g.s, Idle)
    case _ => false
  }

  ghost predicate Stops(c: Config, g: Global, e: Event, h: Global) {
    match e
    case StopChecks(m, now) =>
      && m in g.managers && g.managers[m].phase.Renewed? && g.managers[m].phase.snap.state.Stopping? && now <= g.clock
      && var p := g.managers[m].phase;
      h == if Holds(g.s, m, now) && StopAllowed(c, g.s, p.wid, p.snap.providerId, now)
           then Move(g, m, g.s, StopCall(p.wid)) else Move(g, m, g.s, Idle)
    case StopReturns(m, ok) =>
      m in g.managers && g.managers[m].phase.StopCall? && h == Move(g, m, g.s, StopSeen(g.managers[m].phase.wid, ok))
    case StopReads(m, gone) =>
      && m in g.managers && g.managers[m].phase.StopSeen? && g.managers[m].phase.ok
      && (gone ==> g.managers[m].phase.wid !in g.servers)
      && h == Move(g, m, g.s, StopRead(g.managers[m].phase.wid, gone))
    case StopCommits(m, now) =>
      && m in g.managers && (g.managers[m].phase.StopRead? || (g.managers[m].phase.StopSeen? && !g.managers[m].phase.ok))
      && var p := g.managers[m].phase;
      h == Move(g, m, if Commits(g.s, m, p.wid) then StopCommit(c, g.s, p.wid, p.StopRead? && p.gone, now) else g.s, Idle)
    case _ => false
  }

  ghost predicate Next(c: Config, g: Global, e: Event, h: Global) {
    || Shared(c, g, e, h) || Leading(c, g, e, h) || Starts(c, g, e, h)
    || Reconciles(c, g, e, h) || Polls(c, g, e, h) || Stops(c, g, e, h)
  }

  ghost predicate Initial(g: Global) {
    && g.s == EmptyState.(rooms := g.s.rooms) && g.servers == map[]
    && forall m | m in g.managers :: g.managers[m].phase.Idle?
  }

  // ---- The invariant -------------------------------------------------------------------

  /** What a manager that still leads may rely on. */
  ghost predicate Fact(p: Phase, workers: Workers, servers: map<Id, Id>) {
    match p
    case Idle => true
    case Held => true
    case Picked(w, snap) => w in workers && QuietWorker(snap, workers[w])
    case Renewed(w, snap) => w in workers && QuietWorker(snap, workers[w])
    case StartCall(w, _, created) => w in workers && workers[w].state.Starting? && (created || w !in servers)
    case StartSeen(w, _, out) => w in workers && workers[w].state.Starting? && (out.Denied? ==> w !in servers)
    case ListSeen(w) => w in workers && workers[w].state.Unknown?
    case RestartCall(w) => w in workers && workers[w].state.Unknown?
    case RestartSeen(w, _) => w in workers && workers[w].state.Unknown?
    case PollSeen(w, snap, out) =>
      && w in workers && QuietWorker(snap, workers[w]) && Pollable(snap.state) && snap.providerId.Some?
      && (Gone(out) ==> w !in servers)
    case StopCall(w) => w in workers && workers[w].state.Stopping?
    case StopSeen(w, _) => w in workers && workers[w].state.Stopping?
    case StopRead(w, gone) => w in workers && workers[w].state.Stopping? && (gone ==> w !in servers)
  }

  /** Fencing: whoever leads has led since it wrote its lease; whoever does not has outlived it. */
  ghost predicate Fenced(m: Id, l: Local, s: State, servers: map<Id, Id>, clock: Time) {
    l.phase.Idle? || if s.leader == Some(m) then s.leaseUntil == l.lease && Fact(l.phase, s.workers, servers) else l.lease <= clock
  }

  ghost predicate AllFenced(g: Global) {
    forall m | m in g.managers :: Fenced(m, g.managers[m], g.s, g.servers, g.clock)
  }

  /** Every provider instance belongs to a worker that is counted. */
  ghost predicate Backed(workers: Workers, servers: map<Id, Id>) {
    forall w | w in servers :: w in workers && Counted(workers[w]) && !workers[w].state.Requested?
  }

  ghost predicate Safe(c: Config, g: Global) {
    Inv(c, g.s) && Backed(g.s.workers, g.servers) && AllFenced(g)
  }

  // ---- Frames --------------------------------------------------------------------------

  lemma FactFrame(p: Phase, before: Workers, after: Workers, servers: map<Id, Id>, left: map<Id, Id>)
    requires Fact(p, before, servers) && QuietWorkers(before, after) && left.Keys <= servers.Keys
    ensures Fact(p, after, left)
  {
  }

  lemma BackedFrame(before: Workers, after: Workers, servers: map<Id, Id>, left: map<Id, Id>)
    requires Backed(before, servers) && QuietWorkers(before, after) && left.Keys <= servers.Keys
    ensures Backed(after, left)
  {
  }

  /** Steps that leave the managers' own records alone. */
  lemma SharedKeeps(c: Config, g: Global, e: Event, h: Global)
    requires Safe(c, g) && Shared(c, g, e, h)
    ensures Safe(c, h) && Evolves(g.s, h.s)
  {
    if e.Client? {
      ReplayKeeps(c, e.now, g.s, e.ops, h.s);
      ReplayEvolves(c, e.now, g.s, e.ops, h.s);
    } else {
      assert Evolves(g.s, h.s);
    }
    assert QuietWorkers(g.s.workers, h.s.workers);
    BackedFrame(g.s.workers, h.s.workers, g.servers, h.servers);
    forall m | m in h.managers ensures Fenced(m, h.managers[m], h.s, h.servers, h.clock) {
      if m in g.managers && !h.managers[m].phase.Idle? {
        assert Fenced(m, g.managers[m], g.s, g.servers, g.clock);
        if g.s.leader == Some(m) {
          FactFrame(g.managers[m].phase, g.s.workers, h.s.workers, g.servers, h.servers);
        }
      }
    }
  }

  // ---- Steps of one manager ------------------------------------------------------------

  /** A step of `m`: either it changes nothing shared, or `m` leads before and after. */
  ghost predicate StepOf(m: Id, g: Global, h: Global) {
    && m in g.managers && m in h.managers && h.managers == g.managers[m := h.managers[m]] && h.clock == g.clock
    && ((h.s == g.s && h.servers == g.servers) || (g.s.leader == Some(m) && h.s.leader == Some(m)))
  }

  lemma OthersStayFenced(c: Config, m: Id, g: Global, h: Global)
    requires AllFenced(g) && StepOf(m, g, h)
    requires Fenced(m, h.managers[m], h.s, h.servers, h.clock)
    ensures AllFenced(h)
  {
    forall n | n in h.managers ensures Fenced(n, h.managers[n], h.s, h.servers, h.clock) {
      assert n != m ==> Fenced(n, g.managers[n], g.s, g.servers, g.clock);
    }
  }

  /** A step that moves only `m` itself keeps everything if the new position is justified. */
  lemma MovesKeep(c: Config, g: Global, m: Id, phase: Phase)
    requires Safe(c, g) && m in g.managers
    requires g.s.leader == Some(m) && !phase.Idle? ==> Fact(phase, g.s.workers, g.servers)
    requires g.managers[m].phase.Idle? ==> phase.Idle?
    ensures Safe(c, Move(g, m, g.s, phase))
  {
    assert Fenced(m, g.managers[m], g.s, g.servers, g.clock);
    OthersStayFenced(c, m, g, Move(g, m, g.s, phase));
  }

  /** A step in which the leader changes the state. */
  lemma LeaderKeeps(c: Config, g: Global, m: Id, now: Time, ops: seq<Op>, t: State, l: Local)
    requires Safe(c, g) && m in g.managers && g.s.leader == Some(m) && t.leader == Some(m)
    requires Replay(c, now, g.s, ops) == Some(t) && Backed(t.workers, g.servers)
    requires l.phase.Idle? || (t.leaseUntil == l.lease && Fact(l.phase, t.workers, g.servers))
    ensures Safe(c, g.(s := t, managers := g.managers[m := l])) && Evolves(g.s, t)
  {
    ReplayKeeps(c, now, g.s, ops, t);
    ReplayEvolves(c, now, g.s, ops, t);
    OthersStayFenced(c, m, g, g.(s := t, managers := g.managers[m := l]));
  }

  /** A manager that leads in the middle of a tick can rely on the facts of its position. */
  lemma LeaderKnows(c: Config, g: Global, m: Id)
    requires Safe(c, g) && m in g.managers && g.s.leader == Some(m) && !g.managers[m].phase.Idle?
    ensures g.s.leaseUntil == g.managers[m].lease && Fact(g.managers[m].phase, g.s.workers, g.servers)
  {
    assert Fenced(m, g.managers[m], g.s, g.servers, g.clock);
  }

  /** One worker edited in place, with its count kept. */
  lemma BackedEdit(workers: Workers, servers: map<Id, Id>, wid: Id, w: Worker)
    requires Backed(workers, servers) && (wid in servers ==> Counted(w) && !w.state.Requested?)
    ensures Backed(workers[wid := w], servers)
  {
  }

  lemma SelfEvolves(s: State, t: State)
    requires t.workers == s.workers && t.allocations == s.allocations && t.commands == s.commands && t.issued == s.issued
    ensures Evolves(s, t)
  {
  }

  // ---- Tick, release, picking and renewing ---------------------------------------------

  lemma TickKeeps(c: Config, g: Global, m: Id, now: Time, ops: seq<Op>, h: Global)
    requires Safe(c, g) && Leading(c, g, Tick(m, now, ops), h)
    ensures Safe(c, h) && Evolves(g.s, h.s)
  {
    ReplayKeeps(c, now, g.s, ops, h.s);
    ReplayEvolves(c, now, g.s, ops, h.s);
    TickBacked(c, g, m, now, h);
    forall n | n in h.managers ensures Fenced(n, h.managers[n], h.s, h.servers, h.clock) {
      assert n != m ==> Fenced(n, g.managers[n], g.s, g.servers, g.clock);
    }
  }

  lemma TickBacked(c: Config, g: Global, m: Id, now: Time, h: Global)
    requires Backed(g.s.workers, g.servers) && FleetTickWhole.TickDone(c, m, g.s, h.s, now) && WorkersEvolve(g.s, h.s)
    ensures Backed(h.s.workers, g.servers)
  {
    forall w | w in g.servers ensures w in h.s.workers && Counted(h.s.workers[w]) && !h.s.workers[w].state.Requested? {
      assert WorkerEvolves(g.s.workers[w], h.s.workers[w]);
      assert FleetTickWhole.WorkerSettled(c, g.s.workers[w], h.s.workers[w], Occupied(h.s.allocations, w), now, |FleetTick.Admitting(h.s.workers)|);
    }
  }

  lemma LeaseReplays(c: Config, now: Time, s: State, owner: Option<Id>, until: Time)
    ensures Replay(c, now, s, [SetLease(owner, until)]) == Some(s.(leader := owner, leaseUntil := until))
  {
    ReplayOne(c, now, s, [], s, SetLease(owner, until));
    assert [] + [SetLease(owner, until)] == [SetLease(owner, until)];
  }

  lemma ExtendKeeps(c: Config, g: Global, m: Id, now: Time, phase: Phase)
    requires Safe(c, g) && m in g.managers && Holds(g.s, m, now) && Fact(phase, g.s.workers, g.servers)
    ensures Safe(c, MoveLease(g, m, Extend(g.s, now), phase)) && Evolves(g.s, Extend(g.s, now))
  {
    LeaseReplays(c, now, g.s, g.s.leader, now + 30);
    LeaderKeeps(c, g, m, now, [SetLease(g.s.leader, now + 30)], Extend(g.s, now), Local(phase, now + 30));
  }

  lemma ReleaseKeeps(c: Config, g: Global, m: Id, h: Global)
    requires Safe(c, g) && Leading(c, g, Release(m), h)
    ensures Safe(c, h) && Evolves(g.s, h.s)
  {
    SelfEvolves(g.s, h.s);
    if g.s.leader == Some(m) {
      LeaseReplays(c, 0, g.s, g.s.leader, 0);
      LeaderKeeps(c, g, m, 0, [SetLease(g.s.leader, 0)], h.s, g.managers[m]);
      assert g.managers == g.managers[m := g.managers[m]];
    }
  }

  lemma RenewKeeps(c: Config, g: Global, m: Id, now: Time, h: Global)
    requires Safe(c, g) && Leading(c, g, Renew(m, now), h)
    ensures Safe(c, h) && Evolves(g.s, h.s)
  {
    SelfEvolves(g.s, h.s);
    var p := g.managers[m].phase;
    if Holds(g.s, m, now) {
      LeaderKnows(c, g, m);
      ExtendKeeps(c, g, m, now, Renewed(p.wid, p.snap));
    } else {
      MovesKeep(c, g, m, Idle);
    }
  }

  lemma LeadingKeeps(c: Config, g: Global, e: Event, h: Global)
    requires Safe(c, g) && Leading(c, g, e, h)
    ensures Safe(c, h) && Evolves(g.s, h.s)
  {
    match e
    case Tick(m, now, ops) => TickKeeps(c, g, m, now, ops, h);
    case Release(m) => ReleaseKeeps(c, g, m, h);
    case Renew(m, now) => RenewKeeps(c, g, m, now, h);
    case Abandon(m) =>
      SelfEvolves(g.s, h.s);
      MovesKeep(c, g, m, Idle);
    case Pick(m, wid) =>
      SelfEvolves(g.s, h.s);
      MovesKeep(c, g, m, Picked(wid, g.s.workers[wid]));
  }

  // ---- start ---------------------------------------------------------------------------

  lemma ClaimKeeps(c: Config, g: Global, m: Id, now: Time, h: Global)
    requires Safe(c, g) && Starts(c, g, ClaimStart(m, now), h)
    ensures Safe(c, h) && Evolves(g.s, h.s)
  {
    var wid := g.managers[m].phase.wid;
    if Holds(g.s, m, now) && wid in g.s.workers && g.s.workers[wid].state.Requested? {
      LeaderKnows(c, g, m);
      var ops := ClaimReplays(c, now, g.s, wid);
      BackedEdit(g.s.workers, g.servers, wid, h.s.workers[wid]);
      LeaderKeeps(c, g, m, now, ops, h.s, h.managers[m]);
    } else {
      SelfEvolves(g.s, h.s);
      MovesKeep(c, g, m, Idle);
    }
  }

  /** An instance can only appear while its worker is counted. */
  lemma CreateKeeps(c: Config, g: Global, m: Id, uid: Id, h: Global)
    requires Safe(c, g) && Starts(c, g, Create(m, uid), h)
    ensures Safe(c, h) && Evolves(g.s, h.s) && g.s.leader == Some(m)
  {
    assert Fenced(m, g.managers[m], g.s, g.servers, g.clock);
    SelfEvolves(g.s, h.s);
    OthersStayFenced(c, m, g, h);
  }

  lemma StartCommitsKeeps(c: Config, g: Global, m: Id, at: Time, h: Global)
    requires Safe(c, g) && Starts(c, g, StartCommits(m, at), h)
    ensures Safe(c, h) && Evolves(g.s, h.s)
  {
    var p := g.managers[m].phase;
    if Commits(g.s, m, p.wid) {
      LeaderKnows(c, g, m);
      var ops := StartReplays(c, g.s, p.wid, p.started, p.at, at);
      BackedEdit(g.s.workers, g.servers, p.wid, StartWorker(c, g.s.workers[p.wid], p.started, p.at, at));
      LeaderKeeps(c, g, m, p.at, ops, h.s, h.managers[m]);
    } else {
      SelfEvolves(g.s, h.s);
      MovesKeep(c, g, m, Idle);
    }
  }

  lemma StartsKeeps(c: Config, g: Global, e: Event, h: Global)
    requires Safe(c, g) && Starts(c, g, e, h)
    ensures Safe(c, h) && Evolves(g.s, h.s)
  {
    match e
    case ClaimStart(m, now) => ClaimKeeps(c, g, m, now, h);
    case Create(m, uid) => CreateKeeps(c, g, m, uid, h);
    case StartCommits(m, at) => StartCommitsKeeps(c, g, m, at, h);
    case StartReturns(m, out) =>
      SelfEvolves(g.s, h.s);
      assert Fenced(m, g.managers[m], g.s, g.servers, g.clock);
      MovesKeep(c, g, m, StartSeen(g.managers[m].phase.wid, g.managers[m].phase.at, out));
  }

  // ---- reconcileUnknown ----------------------------------------------------------------

  lemma RestartKeeps(c: Config, g: Global, m: Id, now: Time, h: Global)
    requires Safe(c, g) && Reconciles(c, g, Restart(m, now), h)
    ensures Safe(c, h) && Evolves(g.s, h.s)
  {
    SelfEvolves(g.s, h.s);
    if Holds(g.s, m, now) {
      LeaderKnows(c, g, m);
      ExtendKeeps(c, g, m, now, RestartCall(g.managers[m].phase.wid));
    } else {
      MovesKeep(c, g, m, Idle);
    }
  }

  lemma ReconcileCommitsKeeps(c: Config, g: Global, m: Id, now: Time, at: Time, h: Global)
    requires Safe(c, g) && Reconciles(c, g, ReconcileCommits(m, now, at), h)
    ensures Safe(c, h) && Evolves(g.s, h.s)
  {
    var p := g.managers[m].phase;
    if g.s.leader == Some(m) {
      LeaderKnows(c, g, m);
      var ops := ReconcileReplays(c, g.s, p.wid, p.recovered, now, at);
      BackedEdit(g.s.workers, g.servers, p.wid, ReconcileWorker(c, g.s.workers[p.wid], p.recovered, now, at));
      LeaderKeeps(c, g, m, now, ops, h.s, h.managers[m]);
    } else {
      SelfEvolves(g.s, h.s);
      MovesKeep(c, g, m, Idle);
    }
  }

  lemma ReconcilesKeeps(c: Config, g: Global, e: Event, h: Global)
    requires Safe(c, g) && Reconciles(c, g, e, h)
    ensures Safe(c, h) && Evolves(g.s, h.s)
  {
    match e
    case Restart(m, now) => RestartKeeps(c, g, m, now, h);
    case ReconcileCommits(m, now, at) => ReconcileCommitsKeeps(c, g, m, now, at, h);
    case ListReturns(m, given) =>
      SelfEvolves(g.s, h.s);
      assert Fenced(m, g.managers[m], g.s, g.servers, g.clock);
      MovesKeep(c, g, m, h.managers[m].phase);
    case RestartReturns(m, out) =>
      SelfEvolves(g.s, h.s);
      assert Fenced(m, g.managers[m], g.s, g.servers, g.clock);
      MovesKeep(c, g, m, h.managers[m].phase);
  }

  // ---- poll ----------------------------------------------------------------------------

  /** A worker is closed by a poll only when its instance is gone. */
  lemma PollCounts(c: Config, s: State, wid: Id, pid: Option<Id>, out: PollOutcome, now: Time, at: Time)
    requires wid in s.workers && Pollable(s.workers[wid].state)
    ensures var t := PollCommit(c, s, wid, pid, out, now, at);
            && wid in t.workers && t.workers == s.workers[wid := t.workers[wid]] && t.leader == s.leader
            && !t.workers[wid].state.Requested? && (Counted(t.workers[wid]) || Gone(out))
  {
    var v := PollWorker(c, s.workers[wid], out, now, at);
    if s.workers[wid].providerId != pid {
      assert s.workers == s.workers[wid := s.workers[wid]];
    } else {
      VerdictCounts(c, s.workers[wid], out, now, at);
      RuleCounts(s, wid, v, now);
    }
  }

  lemma VerdictCounts(c: Config, w: Worker, out: PollOutcome, now: Time, at: Time)
    requires Pollable(w.state)
    ensures var v := PollWorker(c, w, out, now, at);
            (v.End? && v.gone ==> Gone(out)) && (v.Keep? ==> Pollable(v.worker.state) || v.worker.state.Stopping?)
  {
  }

  lemma RuleCounts(s: State, wid: Id, v: Verdict, now: Time)
    requires wid in s.workers && (v.Keep? ==> Pollable(v.worker.state) || v.worker.state.Stopping?)
    ensures var t := Rule(s, wid, v, now);
            && wid in t.workers && t.workers == s.workers[wid := t.workers[wid]] && t.leader == s.leader
            && !t.workers[wid].state.Requested? && (Counted(t.workers[wid]) || (v.End? && v.gone))
  {
  }

  lemma PollCommitsKeeps(c: Config, g: Global, m: Id, now: Time, at: Time, h: Global)
    requires Safe(c, g) && Polls(c, g, PollCommits(m, now, at), h)
    ensures Safe(c, h) && Evolves(g.s, h.s)
  {
    var p := g.managers[m].phase;
    if Commits(g.s, m, p.wid) {
      LeaderKnows(c, g, m);
      var ops := PollReplays(c, g.s, p.wid, p.snap.providerId, p.polled, now, at);
      PollCounts(c, g.s, p.wid, p.snap.providerId, p.polled, now, at);
      BackedEdit(g.s.workers, g.servers, p.wid, h.s.workers[p.wid]);
      LeaderKeeps(c, g, m, now, ops, h.s, h.managers[m]);
    } else {
      SelfEvolves(g.s, h.s);
      MovesKeep(c, g, m, Idle);
    }
  }

  lemma PollsKeeps(c: Config, g: Global, e: Event, h: Global)
    requires Safe(c, g) && Polls(c, g, e, h)
    ensures Safe(c, h) && Evolves(g.s, h.s)
  {
    match e
    case PollCommits(m, now, at) => PollCommitsKeeps(c, g, m, now, at, h);
    case PollReturns(m, out) =>
      SelfEvolves(g.s, h.s);
      assert Fenced(m, g.managers[m], g.s, g.servers, g.clock);
      MovesKeep(c, g, m, h.managers[m].phase);
  }

  // ---- stop ----------------------------------------------------------------------------

  lemma StopCommitsKeeps(c: Config, g: Global, m: Id, now: Time, h: Global)
    requires Safe(c, g) && Stops(c, g, StopCommits(m, now), h)
    ensures Safe(c, h) && Evolves(g.s, h.s)
  {
    var p := g.managers[m].phase;
    if Commits(g.s, m, p.wid) {
      LeaderKnows(c, g, m);
      var ops := StopReplays(c, g.s, p.wid, p.StopRead? && p.gone, now);
      BackedEdit(g.s.workers, g.servers, p.wid, h.s.workers[p.wid]);
      assert h.s.workers == g.s.workers[p.wid := h.s.workers[p.wid]];
      LeaderKeeps(c, g, m, now, ops, h.s, h.managers[m]);
    } else {
      SelfEvolves(g.s, h.s);
      MovesKeep(c, g, m, Idle);
    }
  }

  lemma StopsKeeps(c: Config, g: Global, e: Event, h: Global)
    requires Safe(c, g) && Stops(c, g, e, h)
    ensures Safe(c, h) && Evolves(g.s, h.s)
  {
    if e.StopCommits? {
      StopCommitsKeeps(c, g, e.m, e.now, h);
    } else if e.StopChecks? || e.StopReturns? || e.StopReads? {
      SelfEvolves(g.s, h.s);
      assert Fenced(e.m, g.managers[e.m], g.s, g.servers, g.clock);
      MovesKeep(c, g, e.m, h.managers[e.m].phase);
    }
  }

  // ---- Every run -----------------------------------------------------------------------

  lemma NextKeeps(c: Config, g: Global, e: Event, h: Global)
    requires Safe(c, g) && Next(c, g, e, h)
    ensures Safe(c, h) && Evolves(g.s, h.s)
  {
    if Shared(c, g, e, h) {
      SharedKeeps(c, g, e, h);
    } else if Leading(c, g, e, h) {
      LeadingKeeps(c, g, e, h);
    } else if Starts(c, g, e, h) {
      StartsKeeps(c, g, e, h);
    } else if Reconciles(c, g, e, h) {
      ReconcilesKeeps(c, g, e, h);
    } else if Polls(c, g, e, h) {
      PollsKeeps(c, g, e, h);
    } else {
      StopsKeeps(c, g, e, h);
    }
  }
}
