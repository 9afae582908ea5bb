/** Theorems over every run of the control plane. */
module FleetRuns {
  import opened Basics
  import opened FleetState
  import opened FleetOps
  import opened FleetInvariant
  import opened FleetPreserve
  import opened FleetHistory
  import opened FleetProvider
  import opened FleetProtocol
  import opened FleetCoherence
  import opened FleetAssignment
  import TicketText
  import Tickets

  ghost predicate IsRun(c: Config, gs: seq<Global>, es: seq<Event>) {
    && |gs| == |es| + 1 && Initial(gs[0])
    && forall i | 0 <= i < |es| :: Next(c, gs[i], es[i], gs[i + 1])
  }

  lemma InitialIsSafe(c: Config, g: Global)
    requires Initial(g)
    ensures Safe(c, g)
  {
    assert Live(g.s.workers) == {};
    assert forall w :: Hosted(g.s.allocations, w) == {};
  }

  lemma {:induction false} RunIsSafe(c: Config, gs: seq<Global>, es: seq<Event>, i: nat)
    requires IsRun(c, gs, es) && i < |gs|
    ensures Safe(c, gs[i])
  {
    if i == 0 {
      InitialIsSafe(c, gs[0]);
    } else {
      RunIsSafe(c, gs, es, i - 1);
      NextKeeps(c, gs[i - 1], es[i - 1], gs[i]);
    }
  }

  lemma EvolvesOn(c: Config, r: State, g: Global, e: Event, h: Global)
    requires IdsIssued(r) && Evolves(r, g.s) && Safe(c, g) && Next(c, g, e, h)
    ensures Evolves(r, h.s)
  {
    NextKeeps(c, g, e, h);
    EvolvesTransitive(r, g.s, h.s);
  }

  lemma RunDrawsIds(c: Config, gs: seq<Global>, es: seq<Event>, i: nat)
    requires IsRun(c, gs, es) && i < |gs|
    ensures IdsIssued(gs[i].s)
  {
    RunIsSafe(c, gs, es, i);
  }

  lemma RunStep(c: Config, gs: seq<Global>, es: seq<Event>, r: State, j: nat)
    requires IsRun(c, gs, es) && j < |es| && IdsIssued(r) && Evolves(r, gs[j].s)
    ensures Evolves(r, gs[j + 1].s)
  {
    RunIsSafe(c, gs, es, j);
    EvolvesOn(c, r, gs[j], es[j], gs[j + 1]);
  }

  /** Any later state of a run follows from any earlier one. */
  lemma {:induction false} RunEvolves(c: Config, gs: seq<Global>, es: seq<Event>, i: nat, j: nat)
    requires IsRun(c, gs, es) && i <= j < |gs|
    ensures Evolves(gs[i].s, gs[j].s)
    decreases j
  {
    if i == j {
      SelfEvolves(gs[i].s, gs[j].s);
    } else {
      RunDrawsIds(c, gs, es, i);
      RunEvolves(c, gs, es, i, j - 1);
      RunStep(c, gs, es, gs[i].s, j - 1);
    }
  }

  /** The cluster never holds more instances than configured, through crashes, ambiguous
      creates and changes of leader. */
  lemma ClusterStaysWithinLimit(c: Config, gs: seq<Global>, es: seq<Event>, i: nat)
    requires IsRun(c, gs, es) && i < |gs|
    ensures |gs[i].servers| <= c.maxInstances
    ensures forall w | w in gs[i].servers :: w in gs[i].s.workers && Counted(gs[i].s.workers[w])
  {
    RunIsSafe(c, gs, es, i);
    SubsetSize(gs[i].servers.Keys, Live(gs[i].s.workers));
  }

  lemma LeadershipStep(c: Config, g: Global, e: Event, h: Global, m: Id)
    requires Next(c, g, e, h) && m in g.managers && !g.managers[m].phase.Idle? && h.s.leader == Some(m)
    ensures g.s.leader == Some(m)
  {
    if Starts(c, g, e, h) || Reconciles(c, g, e, h) {
      StartKeepsLeader(c, g, e, h);
    } else if Polls(c, g, e, h) {
      PollKeepsLeader(c, g, e, h);
    } else if Stops(c, g, e, h) {
      StopKeepsLeader(c, g, e, h);
    } else if Leading(c, g, e, h) {
      LeadingByOthers(c, g, e, h, m);
    }
  }

  lemma StartKeepsLeader(c: Config, g: Global, e: Event, h: Global)
    requires Starts(c, g, e, h) || Reconciles(c, g, e, h)
    ensures h.s.leader == g.s.leader
  {
  }

  lemma PollKeepsLeader(c: Config, g: Global, e: Event, h: Global)
    requires Polls(c, g, e, h)
    ensures h.s.leader == g.s.leader
  {
  }

  lemma StopKeepsLeader(c: Config, g: Global, e: Event, h: Global)
    requires Stops(c, g, e, h)
    ensures h.s.leader == g.s.leader
  {
  }

  lemma LeadingByOthers(c: Config, g: Global, e: Event, h: Global, m: Id)
    requires Leading(c, g, e, h) && m in g.managers && !g.managers[m].phase.Idle? && h.s.leader == Some(m)
    ensures g.s.leader == Some(m)
  {
  }

  /** Fencing without ABA: a manager that finds itself leader in the middle of a tick has led
      without a break since it took the lease in that tick. */
  lemma {:induction false} LeadershipIsUnbroken(c: Config, gs: seq<Global>, es: seq<Event>, m: Id, i: nat, j: nat)
    requires IsRun(c, gs, es) && i <= j < |gs| && gs[j].s.leader == Some(m)
    requires forall k | i <= k <= j :: m in gs[k].managers && !gs[k].managers[m].phase.Idle?
    ensures forall k | i <= k <= j :: gs[k].s.leader == Some(m)
    decreases j
  {
    if i < j {
      LeadershipStep(c, gs[j - 1], es[j - 1], gs[j], m);
      LeadershipIsUnbroken(c, gs, es, m, i, j - 1);
    }
  }

  /** A manager that leads when it commits a provider result finds the worker it left: `start`
      only ever overwrites `starting`, a poll a worker of the same instance that is not closed
      otherwise than lost, a reconciliation `unknown`, a stop `stopping`. */
  lemma CommitsFindTheirWorker(c: Config, gs: seq<Global>, es: seq<Event>, i: nat, m: Id)
    requires IsRun(c, gs, es) && i < |gs| && m in gs[i].managers && gs[i].s.leader == Some(m)
    ensures var p := gs[i].managers[m].phase; var workers := gs[i].s.workers;
            && (p.StartSeen? ==> p.wid in workers && workers[p.wid].state.Starting?)
            && (p.RestartSeen? ==> p.wid in workers && workers[p.wid].state.Unknown?)
            && (p.PollSeen? ==> p.wid in workers && Pollable(workers[p.wid].state) && workers[p.wid].providerId == p.snap.providerId)
            && (p.StopSeen? || p.StopRead? ==> p.wid in workers && workers[p.wid].state.Stopping?)
  {
    RunIsSafe(c, gs, es, i);
    if !gs[i].managers[m].phase.Idle? {
      LeaderKnows(c, gs[i], m);
    }
  }

  /** A worker outside the serving states hosts no unfinished room. */
  lemma OnlyServingWorkersHost(c: Config, s: State, w: Id)
    requires Inv(c, s) && (w in s.workers ==> !Serving(s.workers[w].state))
    ensures Hosted(s.allocations, w) == {}
  {
    forall a | a in s.allocations && !Terminal(s.allocations[a].state) ensures s.allocations[a].worker != Some(w) {
      assert PlacedOne(s.allocations[a], s.workers);
    }
  }

  /** Every stop is issued for a worker without rooms, and that worker never hosts one again. */
  lemma StopsOnlyEmptyWorkers(c: Config, gs: seq<Global>, es: seq<Event>, i: nat, j: nat, m: Id)
    requires IsRun(c, gs, es) && i < |es| && i <= j < |gs|
    requires es[i].StopChecks? && es[i].m == m && m in gs[i + 1].managers && gs[i + 1].managers[m].phase.StopCall?
    ensures Occupied(gs[j].s.allocations, gs[i + 1].managers[m].phase.wid) == 0
  {
    var wid := gs[i + 1].managers[m].phase.wid;
    StopIssued(c, gs[i], es[i], gs[i + 1], m);
    ClosedStaysEmpty(c, gs, es, i, j, wid);
  }

  lemma StopIssued(c: Config, g: Global, e: Event, h: Global, m: Id)
    requires Next(c, g, e, h) && e.StopChecks? && e.m == m && m in h.managers && h.managers[m].phase.StopCall?
    ensures var wid := h.managers[m].phase.wid; wid in g.s.workers && g.s.workers[wid].state.Stopping?
  {
    assert Stops(c, g, e, h);
  }

  /** A worker that was drained is stopped only with its drain acknowledged, no players, all work
      finished and a fresh heartbeat; the manager that issues the stop holds an unexpired lease. */
  lemma StopsOnlyFinishedWorkers(c: Config, gs: seq<Global>, es: seq<Event>, i: nat, m: Id)
    requires IsRun(c, gs, es) && i < |es| && es[i].StopChecks? && es[i].m == m && m in gs[i + 1].managers && gs[i + 1].managers[m].phase.StopCall?
    ensures var s := gs[i].s; var wid := gs[i + 1].managers[m].phase.wid;
            && s.leader == Some(m) && es[i].now < s.leaseUntil && wid in s.workers && s.workers[wid].state == Stopping
            && var w := s.workers[wid];
            (w.draining ==>
               && w.drainAck && w.playerCount == 0 && es[i].now <= w.lastHeartbeat + c.heartbeatTimeout
               && w.metrics.simulationPending == 0 && w.metrics.simulationActive == 0 && w.metrics.auditPending == 0
               && w.metrics.auditActive == 0 && w.metrics.pendingResults == 0)
  {
    RunIsSafe(c, gs, es, i);
    assert Stops(c, gs[i], es[i], gs[i + 1]);
    var wid := gs[i + 1].managers[m].phase.wid;
    assert WorkerWell(gs[i].s.workers[wid]);
  }

  /** Stopping, stopped, lost and failed workers stay without rooms for the rest of the run. */
  lemma ClosedStaysEmpty(c: Config, gs: seq<Global>, es: seq<Event>, i: nat, j: nat, wid: Id)
    requires IsRun(c, gs, es) && i <= j < |gs| && wid in gs[i].s.workers && Closed(gs[i].s.workers[wid].state)
    ensures Occupied(gs[j].s.allocations, wid) == 0
    ensures wid in gs[j].s.workers ==> Closed(gs[j].s.workers[wid].state)
  {
    RunEvolves(c, gs, es, i, j);
    RunIsSafe(c, gs, es, j);
    assert wid in gs[j].s.workers ==> WorkerEvolves(gs[i].s.workers[wid], gs[j].s.workers[wid]);
    OnlyServingWorkersHost(c, gs[j].s, wid);
  }

  /** In every reachable state phases and open commands match one to one. */
  lemma RunIsCoherent(c: Config, gs: seq<Global>, es: seq<Event>, i: nat, aid: Id, wid: Id)
    requires IsRun(c, gs, es) && i < |gs| && aid in gs[i].s.allocations && wid in gs[i].s.workers
    ensures var s := gs[i].s;
            && |RoomOrders(s.commands, PrepareRoom, aid)| == (if s.allocations[aid].state.Preparing? then 1 else 0)
            && |RoomOrders(s.commands, CancelRoom, aid)| == (if s.allocations[aid].state.Cancelling? then 1 else 0)
            && |DrainOrders(s.commands, wid)| == (if AwaitsDrain(s.workers[wid]) then 1 else 0)
            && |OpenOrders(s.commands, wid)| <= s.workers[wid].maxRooms + 1
  {
    RunIsSafe(c, gs, es, i);
    RoomOrdersMatchPhase(c, gs[i].s, PrepareRoom, aid);
    RoomOrdersMatchPhase(c, gs[i].s, CancelRoom, aid);
    DrainOrdersMatchPhase(c, gs[i].s, wid);
    OpenOrdersAreBounded(c, gs[i].s, wid);
  }

  /** In every reachable state no user is in two unfinished allocations and keys are unique,
      every record is within its bounds, and every reference resolves. */
  lemma RunIsBounded(c: Config, gs: seq<Global>, es: seq<Event>, i: nat)
    requires IsRun(c, gs, es) && i < |gs|
    ensures var s := gs[i].s;
            && KeysUnique(s.allocations) && UsersUnique(s.allocations)
            && (forall w | w in s.workers :: Occupied(s.allocations, w) <= s.workers[w].maxRooms && 0 <= s.workers[w].playerCount <= 2 * s.workers[w].maxRooms)
            && (forall a | a in s.allocations :: 0 <= s.allocations[a].notifiedRevision <= s.allocations[a].revision <= 7)
            && (forall a | a in s.allocations && !Terminal(s.allocations[a].state) && s.allocations[a].worker.Some? ::
                  s.allocations[a].worker.value in s.workers && Serving(s.workers[s.allocations[a].worker.value].state))
            && (forall k | k in s.commands :: s.commands[k].worker in s.workers)
  {
    RunIsSafe(c, gs, es, i);
    EveryRecordIsBounded(c, gs[i].s);
    forall a | a in gs[i].s.allocations && !Terminal(gs[i].s.allocations[a].state) && gs[i].s.allocations[a].worker.Some?
      ensures Serving(gs[i].s.workers[gs[i].s.allocations[a].worker.value].state)
    {
      assert PlacedOne(gs[i].s.allocations[a], gs[i].s.workers);
    }
  }

  /** Over every run an allocation only climbs, keeps its roster and room, and stays as it ended. */
  lemma AllocationsOnlyClimb(c: Config, gs: seq<Global>, es: seq<Event>, i: nat, j: nat, aid: Id)
    requires IsRun(c, gs, es) && i <= j < |gs| && aid in gs[i].s.allocations && aid in gs[j].s.allocations
    ensures AllocationEvolves(gs[i].s.allocations[aid], gs[j].s.allocations[aid])
  {
    RunEvolves(c, gs, es, i, j);
  }

  // ---- Tickets over every run ------------------------------------------------------------------

  /** The commits around provider calls keep every session. */
  ghost predicate SameSeats(rooms: Allocations, after: Allocations) {
    after.Keys == rooms.Keys && forall a | a in rooms :: after[a].sessions == rooms[a].sessions
  }

  lemma ManagerStepSeats(c: Config, g: Global, e: Event, h: Global)
    requires Starts(c, g, e, h) || Reconciles(c, g, e, h) || Polls(c, g, e, h) || Stops(c, g, e, h)
    ensures SameSeats(g.s.allocations, h.s.allocations) && h.clock == g.clock
  {
    if Starts(c, g, e, h) {
    } else if Reconciles(c, g, e, h) {
    } else if Polls(c, g, e, h) {
      PollSeats(c, g, e, h);
    }
  }

  lemma PollSeats(c: Config, g: Global, e: Event, h: Global)
    requires Polls(c, g, e, h)
    ensures SameSeats(g.s.allocations, h.s.allocations) && h.clock == g.clock
  {
    if e.PollCommits? && Commits(g.s, e.m, g.managers[e.m].phase.wid) {
      var p := g.managers[e.m].phase;
      RuleSeats(g.s, p.wid, PollWorker(c, g.s.workers[p.wid], p.polled, e.now, e.at), e.now);
    }
  }

  lemma RuleSeats(s: State, wid: Id, v: Verdict, now: Time)
    ensures SameSeats(s.allocations, Rule(s, wid, v, now).allocations)
  {
  }

  lemma NextSeats(c: Config, g: Global, e: Event, h: Global)
    requires ValidConfig(c) && SeatsInTime(g.s.allocations, g.clock) && Next(c, g, e, h)
    ensures SeatsInTime(h.s.allocations, h.clock)
  {
    if Shared(c, g, e, h) {
      if e.Client? {
        ReplaySeats(c, e.now, g.s, e.ops, h.s, g.clock);
      }
    } else if Leading(c, g, e, h) {
      if e.Tick? {
        ReplaySeats(c, e.now, g.s, e.ops, h.s, g.clock);
      }
    } else {
      ManagerStepSeats(c, g, e, h);
    }
  }

  lemma {:induction false} RunSeats(c: Config, gs: seq<Global>, es: seq<Event>, i: nat)
    requires ValidConfig(c) && IsRun(c, gs, es) && i < |gs|
    ensures SeatsInTime(gs[i].s.allocations, gs[i].clock)
  {
    if i > 0 {
      RunSeats(c, gs, es, i - 1);
      NextSeats(c, gs[i - 1], es[i - 1], gs[i]);
    }
  }

  /** In every run, a ticket decodes to the issued claims from issue until expiry and never after,
      and its seat is the user's place in the roster. */
  lemma RunTicketsWork(mac: Tickets.Mac, key: TicketText.Bytes, c: Config, gs: seq<Global>, es: seq<Event>, i: nat,
                       user: string, aid: Id, resume: bool, now: Time, nonce: Id, at: Time)
    requires ValidConfig(c) && IsRun(c, gs, es) && i < |gs| && gs[i].clock <= now <= at && 0 <= now < TicketText.Power10(18)
    requires ByteText(user) && (forall w | w in gs[i].s.workers :: ByteText(gs[i].s.workers[w].bootId))
    requires Assignment(c, gs[i].s, user, aid, resume, now, nonce).Ticket? && forall m :: |mac(key, m)| == 32
    ensures var k := Assignment(c, gs[i].s, user, aid, resume, now, nonce).claims; var a := gs[i].s.allocations[aid];
            && Tickets.VerifyAdmission(mac, key, Tickets.Sign(mac, key, k), at) == (if at < k.exp then Tickets.Admitted(k) else Tickets.Refused)
            && 0 <= k.seat < |a.users| && a.users[k.seat] == user
  {
    RunIsSafe(c, gs, es, i);
    RunSeats(c, gs, es, i);
    TicketWorksUntilItExpires(mac, key, c, gs[i].s, user, aid, resume, now, nonce, at);
    TicketIsSound(c, gs[i].s, user, aid, resume, now, nonce);
  }
}
