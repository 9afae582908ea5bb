/** What one transaction of the leader achieves as a whole: the passes of `FleetTick` put
    together, worker by worker and allocation by allocation. */
module FleetTickWhole {
  import opened Basics
  import opened FleetState
  import opened FleetOps
  import opened FleetInvariant
  import opened FleetPreserve
  import opened FleetPlacement
  import opened FleetTick
  import opened FleetTickTable
  import FleetHistory

  // ---- What the passes do together, worker by worker -----------------------------------

  ghost predicate WorkersTicked(c: Config, before: Workers, after: Workers, now: Time) {
    after.Keys == before.Keys && forall w | w in before :: WorkerTicked(c, before[w], after[w], now)
  }

  ghost predicate WorkersPruned(before: Workers, after: Workers) {
    && (forall w | w in after :: w in before && after[w] == before[w])
    && (forall w | w in before && Counted(before[w]) :: w in after)
  }

  predicate IdleCleared(v: Worker, w: Worker) {
    w == v || w == v.(idleSince := 0)
  }

  ghost predicate WorkersPlaced(before: Workers, after: Workers) {
    after.Keys == before.Keys && forall w | w in before :: IdleCleared(before[w], after[w])
  }

  ghost predicate WorkersGrown(before: Workers, after: Workers) {
    && before.Keys <= after.Keys
    && forall w | w in after :: if w in before then after[w] == before[w] else after[w].state.Requested? && after[w].lastHeartbeat == 0 && !after[w].draining
  }

  ghost predicate WorkersScaled(c: Config, before: Workers, after: Workers, rooms: Allocations, q: nat, now: Time) {
    && after.Keys == before.Keys
    && forall w | w in before :: PassDone(c, before[w], after[w], Occupied(rooms, w), q, now, |Admitting(after)|)
  }

  /** The whole way of one worker through the transaction. */
  ghost predicate WorkerPassed(c: Config, v: Worker, w: Worker, occupied: nat, q: nat, now: Time, left: int) {
    exists m, i :: WorkerTicked(c, v, m, now) && IdleCleared(m, i) && PassDone(c, i, w, occupied, q, now, left)
  }

  /** What is known of one worker after the transaction. */
  ghost predicate WorkerSettled(c: Config, v: Worker, w: Worker, occupied: nat, now: Time, left: int) {
    && WorkerFresh(c, w, now)
    && (Counted(v) ==> Counted(w))
    && (v.state.Ready? && !v.draining && !Expiring(c, v, now) && w.draining ==> left >= c.minInstances)
    && (w.state.Stopping? && !v.state.Stopping? ==> v.state.Draining? && StopDue(c, v, occupied, now))
    && (w.state.Lost? && !v.state.Lost? ==> Unheard(c, v, now))
    && (w.state.Suspect? && !v.state.Suspect? ==> v.state.Ready? && now - v.lastHeartbeat > c.heartbeatTimeout)
    && (w.state.Ready? ==> v.state.Ready? && (w == v.(idleSince := w.idleSince)))
    && (w.state.Ready? && !w.draining && occupied > 0 ==> w.idleSince == 0)
  }

  lemma WorkerPassedSettles(c: Config, v: Worker, w: Worker, occupied: nat, q: nat, now: Time, left: int)
    requires WorkerWell(v) && WorkerPassed(c, v, w, occupied, q, now, left)
    ensures WorkerSettled(c, v, w, occupied, now, left)
  {
    var m, i :| WorkerTicked(c, v, m, now) && IdleCleared(m, i) && PassDone(c, i, w, occupied, q, now, left);
    FirstPassSettles(c, v, m, occupied, now);
    LastPassSettles(c, i, w, occupied, q, now, left);
    PassesSettle(c, v, m, i, w, occupied, now, left);
  }

  /** The first pass closes or demotes a worker, or leaves it as it was. */
  ghost predicate AfterFirst(c: Config, v: Worker, m: Worker, occupied: nat, now: Time) {
    && (Counted(v) ==> Counted(m))
    && (m.state.Stopping? ==> v.state.Stopping?)
    && (StopDue(c, m, occupied, now) ==> StopDue(c, v, occupied, now))
    && (m.state.Ready? ==> m == v)
    && (m.state.Lost? && !v.state.Lost? ==> Unheard(c, v, now))
    && (m.state.Suspect? && !v.state.Suspect? ==> v.state.Ready? && now - v.lastHeartbeat > c.heartbeatTimeout)
    && (m.draining && !v.draining ==> Expiring(c, v, now))
  }

  /** The last pass only fills the idle clock, drains an idle worker or stops a drained one. */
  ghost predicate AfterLast(c: Config, i: Worker, w: Worker, occupied: nat, now: Time, left: int) {
    && WorkerFresh(c, w, now) && (Counted(i) ==> Counted(w))
    && (w.state.Stopping? && !i.state.Stopping? ==> StopDue(c, i, occupied, now))
    && (w.state != i.state ==> w.state.Stopping? || w.state.Draining?)
    && (w.draining && !i.draining ==> left >= c.minInstances)
    && (w.state.Ready? ==> i.state.Ready? && w == i.(idleSince := w.idleSince))
    && (w.state.Ready? && !w.draining && occupied > 0 ==> w.idleSince == 0)
  }

  lemma FirstPassSettles(c: Config, v: Worker, m: Worker, occupied: nat, now: Time)
    requires WorkerWell(v) && WorkerTicked(c, v, m, now)
    ensures AfterFirst(c, v, m, occupied, now) && WorkerFresh(c, m, now)
  {
    TickedFactsHold(c, v, now);
  }

  lemma LastPassSettles(c: Config, i: Worker, w: Worker, occupied: nat, q: nat, now: Time, left: int)
    requires WorkerFresh(c, i, now) && PassDone(c, i, w, occupied, q, now, left)
    ensures AfterLast(c, i, w, occupied, now, left)
  {
  }

  lemma PassesSettle(c: Config, v: Worker, m: Worker, i: Worker, w: Worker, occupied: nat, now: Time, left: int)
    requires AfterFirst(c, v, m, occupied, now) && IdleCleared(m, i) && AfterLast(c, i, w, occupied, now, left)
    ensures WorkerSettled(c, v, w, occupied, now, left)
  {
  }

  lemma WorkersPass(c: Config, now: Time, q: nat, rooms: Allocations, w0: Workers, w1: Workers, w2: Workers, w3: Workers, w4: Workers, w5: Workers)
    requires WorkersTicked(c, w0, w1, now) && WorkersPruned(w1, w2) && WorkersPlaced(w2, w3) && WorkersGrown(w3, w4) && WorkersScaled(c, w4, w5, rooms, q, now)
    ensures forall w | w in w5 && w in w0 && w in w2 :: WorkerPassed(c, w0[w], w5[w], Occupied(rooms, w), q, now, |Admitting(w5)|)
    ensures forall w | w in w5 && w !in w2 :: WorkerFresh(c, w5[w], now) && w5[w].state.Requested?
    ensures forall w | w in w0 && Counted(w0[w]) :: w in w2 && w in w5
  {
    forall w | w in w5 && w in w0 && w in w2 ensures WorkerPassed(c, w0[w], w5[w], Occupied(rooms, w), q, now, |Admitting(w5)|) {
      assert WorkerTicked(c, w0[w], w1[w], now) && IdleCleared(w1[w], w4[w]);
      assert PassDone(c, w4[w], w5[w], Occupied(rooms, w), q, now, |Admitting(w5)|);
    }
    forall w | w in w5 && w !in w2 ensures WorkerFresh(c, w5[w], now) && w5[w].state.Requested? {
      assert PassDone(c, w4[w], w5[w], Occupied(rooms, w), q, now, |Admitting(w5)|);
      NewcomerStays(c, w4[w], w5[w], Occupied(rooms, w), q, now, |Admitting(w5)|);
    }
    forall w | w in w0 && Counted(w0[w]) ensures w in w2 && w in w5 {
      assert WorkerTicked(c, w0[w], w1[w], now);
      TickedStaysCounted(c, w0[w], w1[w], now);
    }
  }

  lemma NewcomerStays(c: Config, i: Worker, w: Worker, occupied: nat, q: nat, now: Time, left: int)
    requires PassDone(c, i, w, occupied, q, now, left) && i.state.Requested? && i.lastHeartbeat == 0 && !i.draining
    ensures WorkerFresh(c, w, now) && w.state.Requested?
  {
  }

  lemma TickedStaysCounted(c: Config, v: Worker, m: Worker, now: Time)
    requires WorkerTicked(c, v, m, now) && Counted(v)
    ensures Counted(m)
  {
  }

  // ---- What the passes do together, allocation by allocation ---------------------------

  /** The deadlines an allocation meets right after a tick. */
  predicate InTime(a: Allocation, now: Time) {
    && (a.state.Waiting? || a.state.Preparing? || a.state.Prepared? || a.state.Assigned? ==> now < a.expiresAt)
    && (a.state.Active? ==> !ReconnectElapsed(a.sessions, now))
  }

  ghost predicate RoomsInTime(rooms: Allocations, now: Time) {
    forall a | a in rooms :: InTime(rooms[a], now)
  }

  lemma ExpireInTime(workers: Workers, rooms: Allocations, now: Time)
    ensures RoomsInTime(map a | a in rooms :: Expire(workers, rooms[a], now), now)
  {
  }

  ghost predicate RoomsReserved(c: Config, workers: Workers, before: Allocations, after: Allocations, now: Time) {
    && after.Keys == before.Keys
    && forall a | a in before ::
         if SeatsDue(c, workers, before[a], now) then Seated2(c, before[a], after[a], now) else after[a] == before[a]
  }

  lemma ReserveInTime(c: Config, workers: Workers, before: Allocations, after: Allocations, now: Time)
    requires ValidConfig(c) && RoomsInTime(before, now) && RoomsReserved(c, workers, before, after, now)
    ensures RoomsInTime(after, now)
    ensures forall a | a in after :: !SeatsDue(c, workers, after[a], now)
  {
    forall a | a in after ensures InTime(after[a], now) && !SeatsDue(c, workers, after[a], now) {
      assert InTime(before[a], now);
    }
  }

  ghost predicate RoomsPlaced(c: Config, before: Allocations, after: Allocations, now: Time) {
    && after.Keys == before.Keys
    && forall a | a in before :: after[a] == before[a] || PlacedNow(c, now, before[a], after[a])
  }

  lemma PlaceInTime(c: Config, before: Allocations, after: Allocations, now: Time)
    requires ValidConfig(c) && RoomsInTime(before, now) && RoomsPlaced(c, before, after, now)
    ensures RoomsInTime(after, now)
  {
    forall a | a in after ensures InTime(after[a], now) {
      assert InTime(before[a], now);
    }
  }

  /** Up to placement an allocation is untouched, or past the queue for good. */
  ghost predicate Unqueued(before: Allocations, after: Allocations) {
    forall a | a in after :: a in before && (after[a] == before[a] || Rank(after[a].state) >= 3)
  }

  lemma ExpiryUnqueues(workers: Workers, gone: set<Id>, now: Time, r0: Allocations, r1: Allocations, r2: Allocations)
    requires RoomsLost(r0, r1, gone, now) && r2 == (map a | a in r1 :: Expire(workers, r1[a], now))
    ensures Unqueued(r0, r2)
  {
    forall a | a in r2 ensures a in r0 && (r2[a] == r0[a] || Rank(r2[a].state) >= 3) {
      ExpireUnqueues(workers, r1[a], now);
    }
  }

  lemma ExpireUnqueues(workers: Workers, a: Allocation, now: Time)
    ensures Expire(workers, a, now) == a || Rank(Expire(workers, a, now).state) >= 3
  {
  }

  lemma ReserveUnqueues(c: Config, workers: Workers, now: Time, r0: Allocations, r2: Allocations, r3: Allocations, r4: Allocations)
    requires Unqueued(r0, r2) && r3 == (map a | a in r2 && !OldAllocation(r2[a], now) :: r2[a]) && RoomsReserved(c, workers, r3, r4, now)
    ensures Unqueued(r0, r4)
  {
    forall a | a in r4 ensures a in r0 && (r4[a] == r0[a] || Rank(r4[a].state) >= 3) {
      assert a in r3 && a in r2;
    }
  }

  /** Eligibility is not gained during the last passes. */
  lemma EligibleBefore(c: Config, i: Worker, w: Worker, occupied: nat, q: nat, now: Time, left: int)
    requires PassDone(c, i, w, occupied, q, now, left) && Eligible(c, w, now)
    ensures Eligible(c, i, now) && i.maxRooms == w.maxRooms
  {
  }

  lemma FullStays(c: Config, now: Time, q: nat, m: State, t: State, grown: Workers)
    requires AllFull(c, m, now) && WorkersGrown(m.workers, grown) && WorkersScaled(c, grown, t.workers, m.allocations, q, now) && t.allocations == m.allocations
    ensures AllFull(c, t, now)
  {
    forall w | w in t.workers && Eligible(c, t.workers[w], now) ensures Occupied(t.allocations, w) >= t.workers[w].maxRooms {
      EligibleBefore(c, grown[w], t.workers[w], Occupied(m.allocations, w), q, now, |Admitting(t.workers)|);
      assert w in m.workers;
    }
  }

  /** The workers that are eligible after the last passes were eligible when seats were given. */
  lemma EligibleThroughout(c: Config, now: Time, q: nat, w2: Workers, w3: Workers, w4: Workers, w5: Workers, rooms: Allocations, w: Id)
    requires WorkersPlaced(w2, w3) && WorkersGrown(w3, w4) && WorkersScaled(c, w4, w5, rooms, q, now)
    requires w in w5 && Eligible(c, w5[w], now)
    ensures w in w2 && Eligible(c, w2[w], now)
  {
    EligibleBefore(c, w4[w], w5[w], Occupied(rooms, w), q, now, |Admitting(w5)|);
  }

  lemma SeatsStay(c: Config, now: Time, q: nat, w2: Workers, w3: Workers, w4: Workers, w5: Workers, rooms: Allocations, before: Allocations)
    requires WorkersPlaced(w2, w3) && WorkersGrown(w3, w4) && WorkersScaled(c, w4, w5, rooms, q, now) && RoomsPlaced(c, before, rooms, now)
    requires forall a | a in before :: !SeatsDue(c, w2, before[a], now)
    ensures forall a | a in rooms :: !SeatsDue(c, w5, rooms[a], now)
  {
    forall a | a in rooms ensures !SeatsDue(c, w5, rooms[a], now) {
      if SeatsDue(c, w5, rooms[a], now) {
        EligibleThroughout(c, now, q, w2, w3, w4, w5, rooms, rooms[a].worker.value);
        SeatsWereDue(c, w2, w5, before[a], rooms[a], now);
      }
    }
  }

  lemma SeatsWereDue(c: Config, w2: Workers, w5: Workers, a: Allocation, b: Allocation, now: Time)
    requires SeatsDue(c, w5, b, now) && b.worker.value in w2 && Eligible(c, w2[b.worker.value], now)
    requires b == a || PlacedNow(c, now, a, b)
    ensures SeatsDue(c, w2, a, now)
  {
  }

  /** What was placed without preference came before what still waits. */
  ghost predicate FirstComeFirstServed(before: Allocations, after: Allocations) {
    forall a, b | a in after && b in after && b in before && after[a].state.Waiting? && after[a].preferred.None? &&
                  before[b].state.Waiting? && before[b].preferred.None? && after[b].state.Preparing? ::
      after[b].createdAt < after[a].createdAt || (after[b].createdAt == after[a].createdAt && b < a)
  }

  lemma FifoHolds(c: Config, now: Time, first: Allocations, m: State, t: State, queue: seq<Id>, ids: seq<Id>)
    requires Unqueued(first, m.allocations) && QueueReady(m, queue, ids) && t == PlaceQueue(c, m, queue, now, ids)
    requires Sorted(m.allocations, queue) && (forall a :: a in queue <==> a in WaitingSet(m.allocations))
    requires RoomsPlaced(c, m.allocations, t.allocations, now)
    ensures FirstComeFirstServed(first, t.allocations)
  {
    forall a, b | a in t.allocations && b in t.allocations && b in first && t.allocations[a].state.Waiting? && t.allocations[a].preferred.None? &&
                  first[b].state.Waiting? && first[b].preferred.None? && t.allocations[b].state.Preparing?
      ensures t.allocations[b].createdAt < t.allocations[a].createdAt || (t.allocations[b].createdAt == t.allocations[a].createdAt && b < a)
    {
      assert a in WaitingSet(m.allocations) && b in WaitingSet(m.allocations);
      PlacementFifo(c, now, m, queue, ids, a, b);
    }
  }

  lemma FullIfQueued(c: Config, now: Time, m: State, t: State, queue: seq<Id>, ids: seq<Id>)
    requires QueueReady(m, queue, ids) && t == PlaceQueue(c, m, queue, now, ids)
    requires forall a :: a in queue <==> a in WaitingSet(m.allocations)
    requires RoomsPlaced(c, m.allocations, t.allocations, now) && Queued(t.allocations) != {}
    ensures AllFull(c, t, now)
  {
    var a :| a in Queued(t.allocations);
    assert a in WaitingSet(m.allocations);
    var i :| 0 <= i < |queue| && queue[i] == a;
    WaitingMeansFull(c, now, m, queue, ids, i);
  }

  // ---- Demand ---------------------------------------------------------------------------

  /** Nothing more to create: creation is held back, or what is booting covers the queue and
      the minimum. */
  ghost predicate DemandMet(c: Config, s: State, now: Time) {
    || s.blocked || now < s.nextCreateAt || |Live(s.workers)| >= c.maxInstances
    || var boot := BootRooms(c, s.workers, s.workers.Keys, now);
       |Queued(s.allocations)| <= boot && (|Admitting(s.workers)| >= c.minInstances || boot > 0)
  }

  lemma {:induction false} BootFrame(c: Config, before: Workers, after: Workers, some: set<Id>, now: Time)
    requires some <= before.Keys && some <= after.Keys
    requires forall w | w in some :: Booting(c, before[w], now) == Booting(c, after[w], now) && before[w].maxRooms == after[w].maxRooms
    ensures BootRooms(c, before, some, now) == BootRooms(c, after, some, now)
  {
    if some != {} {
      var w :| w in some;
      BootRoomsOne(c, before, some, now, w);
      BootRoomsOne(c, after, some, now, w);
      BootFrame(c, before, after, some - {w}, now);
    }
  }

  lemma ScalingKeepsBoot(c: Config, now: Time, q: nat, before: Workers, after: Workers, rooms: Allocations)
    requires WorkersScaled(c, before, after, rooms, q, now)
    ensures BootRooms(c, before, before.Keys, now) == BootRooms(c, after, after.Keys, now)
    ensures Live(after) == Live(before)
  {
    forall w | w in before
      ensures Booting(c, before[w], now) == Booting(c, after[w], now) && before[w].maxRooms == after[w].maxRooms && Counted(before[w]) == Counted(after[w])
    {
      assert PassDone(c, before[w], after[w], Occupied(rooms, w), q, now, |Admitting(after)|);
      LastPassKeepsBooting(c, before[w], after[w], Occupied(rooms, w), q, now, |Admitting(after)|);
    }
    BootFrame(c, before, after, before.Keys, now);
  }

  lemma ScalingKeepsMinimum(c: Config, now: Time, q: nat, before: Workers, after: Workers, rooms: Allocations)
    requires WorkersScaled(c, before, after, rooms, q, now)
    ensures |Admitting(after)| >= c.minInstances || |Admitting(after)| >= |Admitting(before)|
  {
    if w :| w in before && DrainedNow(before[w], after[w]) {
      assert PassDone(c, before[w], after[w], Occupied(rooms, w), q, now, |Admitting(after)|);
    } else {
      forall w | w in Admitting(before) ensures w in Admitting(after) {
        assert PassDone(c, before[w], after[w], Occupied(rooms, w), q, now, |Admitting(after)|);
      }
      SubsetSize(Admitting(before), Admitting(after));
    }
  }

  lemma DemandIsMet(c: Config, now: Time, q: nat, m: State, g: State, t: State)
    requires if CreateDue(c, m, now) then Created(c, m, g, now) else g == m
    requires WorkersScaled(c, g.workers, t.workers, m.allocations, q, now)
    requires t.allocations == m.allocations && t.blocked == g.blocked && t.nextCreateAt == g.nextCreateAt
    ensures DemandMet(c, t, now)
  {
    if !CreateDue(c, m, now) {
      ScalingKeepsBoot(c, now, q, m.workers, t.workers, m.allocations);
      ScalingKeepsMinimum(c, now, q, m.workers, t.workers, m.allocations);
    }
  }

  // ---- The whole transaction ------------------------------------------------------------

  function Remembered(rooms: Allocations, now: Time): Allocations {
    map a | a in rooms && !OldAllocation(rooms[a], now) :: rooms[a]
  }

  method TickExpiry(c: Config, s: State, now: Time) returns (t: State, ghost ops: seq<Op>)
    requires WorkersWell(s.workers) && Placed(s.allocations, s.workers)
    ensures Replay(c, now, s, ops) == Some(t) && OnlyRoomsAndWorkers(s, t)
    ensures RoomsInTime(t.allocations, now) && Unqueued(s.allocations, t.allocations) && WorkersTicked(c, s.workers, t.workers, now)
    ensures RoomsAfterExpiry(c, s, t.allocations, now)
  {
    var m, before := TickWorkers(c, s, now);
    ghost var more;
    t, more := TickAllocations(c, m, now);
    ops := Chain(c, now, s, before, m, more, t);
    ExpireInTime(m.workers, m.allocations, now);
    ExpiryUnqueues(m.workers, LostWorkers(c, s.workers, now), now, s.allocations, m.allocations, t.allocations);
    RoomsExpiryAgrees(c, s, m, t.allocations, now);
  }

  method TickPrune(c: Config, s: State, now: Time) returns (t: State, ghost ops: seq<Op>)
    ensures Replay(c, now, s, ops) == Some(t) && OnlyRoomsAndWorkers(s, t)
    ensures t.allocations == Remembered(s.allocations, now) && WorkersPruned(s.workers, t.workers) && Swept(s.workers, t.workers, t.allocations, now)
  {
    var m, before := PruneAllocations(c, s, now);
    var n, more := PruneCommands(c, m, now);
    ghost var rest;
    before := Chain(c, now, s, before, m, more, n);
    t, rest := PruneWorkers(c, n, now);
    ops := Chain(c, now, s, before, n, rest, t);
    PruningPrunes(n, t, now);
    SweepAgrees(n, t, now);
  }

  method TickSeats(c: Config, s: State, now: Time) returns (t: State, ghost ops: seq<Op>)
    requires Inv(c, s)
    ensures Replay(c, now, s, ops) == Some(t) && t == s.(allocations := t.allocations)
    ensures RoomsReserved(c, s.workers, s.allocations, t.allocations, now)
  {
    RostersArePairs(c, s);
    t, ops := ReserveSeatsDue(c, s, now);
  }

  lemma DeadlinesKept(c: Config, now: Time, workers: Workers, first: Allocations, r1: Allocations, r2: Allocations, r3: Allocations)
    requires ValidConfig(c) && RoomsInTime(r1, now) && Unqueued(first, r1) && r2 == Remembered(r1, now) && RoomsReserved(c, workers, r2, r3, now)
    ensures RoomsInTime(r3, now) && Unqueued(first, r3)
    ensures forall a | a in r3 :: !SeatsDue(c, workers, r3[a], now) && !OldAllocation(r3[a], now)
  {
    assert RoomsInTime(r2, now) by {
      forall a | a in r2 ensures InTime(r2[a], now) {
        assert InTime(r1[a], now);
      }
    }
    ReserveInTime(c, workers, r2, r3, now);
    ReserveUnqueues(c, workers, now, first, r1, r2, r3);
    forall a | a in r3 ensures !OldAllocation(r3[a], now) {
      assert !OldAllocation(r2[a], now);
    }
  }

  /** What the passes up to placement leave, from the state `s` and the workers after the first pass. */
  ghost predicate Deadlined(c: Config, s: State, ticked: Workers, t: State, now: Time) {
    && RoomsInTime(t.allocations, now) && Unqueued(s.allocations, t.allocations)
    && (forall a | a in t.allocations :: !SeatsDue(c, t.workers, t.allocations[a], now) && !OldAllocation(t.allocations[a], now))
    && WorkersTicked(c, s.workers, ticked, now) && WorkersPruned(ticked, t.workers)
    && RoomsOutcome(c, s, t.allocations, now) && Swept(ticked, t.workers, t.allocations, now) && SeatedFit(c, s.allocations, t, now)
  }

  lemma DeadlinesMet(c: Config, s: State, m: State, n: State, t: State, now: Time)
    requires ValidConfig(c) && RoomsInTime(m.allocations, now) && Unqueued(s.allocations, m.allocations)
    requires WorkersTicked(c, s.workers, m.workers, now) && RoomsAfterExpiry(c, s, m.allocations, now)
    requires n.allocations == Remembered(m.allocations, now) && WorkersPruned(m.workers, n.workers) && Swept(m.workers, n.workers, n.allocations, now)
    requires t == n.(allocations := t.allocations) && RoomsReserved(c, n.workers, n.allocations, t.allocations, now)
    ensures Deadlined(c, s, m.workers, t, now)
  {
    DeadlinesKept(c, now, n.workers, s.allocations, m.allocations, n.allocations, t.allocations);
    DeadlinesAgree(c, s, n.workers, m.allocations, n.allocations, t.allocations, now);
    SweptStays(c, m.workers, n.workers, n.allocations, t.allocations, now);
    SeatedFitHolds(c, s, n.workers, m.allocations, n.allocations, t, now);
  }

  /** The passes up to placement: ends what is overdue, forgets what is old, seats what is prepared. */
  method TickDeadlines(c: Config, s: State, now: Time) returns (t: State, ghost ops: seq<Op>, ghost ticked: Workers)
    requires ValidConfig(c) && Inv(c, s)
    ensures Replay(c, now, s, ops) == Some(t) && OnlyRoomsAndWorkers(s, t) && Deadlined(c, s, ticked, t, now)
  {
    var m, before := TickExpiry(c, s, now);
    ticked := m.workers;
    var n, more := TickPrune(c, m, now);
    before := Chain(c, now, s, before, m, more, n);
    ReplayKeeps(c, now, s, before, n);
    ghost var rest;
    t, rest := TickSeats(c, n, now);
    ops := Chain(c, now, s, before, n, rest, t);
    DeadlinesMet(c, s, m, n, t, now);
  }

  /** Seats were given on eligible hosts. */
  ghost predicate SeatedFit(c: Config, before: Allocations, t: State, now: Time) {
    forall a | a in t.allocations && a in before && before[a].state == Prepared && t.allocations[a].state == Assigned ::
      t.allocations[a].worker.Some? && t.allocations[a].worker.value in t.workers && Eligible(c, t.workers[t.allocations[a].worker.value], now)
  }

  lemma SeatedFitHolds(c: Config, s: State, workers: Workers, r1: Allocations, r2: Allocations, t: State, now: Time)
    requires RoomsAfterExpiry(c, s, r1, now) && r2 == Remembered(r1, now) && RoomsReserved(c, workers, r2, t.allocations, now) && t.workers == workers
    ensures SeatedFit(c, s.allocations, t, now)
  {
    forall a | a in t.allocations && a in s.allocations && s.allocations[a].state == Prepared && t.allocations[a].state == Assigned
      ensures SeatsDue(c, workers, r2[a], now) && t.allocations[a].worker == r2[a].worker
    {
      assert AfterExpiry(c, s.workers, s.allocations[a], r1[a], now);
      if SeatsDue(c, workers, r2[a], now) {
        SeatingAgrees(c, r2[a], t.allocations[a], now);
      }
    }
  }

  lemma SweptStays(c: Config, before: Workers, workers: Workers, r2: Allocations, r3: Allocations, now: Time)
    requires Swept(before, workers, r2, now) && RoomsReserved(c, workers, r2, r3, now)
    ensures Swept(before, workers, r3, now)
  {
    forall w | w in before ensures Unneeded(r2, w) <==> Unneeded(r3, w) {
      SeatsKeepNeeds(c, workers, r2, r3, now, w);
    }
  }

  lemma RostersArePairs(c: Config, s: State)
    requires Inv(c, s)
    ensures forall a | a in s.allocations :: |s.allocations[a].users| == 2
  {
    forall a | a in s.allocations ensures |s.allocations[a].users| == 2 {
      assert AllocationWell(s.allocations[a]);
    }
  }

  lemma PruningPrunes(s: State, t: State, now: Time)
    requires t.workers == map w | w in s.workers && !OldWorker(s, w, now) :: s.workers[w]
    ensures WorkersPruned(s.workers, t.workers)
  {
  }

  /** Placement: first come, first served, and nobody waits beside a free room. */
  method TickPlacement(c: Config, s: State, now: Time, ghost first: Allocations) returns (t: State, ghost ops: seq<Op>)
    requires Unqueued(first, s.allocations) && WaitingUnhosted(s.allocations)
    ensures Replay(c, now, s, ops) == Some(t) && Served(c, first, s, t, now)
  {
    ghost var queue, ids;
    t, ops, queue, ids := PlaceWaiting(c, s, now);
    QueueOnly(c, now, s, queue, ids);
    HostingsHold(c, now, s, queue, ids);
    FifoHolds(c, now, first, s, t, queue, ids);
    if Queued(t.allocations) != {} {
      FullIfQueued(c, now, s, t, queue, ids);
    }
  }

  lemma Growth(c: Config, s: State, t: State, now: Time)
    requires IdsIssued(s) && if CreateDue(c, s, now) then Created(c, s, t, now) else t == s
    ensures WorkersGrown(s.workers, t.workers) && Admitting(t.workers) == Admitting(s.workers)
    ensures t.allocations == s.allocations && t.leader == s.leader && t.leaseUntil == s.leaseUntil
    ensures forall w | w in t.workers && w !in s.workers :: w !in s.issued
  {
  }

  method TickScaling(c: Config, s: State, now: Time) returns (t: State, ghost ops: seq<Op>, ghost grown: Workers, ghost q: nat)
    requires Inv(c, s)
    ensures Replay(c, now, s, ops) == Some(t) && Scaled(c, s, grown, q, t, now)
    ensures forall w | w in grown && w !in s.workers :: w !in s.issued
  {
    var m, before, queued, ready := ScaleUp(c, s, now);
    q, grown := queued, m.workers;
    ReplayKeeps(c, now, s, before, m);
    Growth(c, s, m, now);
    ghost var more;
    t, more := ScaleDown(c, m, now, queued, ready);
    ops := Chain(c, now, s, before, m, more, t);
    DemandIsMet(c, now, q, s, m, t);
    GrowthIsWell(c, s, m, t, now);
  }

  /** How the fleet grew: not at all, or by one new record for which there was demand. */
  ghost predicate GrownWell(c: Config, s: State, grown: Workers, t: State, now: Time) {
    && t.blocked == s.blocked && t.rooms == s.rooms
    && (|| (grown == s.workers && t.nextCreateAt == s.nextCreateAt)
        || exists w :: GrownBy(c, s, grown, t, now, w))
  }

  ghost predicate GrownBy(c: Config, s: State, grown: Workers, t: State, now: Time, w: Id) {
    && w !in s.workers && w in grown && grown == s.workers[w := grown[w]] && NewRecord(c, grown[w], s.rooms, now)
    && !s.blocked && s.nextCreateAt <= now && t.nextCreateAt == now + 1
    && var space := BootRooms(c, s.workers, s.workers.Keys, now);
       |Queued(s.allocations)| > space || space == 0
  }

  lemma GrowthIsWell(c: Config, s: State, m: State, t: State, now: Time)
    requires IdsIssued(s) && (if CreateDue(c, s, now) then Created(c, s, m, now) else m == s)
    requires t.blocked == m.blocked && t.rooms == m.rooms && t.nextCreateAt == m.nextCreateAt
    ensures GrownWell(c, s, m.workers, t, now)
  {
    if CreateDue(c, s, now) {
      var w :| w !in s.issued && m == s.(workers := s.workers[w := NewWorker(c, now, s.rooms)], issued := s.issued + {w}, nextCreateAt := now + 1);
      assert GrownBy(c, s, m.workers, t, now, w);
    }
  }

  /** Everything promised of the state right after a leader's transaction at time `now`. */
  ghost predicate TickDone(c: Config, owner: Id, s: State, t: State, now: Time) {
    && t.leader == Some(owner) && t.leaseUntil == now + 30
    && TickRooms(c, s.allocations, t, now) && TickedWorkers(c, s.workers, t, now) && DemandMet(c, t, now)
    && TickTable(c, s, t, now)
  }

  /** The table of every record's outcome. */
  ghost predicate TickTable(c: Config, s: State, t: State, now: Time) {
    RoomsOutcome(c, s, t.allocations, now) && WorkersOutcome(c, s, t, now) && PlacementTable(c, s, t, now) && NewcomerTable(c, s, t, now)
  }

  ghost predicate WorkersOutcome(c: Config, s: State, t: State, now: Time) {
    forall w | w in s.workers ::
      && (w in t.workers <==> !(Rubbish(s.workers[w], now) && Unneeded(t.allocations, w)))
      && (w in t.workers ==> WorkerOutcome(c, s.workers[w], t.workers[w], Occupied(t.allocations, w), |WaitingAnywhere(t.allocations)|, |Open(t.workers)|, now))
  }

  lemma RubbishStays(c: Config, v: Worker, m: Worker, now: Time)
    requires WorkerTicked(c, v, m, now)
    ensures Rubbish(v, now) <==> Rubbish(m, now)
    ensures Rubbish(m, now) ==> !Eligible(c, m, now)
  {
  }

  lemma WorkersSwept(c: Config, now: Time, w0: Workers, w1: Workers, n: State, m: State, w: Id)
    requires WorkersTicked(c, w0, w1, now) && Swept(w1, n.workers, n.allocations, now) && w in w0
    requires PlacementOnly(c, now, n, m) && Hostings(c, now, n, m) && WaitingUnhosted(n.allocations)
    ensures w in m.workers <==> !(Rubbish(w0[w], now) && Unneeded(m.allocations, w))
  {
    assert WorkerTicked(c, w0[w], w1[w], now);
    RubbishStays(c, w0[w], w1[w], now);
    if Rubbish(w1[w], now) {
      PlacementKeepsNeeds(c, now, n, m, w);
    }
  }

  lemma WorkersOutcomeHolds(c: Config, now: Time, q: nat, s: State, w1: Workers, n: State, m: State, w4: Workers, t: State)
    requires WorkersWell(s.workers) && WorkersTicked(c, s.workers, w1, now) && Swept(w1, n.workers, n.allocations, now)
    requires PlacementOnly(c, now, n, m) && Hostings(c, now, n, m) && WaitingUnhosted(n.allocations)
    requires WorkersGrown(m.workers, w4) && WorkersScaled(c, w4, t.workers, t.allocations, q, now) && t.allocations == m.allocations
    requires q == |Queued(m.allocations)| && forall w | w in w4 && w !in m.workers :: w !in s.workers
    ensures WorkersOutcome(c, s, t, now)
  {
    SetsAgree(t.allocations, t.workers);
    forall w | w in s.workers
      ensures w in t.workers <==> !(Rubbish(s.workers[w], now) && Unneeded(t.allocations, w))
      ensures w in t.workers ==> WorkerOutcome(c, s.workers[w], t.workers[w], Occupied(t.allocations, w), |WaitingAnywhere(t.allocations)|, |Open(t.workers)|, now)
    {
      WorkersSwept(c, now, s.workers, w1, n, m, w);
      if w in t.workers {
        OneWorkerAgrees(c, now, q, s, w1, n, m, w4, t, w);
      }
    }
  }

  lemma OneWorkerAgrees(c: Config, now: Time, q: nat, s: State, w1: Workers, n: State, m: State, w4: Workers, t: State, w: Id)
    requires WorkersWell(s.workers) && WorkersTicked(c, s.workers, w1, now) && Swept(w1, n.workers, n.allocations, now)
    requires PlacementOnly(c, now, n, m) && ClearedHost(n.workers, m.workers, m.allocations)
    requires WorkersGrown(m.workers, w4) && WorkersScaled(c, w4, t.workers, t.allocations, q, now) && t.allocations == m.allocations
    requires w in s.workers && w in m.workers && w in t.workers
    ensures WorkerOutcome(c, s.workers[w], t.workers[w], Occupied(t.allocations, w), q, |Admitting(t.workers)|, now)
  {
    assert WorkerWell(s.workers[w]) && WorkerTicked(c, s.workers[w], w1[w], now) && n.workers[w] == w1[w] && w4[w] == m.workers[w];
    assert PassDone(c, w4[w], t.workers[w], Occupied(t.allocations, w), q, now, |Admitting(t.workers)|);
    assert m.workers[w] != n.workers[w] ==> Hosted(m.allocations, w) != {};
    PassesAgree(c, s.workers[w], w1[w], w4[w], t.workers[w], Occupied(t.allocations, w), q, |Admitting(t.workers)|, now);
  }

  /** Deadlines met, history bounded, seats given, queue served in order and only short of full. */
  ghost predicate TickRooms(c: Config, before: Allocations, t: State, now: Time) {
    && RoomsInTime(t.allocations, now)
    && (forall a | a in t.allocations :: !SeatsDue(c, t.workers, t.allocations[a], now) && !OldAllocation(t.allocations[a], now))
    && FirstComeFirstServed(before, t.allocations)
    && (Queued(t.allocations) != {} ==> AllFull(c, t, now))
  }

  ghost predicate TickedWorkers(c: Config, before: Workers, t: State, now: Time) {
    && (forall w | w in before && Counted(before[w]) :: w in t.workers)
    && (forall w | w in t.workers ::
          if w in before then WorkerSettled(c, before[w], t.workers[w], Occupied(t.allocations, w), now, |Admitting(t.workers)|)
          else WorkerFresh(c, t.workers[w], now) && t.workers[w].state.Requested?)
  }

  lemma TickWorkersSettle(c: Config, now: Time, q: nat, t: State, w0: Workers, w1: Workers, w2: Workers, w3: Workers, w4: Workers)
    requires WorkersWell(w0) && WorkersTicked(c, w0, w1, now) && WorkersPruned(w1, w2) && WorkersPlaced(w2, w3)
    requires WorkersGrown(w3, w4) && WorkersScaled(c, w4, t.workers, t.allocations, q, now)
    requires forall w | w in w4 && w !in w3 :: w !in w0
    ensures TickedWorkers(c, w0, t, now)
  {
    WorkersPass(c, now, q, t.allocations, w0, w1, w2, w3, w4, t.workers);
    forall w | w in t.workers && w in w0
      ensures WorkerSettled(c, w0[w], t.workers[w], Occupied(t.allocations, w), now, |Admitting(t.workers)|)
    {
      assert WorkerWell(w0[w]);
      WorkerPassedSettles(c, w0[w], t.workers[w], Occupied(t.allocations, w), q, now, |Admitting(t.workers)|);
    }
  }

  lemma TickRoomsHold(c: Config, now: Time, q: nat, before: Allocations, n: State, m: State, w4: Workers, t: State)
    requires ValidConfig(c) && RoomsInTime(n.allocations, now) && PlacementOnly(c, now, n, m) && t.allocations == m.allocations
    requires forall a | a in n.allocations :: !SeatsDue(c, n.workers, n.allocations[a], now) && !OldAllocation(n.allocations[a], now)
    requires WorkersGrown(m.workers, w4) && WorkersScaled(c, w4, t.workers, m.allocations, q, now)
    requires FirstComeFirstServed(before, m.allocations) && (Queued(m.allocations) != {} ==> AllFull(c, m, now))
    ensures TickRooms(c, before, t, now)
  {
    PlaceInTime(c, n.allocations, m.allocations, now);
    assert WorkersPlaced(n.workers, m.workers);
    SeatsStay(c, now, q, n.workers, m.workers, w4, t.workers, m.allocations, n.allocations);
    forall a | a in t.allocations ensures !OldAllocation(t.allocations[a], now) {
      assert !OldAllocation(n.allocations[a], now);
    }
    if Queued(t.allocations) != {} {
      FullStays(c, now, q, m, t, w4);
    }
  }

  /** A host that was eligible before placement and has a room is fit after the last pass. */
  lemma HostStaysFit(c: Config, now: Time, q: nat, n: State, m: State, w4: Workers, t: State, w: Id)
    requires PlacementOnly(c, now, n, m) && WorkersGrown(m.workers, w4) && WorkersScaled(c, w4, t.workers, t.allocations, q, now)
    requires w in n.workers && Eligible(c, n.workers[w], now) && Hosted(t.allocations, w) != {}
    ensures w in t.workers && Fit(c, t.workers[w], now)
  {
    EligibleUnlessIdle(c, now, n.workers[w], m.workers[w]);
    assert PassDone(c, w4[w], t.workers[w], Occupied(t.allocations, w), q, now, |Admitting(t.workers)|);
    FitThroughLast(c, w4[w], t.workers[w], Occupied(t.allocations, w), q, now, |Admitting(t.workers)|);
  }

  /** A worker that is fit in the end was eligible before placement. */
  lemma FitWasEligible(c: Config, now: Time, q: nat, n: State, m: State, w4: Workers, t: State, w: Id)
    requires PlacementOnly(c, now, n, m) && WorkersGrown(m.workers, w4) && WorkersScaled(c, w4, t.workers, t.allocations, q, now)
    requires w in t.workers && Fit(c, t.workers[w], now)
    ensures w in n.workers && Eligible(c, n.workers[w], now) && n.workers[w].maxRooms == t.workers[w].maxRooms
  {
    assert PassDone(c, w4[w], t.workers[w], Occupied(t.allocations, w), q, now, |Admitting(t.workers)|);
    FitThroughLast(c, w4[w], t.workers[w], Occupied(t.allocations, w), q, now, |Admitting(t.workers)|);
    assert w in m.workers;
    EligibleUnlessIdle(c, now, n.workers[w], m.workers[w]);
  }

  lemma PlacedIsFit(c: Config, now: Time, q: nat, n: State, m: State, w4: Workers, t: State, a: Id)
    requires PlacementOnly(c, now, n, m) && WorkersGrown(m.workers, w4) && WorkersScaled(c, w4, t.workers, t.allocations, q, now)
    requires a in t.allocations && t.allocations[a].state == Preparing && WellHosted(c, now, n, t.allocations[a])
    ensures HostFit(c, t.workers, t.allocations[a], now) && (t.allocations[a].preferred == None || t.allocations[a].preferred == t.allocations[a].worker)
  {
    var w := t.allocations[a].worker.value;
    assert a in Hosted(t.allocations, w);
    HostStaysFit(c, now, q, n, m, w4, t, w);
  }

  lemma PlacedWasWaiting(c: Config, now: Time, before: Allocations, n: State, m: State, a: Id)
    requires Unqueued(before, n.allocations) && PlacementOnly(c, now, n, m) && Hostings(c, now, n, m)
    requires a in m.allocations && a in before && before[a].state == Waiting && m.allocations[a].state == Preparing
    ensures WellHosted(c, now, n, m.allocations[a])
  {
    assert a in n.allocations && (n.allocations[a] == before[a] || Rank(n.allocations[a].state) >= 3);
  }

  lemma SeatedIsFit(c: Config, now: Time, q: nat, s: State, n: State, m: State, w4: Workers, t: State, a: Id)
    requires SeatedFit(c, s.allocations, n, now) && PlacementOnly(c, now, n, m) && t.allocations == m.allocations
    requires WorkersGrown(m.workers, w4) && WorkersScaled(c, w4, t.workers, t.allocations, q, now)
    requires a in t.allocations && a in s.allocations && s.allocations[a].state == Prepared && t.allocations[a].state == Assigned
    ensures HostFit(c, t.workers, t.allocations[a], now)
  {
    assert n.allocations[a] == t.allocations[a];
    var w := t.allocations[a].worker.value;
    assert a in Hosted(t.allocations, w);
    HostStaysFit(c, now, q, n, m, w4, t, w);
  }

  lemma WaitersFindFull(c: Config, now: Time, q: nat, n: State, m: State, w4: Workers, t: State, a: Id, w: Id)
    requires PlacementOnly(c, now, n, m) && Hostings(c, now, n, m) && t.allocations == m.allocations && TickRoomsFull(c, t, now)
    requires WorkersGrown(m.workers, w4) && WorkersScaled(c, w4, t.workers, t.allocations, q, now)
    requires a in t.allocations && t.allocations[a].state == Waiting && w in t.workers && Fit(c, t.workers[w], now)
    requires t.allocations[a].preferred == None || t.allocations[a].preferred == Some(w)
    ensures Occupied(t.allocations, w) >= t.workers[w].maxRooms
  {
    if t.allocations[a].preferred == None {
      FitIsEligible(c, t.workers[w], now);
      assert a in Queued(t.allocations);
    } else {
      FitWasEligible(c, now, q, n, m, w4, t, w);
    }
  }

  ghost predicate TickRoomsFull(c: Config, t: State, now: Time) {
    Queued(t.allocations) != {} ==> AllFull(c, t, now)
  }

  lemma PlacementTableHolds(c: Config, now: Time, q: nat, s: State, n: State, m: State, w4: Workers, t: State)
    requires Unqueued(s.allocations, n.allocations) && SeatedFit(c, s.allocations, n, now)
    requires PlacementOnly(c, now, n, m) && Hostings(c, now, n, m) && t.allocations == m.allocations
    requires WorkersGrown(m.workers, w4) && WorkersScaled(c, w4, t.workers, t.allocations, q, now)
    requires TickRoomsFull(c, t, now) && forall a | a in t.allocations :: !SeatsDue(c, t.workers, t.allocations[a], now)
    ensures PlacementTable(c, s, t, now)
  {
    forall a | a in t.allocations && a in s.allocations && s.allocations[a].state == Waiting && t.allocations[a].state == Preparing
      ensures HostFit(c, t.workers, t.allocations[a], now) && (t.allocations[a].preferred == None || t.allocations[a].preferred == t.allocations[a].worker)
    {
      PlacedWasWaiting(c, now, s.allocations, n, m, a);
      PlacedIsFit(c, now, q, n, m, w4, t, a);
    }
    forall a | a in t.allocations && a in s.allocations && s.allocations[a].state == Prepared && t.allocations[a].state == Assigned
      ensures HostFit(c, t.workers, t.allocations[a], now)
    {
      SeatedIsFit(c, now, q, s, n, m, w4, t, a);
    }
    forall a | a in t.allocations && t.allocations[a].state == Prepared ensures !HostFit(c, t.workers, t.allocations[a], now) {
      assert !SeatsDue(c, t.workers, t.allocations[a], now);
      if t.allocations[a].worker.Some? && t.allocations[a].worker.value in t.workers {
        FitIsEligible(c, t.workers[t.allocations[a].worker.value], now);
      }
    }
    forall a, w | a in t.allocations && t.allocations[a].state == Waiting && w in t.workers && Fit(c, t.workers[w], now) &&
                  (t.allocations[a].preferred == None || t.allocations[a].preferred == Some(w))
      ensures Occupied(t.allocations, w) >= t.workers[w].maxRooms
    {
      WaitersFindFull(c, now, q, n, m, w4, t, a, w);
    }
  }

  // ---- Newcomers -----------------------------------------------------------------------------------

  lemma NewcomerUnchanged(c: Config, i: Worker, w: Worker, hosted: nat, q: nat, now: Time, left: int, rooms: nat)
    requires NewRecord(c, i, rooms, now) && PassDone(c, i, w, hosted, q, now, left)
    ensures NewRecord(c, w, rooms, now)
  {
  }

  lemma LastPassKeepsBooting(c: Config, i: Worker, w: Worker, hosted: nat, q: nat, now: Time, left: int)
    requires PassDone(c, i, w, hosted, q, now, left)
    ensures Booting(c, i, now) == Booting(c, w, now) && i.maxRooms == w.maxRooms && Counted(i) == Counted(w)
  {
  }

  lemma SpaceOfTheOthers(c: Config, now: Time, q: nat, m: State, w4: Workers, t: State, w: Id)
    requires w !in m.workers && w in w4 && w4 == m.workers[w := w4[w]] && WorkersScaled(c, w4, t.workers, t.allocations, q, now)
    ensures t.workers.Keys - {w} == m.workers.Keys
    ensures BootSpace(c, t.workers, t.workers.Keys - {w}, now) == BootRooms(c, m.workers, m.workers.Keys, now)
  {
    var old0 := t.workers.Keys - {w};
    forall x | x in old0 ensures Booting(c, m.workers[x], now) == Booting(c, t.workers[x], now) && m.workers[x].maxRooms == t.workers[x].maxRooms {
      assert PassDone(c, w4[x], t.workers[x], Occupied(t.allocations, x), q, now, |Admitting(t.workers)|);
      LastPassKeepsBooting(c, w4[x], t.workers[x], Occupied(t.allocations, x), q, now, |Admitting(t.workers)|);
    }
    assert old0 == m.workers.Keys;
    BootFrame(c, m.workers, t.workers, old0, now);
    BootSpaceOne(c, t.workers, old0, now);
  }

  lemma NewcomerTableHolds(c: Config, now: Time, q: nat, s: State, m: State, w4: Workers, t: State)
    requires (forall w | w in m.workers :: w in s.workers) && m.blocked == s.blocked && m.rooms == s.rooms && m.nextCreateAt == s.nextCreateAt
    requires GrownWell(c, m, w4, t, now) && WorkersScaled(c, w4, t.workers, t.allocations, q, now) && t.allocations == m.allocations
    requires forall w | w in w4 && w !in m.workers :: w !in s.workers
    ensures NewcomerTable(c, s, t, now)
  {
    SetsAgree(t.allocations, t.workers);
    if !(w4 == m.workers && t.nextCreateAt == m.nextCreateAt) {
      var w :| GrownBy(c, m, w4, t, now, w);
      assert PassDone(c, w4[w], t.workers[w], Occupied(t.allocations, w), q, now, |Admitting(t.workers)|);
      NewcomerUnchanged(c, w4[w], t.workers[w], Occupied(t.allocations, w), q, now, |Admitting(t.workers)|, m.rooms);
      SpaceOfTheOthers(c, now, q, m, w4, t, w);
      assert forall v | v in t.workers && v !in s.workers :: v == w;
    }
  }

  predicate LeaseFree(s: State, owner: Id, now: Time) {
    s.leader == Some(owner) || s.leaseUntil <= now
  }

  function Claim(s: State, owner: Id, now: Time): State {
    s.(leader := Some(owner), leaseUntil := now + 30)
  }

  /** The transaction at the head of Tick: refused while another manager's lease runs, else the passes. */
  method TickBody(c: Config, s: State, owner: Id, now: Time) returns (t: State, ok: bool, ghost ops: seq<Op>)
    requires ValidConfig(c) && Inv(c, s)
    ensures ok <==> LeaseFree(s, owner, now)
    ensures !ok ==> t == s
    ensures Replay(c, now, s, ops) == Some(t) && Inv(c, t)
    ensures ok ==> TickDone(c, owner, s, t, now)
  {
    ops, ok, t := [], true, s;
    if s.leader != Some(owner) && s.leaseUntil > now {
      ok := false;
      return;
    }
    var r := Claim(s, owner, now);
    ReplayOne(c, now, s, [], s, SetLease(Some(owner), now + 30));
    ops := [] + [SetLease(Some(owner), now + 30)];
    ReplayKeeps(c, now, s, ops, r);
    t, ops := TickPasses(c, s, ops, r, owner, now);
    ReplayKeeps(c, now, s, ops, t);
  }

  lemma StillDrawn(c: Config, now: Time, s: State, p: seq<Op>, m: State, q: seq<Op>, t: State)
    requires Inv(c, s) && Replay(c, now, s, p) == Some(m) && Replay(c, now, m, q) == Some(t)
    ensures forall w | w in s.workers :: w in t.issued
  {
    ReplayConcat(c, now, s, p, m, q, t);
    FleetHistory.ReplayEvolves(c, now, s, p + q, t);
  }

  /** What the last two passes leave, from the state `m` after placement. */
  ghost predicate Scaled(c: Config, m: State, grown: Workers, q: nat, t: State, now: Time) {
    && t.allocations == m.allocations && t.leader == m.leader && t.leaseUntil == m.leaseUntil
    && WorkersGrown(m.workers, grown) && WorkersScaled(c, grown, t.workers, m.allocations, q, now)
    && DemandMet(c, t, now) && q == |Queued(m.allocations)| && GrownWell(c, m, grown, t, now)
  }

  ghost predicate Served(c: Config, first: Allocations, n: State, m: State, now: Time) {
    && PlacementOnly(c, now, n, m) && Hostings(c, now, n, m) && FirstComeFirstServed(first, m.allocations)
    && (Queued(m.allocations) != {} ==> AllFull(c, m, now))
  }

  lemma TickTableHolds(c: Config, now: Time, q: nat, s: State, ticked: Workers, n: State, m: State, grown: Workers, t: State)
    requires WorkersWell(s.workers) && Deadlined(c, s, ticked, n, now) && WaitingUnhosted(n.allocations) && Served(c, s.allocations, n, m, now)
    requires Scaled(c, m, grown, q, t, now) && TickRooms(c, s.allocations, t, now)
    requires m.blocked == s.blocked && m.rooms == s.rooms && m.nextCreateAt == s.nextCreateAt
    requires forall w | w in grown && w !in m.workers :: w !in s.workers
    ensures TickTable(c, s, t, now)
  {
    PlacementAgrees(c, s, n.allocations, m.allocations, now);
    WorkersOutcomeHolds(c, now, q, s, ticked, n, m, grown, t);
    PlacementTableHolds(c, now, q, s, n, m, grown, t);
    NewcomerTableHolds(c, now, q, s, m, grown, t);
  }

  lemma TickDoneHolds(c: Config, owner: Id, now: Time, q: nat, s: State, ticked: Workers, n: State, m: State, grown: Workers, t: State)
    requires ValidConfig(c) && WorkersWell(s.workers) && Deadlined(c, s, ticked, n, now) && WaitingUnhosted(n.allocations) && Served(c, s.allocations, n, m, now)
    requires Scaled(c, m, grown, q, t, now) && m.leader == Some(owner) && m.leaseUntil == now + 30
    requires m.blocked == s.blocked && m.rooms == s.rooms && m.nextCreateAt == s.nextCreateAt
    requires forall w | w in grown && w !in m.workers :: w !in s.workers
    ensures TickDone(c, owner, s, t, now)
  {
    assert WorkersPlaced(n.workers, m.workers);
    TickWorkersSettle(c, now, q, t, s.workers, ticked, n.workers, m.workers, grown);
    TickRoomsHold(c, now, q, s.allocations, n, m, grown, t);
    TickTableHolds(c, now, q, s, ticked, n, m, grown, t);
  }

  lemma UnhostedWhileWaiting(c: Config, s: State)
    requires Inv(c, s)
    ensures WaitingUnhosted(s.allocations)
  {
    forall a | a in s.allocations && s.allocations[a].state.Waiting? ensures s.allocations[a].worker.None? {
      assert PlacedOne(s.allocations[a], s.workers);
    }
  }

  lemma ClaimedAlike(c: Config, s: State, r: State, ticked: Workers, n: State, now: Time)
    requires Deadlined(c, r, ticked, n, now) && r.workers == s.workers && r.allocations == s.allocations
    ensures Deadlined(c, s, ticked, n, now)
  {
  }

  method TickPasses(c: Config, ghost s: State, ghost ops: seq<Op>, r: State, owner: Id, now: Time) returns (t: State, ghost all: seq<Op>)
    requires ValidConfig(c) && Inv(c, r) && Replay(c, now, s, ops) == Some(r) && r == Claim(s, owner, now)
    ensures Replay(c, now, s, all) == Some(t) && TickDone(c, owner, s, t, now)
  {
    var n, before, ticked := TickDeadlines(c, r, now);
    all := Chain(c, now, s, ops, r, before, n);
    ReplayKeeps(c, now, r, before, n);
    UnhostedWhileWaiting(c, n);
    ClaimedAlike(c, s, r, ticked, n, now);
    var m, more := TickPlacement(c, n, now, s.allocations);
    all := Chain(c, now, s, all, n, more, m);
    ReplayKeeps(c, now, n, more, m);
    StillDrawn(c, now, r, before, n, more, m);
    ghost var rest, grown, q;
    t, rest, grown, q := TickScaling(c, m, now);
    all := Chain(c, now, s, all, m, rest, t);
    TickDoneHolds(c, owner, now, q, s, ticked, n, m, grown, t);
  }
}
