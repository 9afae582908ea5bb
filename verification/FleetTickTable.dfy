/** What a leader's transaction does to each record, as a table over the record's own fields.
    Nothing here is defined through the passes: the lemmas show that the passes agree with it. */
module FleetTickTable {
  import opened Basics
  import opened FleetState
  import opened FleetOps
  import opened FleetInvariant
  import opened FleetPlacement
  import opened FleetTick

  // ---- Conditions on records -------------------------------------------------------------------

  /** Heard from once, and not for longer than the lost timeout. */
  predicate Silent(c: Config, w: Worker, now: Time) {
    && 0 < w.lastHeartbeat && c.lostTimeout < now - w.lastHeartbeat
    && w.state != Stopped && w.state != WorkerState.Failed && w.state != Lost
  }

  predicate HostSilent(c: Config, workers: Workers, a: Allocation, now: Time) {
    a.worker.Some? && a.worker.value in workers && Silent(c, workers[a.worker.value], now)
  }

  /** The server an allocation insists on is gone, or goes in this very transaction. */
  predicate ServerDead(c: Config, workers: Workers, a: Allocation, now: Time) {
    && a.preferred.Some? && a.preferred.value in workers
    && var w := workers[a.preferred.value];
    w.state == WorkerState.Failed || w.state == Lost || w.state == Stopped || Silent(c, w, now)
  }

  /** A player of an active room missed the reconnection deadline; any other room expired. */
  predicate Overdue(a: Allocation, now: Time) {
    if a.state == Active then exists i | 0 <= i < |a.sessions| :: 0 < a.sessions[i].reconnectUntil && a.sessions[i].reconnectUntil <= now
    else a.expiresAt <= now
  }

  /** A worker that may take new rooms. */
  predicate Fit(c: Config, w: Worker, now: Time) {
    && w.state == Ready && w.ready && w.providerReady && !w.draining
    && w.region == c.region && w.buildHash == c.buildHash && w.host != "" && w.bootId != ""
    && now <= w.lastHeartbeat + c.heartbeatTimeout
    && w.metrics.oldestSeconds <= c.maxQueueAge && w.metrics.frameP99 <= 100.0
    && (w.providerExpiresAt == 0 || now + c.minLifetime < w.providerExpiresAt)
  }

  lemma FitIsEligible(c: Config, w: Worker, now: Time)
    ensures Fit(c, w, now) <==> Eligible(c, w, now)
  {
  }

  // ---- Allocations -----------------------------------------------------------------------------

  /** The room died with its host. */
  predicate DiesWithHost(a: Allocation, b: Allocation, now: Time) {
    b == a.(state := AllocationState.Failed, error := "server_lost", terminalAt := now, revision := a.revision + 1)
  }

  /** Cancelled for a reason: at once when no host has it, else until its host confirms. */
  predicate CancelledFor(a: Allocation, b: Allocation, reason: string, now: Time) {
    if a.worker == None then b == a.(state := Expired, error := reason, terminalAt := now, revision := a.revision + 1)
    else b == a.(state := Cancelling, error := reason, revision := a.revision + 1)
  }

  predicate NewSeat(x: Session, user: string, seat: nat, until: Time) {
    x.user == user && x.seat == seat && x.expiresAt == until && !x.connected && !x.everConnected && x.reconnectUntil == 0
  }

  /** Kept: as it was, given its seats, or given a host. */
  predicate KeptSeatedOrPlaced(c: Config, a: Allocation, b: Allocation, now: Time) {
    || b == a
    || (a.state == Prepared && |a.users| == 2 && |b.sessions| == 2
        && NewSeat(b.sessions[0], a.users[0], 0, now + c.reservationTTL) && NewSeat(b.sessions[1], a.users[1], 1, now + c.reservationTTL)
        && b == a.(state := Assigned, sessions := b.sessions, expiresAt := now + c.reservationTTL, revision := a.revision + 1))
    || (a.state == Waiting && b.worker != None
        && b == a.(state := Preparing, worker := b.worker, expiresAt := now + c.prepareTimeout, revision := a.revision + 1))
  }

  /** The whole table for one allocation that is not finished. */
  predicate RoomOutcome(c: Config, workers: Workers, a: Allocation, b: Allocation, now: Time) {
    if HostSilent(c, workers, a, now) then DiesWithHost(a, b, now)
    else if a.state == Cancelling then b == a
    else if ServerDead(c, workers, a, now) then CancelledFor(a, b, "server_failed", now)
    else if Overdue(a, now) then CancelledFor(a, b, if a.state == Active then "reconnect_expired" else "allocation_expired", now)
    else KeptSeatedOrPlaced(c, a, b, now)
  }

  /** A finished allocation is kept for a day. */
  predicate Forgotten(a: Allocation, now: Time) {
    (a.state == Completed || a.state == Cancelled || a.state == Expired || a.state == AllocationState.Failed) && 86400 < now - a.terminalAt
  }

  ghost predicate RoomsOutcome(c: Config, s: State, rooms: Allocations, now: Time) {
    && (forall a | a in rooms :: a in s.allocations)
    && (forall a | a in s.allocations :: a in rooms <==> !Forgotten(s.allocations[a], now))
    && (forall a | a in rooms :: if Rank(s.allocations[a].state) == 6 then rooms[a] == s.allocations[a] else RoomOutcome(c, s.workers, s.allocations[a], rooms[a], now))
  }

  /** Being ended or put to an end by the transaction, exactly. */
  lemma CancelledExactly(c: Config, s: State, rooms: Allocations, now: Time, a: Id)
    requires RoomsOutcome(c, s, rooms, now) && a in s.allocations && Rank(s.allocations[a].state) <= 4
    ensures a in rooms
    ensures Rank(rooms[a].state) >= 5 <==> HostSilent(c, s.workers, s.allocations[a], now) || ServerDead(c, s.workers, s.allocations[a], now) || Overdue(s.allocations[a], now)
    ensures Rank(rooms[a].state) <= 4 ==>
              && rooms[a].error == s.allocations[a].error
              && (rooms[a].state == s.allocations[a].state ==> rooms[a] == s.allocations[a])
  {
  }

  // ---- The passes agree, allocation by allocation ----------------------------------------------

  lemma SilentIsLostNow(c: Config, w: Worker, now: Time)
    ensures Silent(c, w, now) <==> LostNow(c, w, now)
  {
  }

  lemma DeadServerIsServerDead(c: Config, w0: Workers, w1: Workers, a: Allocation, now: Time)
    requires w1.Keys == w0.Keys && forall w | w in w0 :: WorkerTicked(c, w0[w], w1[w], now)
    ensures DeadServer(w1, a) <==> ServerDead(c, w0, a, now)
  {
    if a.preferred.Some? && a.preferred.value in w0 {
      assert WorkerTicked(c, w0[a.preferred.value], w1[a.preferred.value], now);
      DeathInFirstPass(c, w0[a.preferred.value], w1[a.preferred.value], now);
    }
  }

  lemma DeathInFirstPass(c: Config, v: Worker, m: Worker, now: Time)
    requires WorkerTicked(c, v, m, now)
    ensures m.state.Failed? || m.state.Lost? || m.state.Stopped? <==>
            v.state == WorkerState.Failed || v.state == Lost || v.state == Stopped || Silent(c, v, now)
  {
  }

  /** The table after the first two passes. */
  predicate AfterExpiry(c: Config, workers: Workers, a: Allocation, d: Allocation, now: Time) {
    if HostSilent(c, workers, a, now) then DiesWithHost(a, d, now)
    else if a.state == Cancelling then d == a
    else if ServerDead(c, workers, a, now) then CancelledFor(a, d, "server_failed", now)
    else if Overdue(a, now) then CancelledFor(a, d, if a.state == Active then "reconnect_expired" else "allocation_expired", now)
    else d == a
  }

  ghost predicate RoomsAfterExpiry(c: Config, s: State, rooms: Allocations, now: Time) {
    && rooms.Keys == s.allocations.Keys
    && forall a | a in rooms :: if Rank(s.allocations[a].state) == 6 then rooms[a] == s.allocations[a] else AfterExpiry(c, s.workers, s.allocations[a], rooms[a], now)
  }

  /** The first two passes on one unfinished allocation. */
  lemma ExpiryAgrees(c: Config, w0: Workers, w1: Workers, a: Allocation, b: Allocation, d: Allocation, now: Time)
    requires w1.Keys == w0.Keys && forall w | w in w0 :: WorkerTicked(c, w0[w], w1[w], now)
    requires Rank(a.state) <= 5 && (a.worker.Some? ==> a.worker.value in w0)
    requires b == if a.worker.Some? && a.worker.value in LostWorkers(c, w0, now) then Finish(a, AllocationState.Failed, "server_lost", now) else a
    requires d == Expire(w1, b, now)
    ensures AfterExpiry(c, w0, a, d, now)
  {
    DeadServerIsServerDead(c, w0, w1, a, now);
    if a.worker.Some? {
      SilentIsLostNow(c, w0[a.worker.value], now);
    }
  }

  lemma RoomsExpiryAgrees(c: Config, s: State, m: State, rooms: Allocations, now: Time)
    requires Placed(s.allocations, s.workers) && m.workers.Keys == s.workers.Keys && forall w | w in s.workers :: WorkerTicked(c, s.workers[w], m.workers[w], now)
    requires RoomsLost(s.allocations, m.allocations, LostWorkers(c, s.workers, now), now)
    requires rooms == map a | a in m.allocations :: Expire(m.workers, m.allocations[a], now)
    ensures RoomsAfterExpiry(c, s, rooms, now)
  {
    forall a | a in rooms && Rank(s.allocations[a].state) <= 5 ensures AfterExpiry(c, s.workers, s.allocations[a], rooms[a], now) {
      assert PlacedOne(s.allocations[a], s.workers);
      ExpiryAgrees(c, s.workers, m.workers, s.allocations[a], m.allocations[a], rooms[a], now);
    }
  }

  lemma SeatingAgrees(c: Config, a: Allocation, b: Allocation, now: Time)
    requires a.state.Prepared? && Seated2(c, a, b, now)
    ensures KeptSeatedOrPlaced(c, a, b, now) && b.state == Assigned
  {
  }

  lemma ForgottenIsOld(a: Allocation, now: Time)
    ensures Forgotten(a, now) <==> OldAllocation(a, now)
  {
  }

  /** What the first two passes left alone may be given seats. */
  lemma SeatedOutcome(c: Config, workers: Workers, a: Allocation, d: Allocation, b: Allocation, now: Time)
    requires AfterExpiry(c, workers, a, d, now) && Rank(a.state) <= 5
    requires b == d || (d.state.Prepared? && Seated2(c, d, b, now))
    ensures RoomOutcome(c, workers, a, b, now)
  {
    if b != d {
      SeatingAgrees(c, d, b, now);
    }
  }

  lemma EndedIsRemembered(c: Config, workers: Workers, a: Allocation, d: Allocation, now: Time)
    requires AfterExpiry(c, workers, a, d, now) && Rank(a.state) <= 5
    ensures !OldAllocation(d, now) && !Forgotten(a, now)
  {
  }

  lemma DeadlinesAgree(c: Config, s: State, workers: Workers, r1: Allocations, r2: Allocations, r3: Allocations, now: Time)
    requires RoomsAfterExpiry(c, s, r1, now) && r2 == (map a | a in r1 && !OldAllocation(r1[a], now) :: r1[a]) && r3.Keys == r2.Keys
    requires forall a | a in r2 :: if SeatsDue(c, workers, r2[a], now) then Seated2(c, r2[a], r3[a], now) else r3[a] == r2[a]
    ensures RoomsOutcome(c, s, r3, now)
  {
    forall a | a in s.allocations ensures a in r3 <==> !Forgotten(s.allocations[a], now) {
      if Rank(s.allocations[a].state) == 6 {
        ForgottenIsOld(s.allocations[a], now);
      } else {
        EndedIsRemembered(c, s.workers, s.allocations[a], r1[a], now);
      }
    }
    forall a | a in r3 && Rank(s.allocations[a].state) <= 5 ensures RoomOutcome(c, s.workers, s.allocations[a], r3[a], now) {
      SeatedOutcome(c, s.workers, s.allocations[a], r1[a], r3[a], now);
    }
  }

  lemma PlacedOutcome(c: Config, workers: Workers, a: Allocation, d: Allocation, b: Allocation, now: Time)
    requires RoomOutcome(c, workers, a, d, now) && Rank(a.state) <= 5 && (b == d || PlacedNow(c, now, d, b))
    ensures RoomOutcome(c, workers, a, b, now)
  {
  }

  lemma PlacementAgrees(c: Config, s: State, before: Allocations, after: Allocations, now: Time)
    requires RoomsOutcome(c, s, before, now) && after.Keys == before.Keys
    requires forall a | a in before :: after[a] == before[a] || PlacedNow(c, now, before[a], after[a])
    ensures RoomsOutcome(c, s, after, now)
  {
    forall a | a in after && Rank(s.allocations[a].state) <= 5 ensures RoomOutcome(c, s.workers, s.allocations[a], after[a], now) {
      PlacedOutcome(c, s.workers, s.allocations[a], before[a], after[a], now);
    }
  }

  // ---- Workers ---------------------------------------------------------------------------------

  /** The provider ends the instance too soon for new rooms. */
  predicate Fading(c: Config, w: Worker, now: Time) {
    0 < w.providerExpiresAt && w.providerExpiresAt <= now + c.minLifetime
  }

  /** Nothing left to do on a drained worker that still reports. */
  predicate Drained(c: Config, w: Worker, hosted: nat, now: Time) {
    && w.state == Draining && w.drainAck && hosted == 0 && w.playerCount == 0
    && w.metrics.simulationPending == 0 && w.metrics.simulationActive == 0
    && w.metrics.auditPending == 0 && w.metrics.auditActive == 0 && w.metrics.pendingResults == 0
    && now <= w.lastHeartbeat + c.heartbeatTimeout
  }

  /** When a worker without rooms became idle: kept from an earlier tick, else this one. */
  function IdleFrom(w: Worker, now: Time): Time {
    if w.idleSince != 0 then w.idleSince else now
  }

  /** The table for one worker that stays: `hosted` rooms on it, `queue` unpreferred allocations
      waiting and `left` workers admitting rooms after the transaction. */
  predicate WorkerOutcome(c: Config, v: Worker, w: Worker, hosted: nat, queue: nat, left: int, now: Time) {
    if Silent(c, v, now) then
      && w.(draining := v.draining, idleSince := v.idleSince) == v.(state := Lost, ready := false, providerReady := false, updatedAt := now)
      && w.draining == (v.draining || (v.state == Ready && Fading(c, v, now)))
    else if v.state == Ready && Fading(c, v, now) then
      w.(idleSince := v.idleSince) == v.(state := Draining, draining := true, updatedAt := now)
    else if v.state == Starting && 15 < now - v.updatedAt then
      w.(idleSince := v.idleSince) == v.(state := Unknown)
    else if v.state == Ready && c.heartbeatTimeout < now - v.lastHeartbeat then
      w.(idleSince := v.idleSince) == v.(state := Suspect)
    else if v.state == Ready then
      if 0 < hosted then w == v.(idleSince := 0)
      else
        var due := queue == 0 && c.idleSeconds <= now - IdleFrom(v, now);
        || (w == v.(idleSince := IdleFrom(v, now)) && (due ==> left <= c.minInstances))
        || (w == v.(idleSince := IdleFrom(v, now), state := Draining, draining := true, updatedAt := now) && due && c.minInstances <= left)
    else if Drained(c, v, hosted, now) then
      w.(idleSince := v.idleSince) == v.(state := Stopping, nextCheckAt := now)
    else
      w.(idleSince := v.idleSince) == v
  }

  /** The passes agree, worker by worker. */
  lemma PassesAgree(c: Config, v: Worker, m: Worker, i: Worker, w: Worker, hosted: nat, queue: nat, left: int, now: Time)
    requires WorkerWell(v) && WorkerTicked(c, v, m, now) && (i == m || (i == m.(idleSince := 0) && 0 < hosted)) && PassDone(c, i, w, hosted, queue, now, left)
    ensures WorkerOutcome(c, v, w, hosted, queue, left, now)
  {
    if Silent(c, v, now) {
      LostAgrees(c, v, m, i, w, hosted, queue, left, now);
    } else if v.state == Ready {
      ReadyAgrees(c, v, m, i, w, hosted, queue, left, now);
    } else {
      OthersAgree(c, v, m, i, w, hosted, queue, left, now);
    }
  }

  lemma LostAgrees(c: Config, v: Worker, m: Worker, i: Worker, w: Worker, hosted: nat, queue: nat, left: int, now: Time)
    requires WorkerWell(v) && WorkerTicked(c, v, m, now) && (i == m || (i == m.(idleSince := 0) && 0 < hosted)) && PassDone(c, i, w, hosted, queue, now, left)
    requires Silent(c, v, now)
    ensures WorkerOutcome(c, v, w, hosted, queue, left, now)
  {
  }

  lemma ReadyAgrees(c: Config, v: Worker, m: Worker, i: Worker, w: Worker, hosted: nat, queue: nat, left: int, now: Time)
    requires WorkerWell(v) && WorkerTicked(c, v, m, now) && (i == m || (i == m.(idleSince := 0) && 0 < hosted)) && PassDone(c, i, w, hosted, queue, now, left)
    requires !Silent(c, v, now) && v.state == Ready
    ensures WorkerOutcome(c, v, w, hosted, queue, left, now)
  {
  }

  lemma OthersAgree(c: Config, v: Worker, m: Worker, i: Worker, w: Worker, hosted: nat, queue: nat, left: int, now: Time)
    requires WorkerWell(v) && WorkerTicked(c, v, m, now) && (i == m || (i == m.(idleSince := 0) && 0 < hosted)) && PassDone(c, i, w, hosted, queue, now, left)
    requires !Silent(c, v, now) && v.state != Ready
    ensures WorkerOutcome(c, v, w, hosted, queue, left, now)
  {
  }

  // ---- Which workers stay ------------------------------------------------------------------------

  /** Not counted any more, for over a day. */
  predicate Rubbish(w: Worker, now: Time) {
    (w.state == Stopped || (w.state == WorkerState.Failed && w.providerId == None)) && 86400 < now - w.updatedAt
  }

  /** No unfinished allocation is on the worker or insists on it. */
  ghost predicate Unneeded(rooms: Allocations, w: Id) {
    forall a | a in rooms && Rank(rooms[a].state) < 6 :: rooms[a].worker != Some(w) && rooms[a].preferred != Some(w)
  }

  ghost predicate Swept(before: Workers, after: Workers, rooms: Allocations, now: Time) {
    && (forall w | w in after :: w in before && after[w] == before[w])
    && (forall w | w in before :: w in after <==> !(Rubbish(before[w], now) && Unneeded(rooms, w)))
  }

  lemma SweepAgrees(s: State, t: State, now: Time)
    requires t.workers == (map w | w in s.workers && !OldWorker(s, w, now) :: s.workers[w]) && t.allocations == s.allocations
    ensures Swept(s.workers, t.workers, t.allocations, now)
  {
    forall w | w in s.workers ensures w in t.workers <==> !(Rubbish(s.workers[w], now) && Unneeded(t.allocations, w)) {
      assert OldWorker(s, w, now) <==> Rubbish(s.workers[w], now) && Unneeded(s.allocations, w) by {
        forall a | a in s.allocations ensures Rank(s.allocations[a].state) < 6 <==> !Terminal(s.allocations[a].state) {
        }
      }
    }
  }

  /** Giving seats changes neither hosts nor preferences, and finishes nothing. */
  lemma SeatsKeepNeeds(c: Config, workers: Workers, before: Allocations, after: Allocations, now: Time, w: Id)
    requires after.Keys == before.Keys
    requires forall a | a in before :: if SeatsDue(c, workers, before[a], now) then Seated2(c, before[a], after[a], now) else after[a] == before[a]
    ensures Unneeded(before, w) <==> Unneeded(after, w)
  {
    forall a | a in before
      ensures after[a].worker == before[a].worker && after[a].preferred == before[a].preferred && (Rank(after[a].state) < 6 <==> Rank(before[a].state) < 6)
    {
      if SeatsDue(c, workers, before[a], now) {
        SeatingAgrees(c, before[a], after[a], now);
      }
    }
  }

  /** What placement did, beyond leaving the rest alone. */
  ghost predicate Hostings(c: Config, now: Time, s: State, t: State) {
    && (forall a | a in t.allocations :: a in s.allocations && (t.allocations[a] == s.allocations[a] || WellHosted(c, now, s, t.allocations[a])))
    && ClearedHost(s.workers, t.workers, t.allocations)
    && (forall a, w | a in t.allocations && t.allocations[a].state == Waiting && t.allocations[a].preferred == Some(w) && w in s.workers && Eligible(c, s.workers[w], now) ::
          Occupied(t.allocations, w) >= s.workers[w].maxRooms)
  }

  lemma HostingsHold(c: Config, now: Time, s: State, queue: seq<Id>, ids: seq<Id>)
    requires QueueReady(s, queue, ids) && WaitingUnhosted(s.allocations) && forall a :: a in queue <==> a in WaitingSet(s.allocations)
    ensures Hostings(c, now, s, PlaceQueue(c, s, queue, now, ids))
  {
    var t := PlaceQueue(c, s, queue, now, ids);
    QueueOnly(c, now, s, queue, ids);
    PlacementClears(c, now, s, queue, ids);
    forall a | a in t.allocations ensures a in s.allocations && (t.allocations[a] == s.allocations[a] || WellHosted(c, now, s, t.allocations[a])) {
      PlacedWellHosted(c, now, s, queue, ids, a);
    }
    forall a, w | a in t.allocations && t.allocations[a].state == Waiting && t.allocations[a].preferred == Some(w) && w in s.workers && Eligible(c, s.workers[w], now)
      ensures Occupied(t.allocations, w) >= s.workers[w].maxRooms
    {
      assert a in WaitingSet(s.allocations);
      var i :| 0 <= i < |queue| && queue[i] == a;
      WaitingForFullServer(c, now, s, queue, ids, i, w);
    }
  }

  /** Placement neither creates nor ends the need for a worker that is swept or kept. */
  lemma PlacementKeepsNeeds(c: Config, now: Time, s: State, t: State, w: Id)
    requires Hostings(c, now, s, t) && WaitingUnhosted(s.allocations) && t.allocations.Keys == s.allocations.Keys
    requires forall a | a in s.allocations :: t.allocations[a] == s.allocations[a] || PlacedNow(c, now, s.allocations[a], t.allocations[a])
    requires w in s.workers ==> !Eligible(c, s.workers[w], now)
    ensures Unneeded(s.allocations, w) <==> Unneeded(t.allocations, w)
  {
    forall a | a in s.allocations
      ensures t.allocations[a].preferred == s.allocations[a].preferred && (Rank(t.allocations[a].state) < 6 <==> Rank(s.allocations[a].state) < 6)
      ensures t.allocations[a].worker == Some(w) <==> s.allocations[a].worker == Some(w)
    {
      if t.allocations[a] != s.allocations[a] {
        assert WellHosted(c, now, s, t.allocations[a]);
      }
    }
  }

  // ---- Where rooms go ----------------------------------------------------------------------------

  /** Rooms are given to fit workers only, and none waits or lacks seats beside one. */
  ghost predicate PlacementTable(c: Config, s: State, t: State, now: Time) {
    && (forall a | a in t.allocations && a in s.allocations && s.allocations[a].state == Waiting && t.allocations[a].state == Preparing ::
          HostFit(c, t.workers, t.allocations[a], now) && (t.allocations[a].preferred == None || t.allocations[a].preferred == t.allocations[a].worker))
    && (forall a | a in t.allocations && a in s.allocations && s.allocations[a].state == Prepared && t.allocations[a].state == Assigned ::
          HostFit(c, t.workers, t.allocations[a], now))
    && (forall a | a in t.allocations && t.allocations[a].state == Prepared :: !HostFit(c, t.workers, t.allocations[a], now))
    && (forall a, w | a in t.allocations && t.allocations[a].state == Waiting && w in t.workers && Fit(c, t.workers[w], now) &&
                      (t.allocations[a].preferred == None || t.allocations[a].preferred == Some(w)) ::
          Occupied(t.allocations, w) >= t.workers[w].maxRooms)
  }

  predicate HostFit(c: Config, workers: Workers, a: Allocation, now: Time) {
    a.worker.Some? && a.worker.value in workers && Fit(c, workers[a.worker.value], now)
  }

  /** A worker with rooms stays fit through the last pass, and none becomes fit in it. */
  lemma FitThroughLast(c: Config, i: Worker, w: Worker, hosted: nat, queue: nat, now: Time, left: int)
    requires PassDone(c, i, w, hosted, queue, now, left)
    ensures Fit(c, w, now) ==> Eligible(c, i, now) && i.maxRooms == w.maxRooms
    ensures Eligible(c, i, now) && 0 < hosted ==> Fit(c, w, now)
  {
  }

  // ---- Newcomers ---------------------------------------------------------------------------------

  /** The rooms that booting workers will bring, counted while they may still come up. */
  ghost function BootSpace(c: Config, workers: Workers, some: set<Id>, now: Time): nat
    requires some <= workers.Keys
  {
    if some == {} then 0
    else
      var w :| w in some;
      BootSpace(c, workers, some - {w}, now) +
        if (workers[w].state == Requested || workers[w].state == Starting || workers[w].state == Launching || workers[w].state == Bootstrapping) && now < workers[w].createdAt + c.launchTimeout
        then workers[w].maxRooms else 0
  }

  lemma {:induction false} BootSpaceOne(c: Config, workers: Workers, some: set<Id>, now: Time)
    requires some <= workers.Keys
    ensures BootSpace(c, workers, some, now) == BootRooms(c, workers, some, now)
  {
    if some != {} {
      var w :| w in some && BootSpace(c, workers, some, now) == BootSpace(c, workers, some - {w}, now) +
        if (workers[w].state == Requested || workers[w].state == Starting || workers[w].state == Launching || workers[w].state == Bootstrapping) && now < workers[w].createdAt + c.launchTimeout
        then workers[w].maxRooms else 0;
      BootSpaceOne(c, workers, some - {w}, now);
      BootRoomsOne(c, workers, some, now, w);
    }
  }

  function WaitingAnywhere(rooms: Allocations): set<Id> {
    set a | a in rooms && rooms[a].state == Waiting && rooms[a].preferred == None
  }

  function Open(workers: Workers): set<Id> {
    set w | w in workers && workers[w].state == Ready && !workers[w].draining
  }

  lemma SetsAgree(rooms: Allocations, workers: Workers)
    ensures WaitingAnywhere(rooms) == Queued(rooms) && Open(workers) == Admitting(workers)
  {
  }

  predicate NewRecord(c: Config, w: Worker, rooms: nat, now: Time) {
    && w.state == Requested && w.providerId == None && !w.providerReady && w.bootId == "" && w.host == ""
    && w.region == c.region && w.buildHash == c.buildHash && w.maxRooms == rooms
    && w.createdAt == now && w.updatedAt == now && w.nextCheckAt == now && w.lastHeartbeat == 0 && w.lastSequence == 0
    && !w.ready && !w.draining && !w.drainAck && w.playerCount == 0
  }

  /** A worker was requested because of unmet demand, once, while nothing held creation back. */
  ghost predicate NewcomerTable(c: Config, s: State, t: State, now: Time) {
    && t.blocked == s.blocked && t.rooms == s.rooms
    && (forall w | w in t.workers && w !in s.workers ::
          && NewRecord(c, t.workers[w], s.rooms, now) && !s.blocked && s.nextCreateAt <= now && t.nextCreateAt == now + 1
          && (forall v | v in t.workers && v !in s.workers :: v == w)
          && var space := BootSpace(c, t.workers, t.workers.Keys - {w}, now);
             |WaitingAnywhere(t.allocations)| > space || space == 0)
    && ((forall w | w in t.workers :: w in s.workers) ==> t.nextCreateAt == s.nextCreateAt)
  }
}
