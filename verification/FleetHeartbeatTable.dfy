/** What an accepted heartbeat leaves in the state, as tables over raw fields: its worker, each
    command result, and each room. None is defined through the functions of the transaction. */
module FleetHeartbeatTable {
  import opened Basics
  import opened FleetState
  import opened FleetOps
  import opened FleetInvariant
  import opened FleetPreserve
  import opened FleetHeartbeat
  import opened FleetTickTable

  // ---- The worker ---------------------------------------------------------------------------------

  /** The report's own fields, and a running worker with an endpoint that calls itself ready is. */
  predicate WorkerHeard(v: Worker, w: Worker, h: Report, now: Time) {
    && w == v.(lastHeartbeat := now, lastSequence := h.sequence, ready := h.ready, metrics := h.metrics,
               state := w.state, drainAck := w.drainAck, playerCount := w.playerCount)
    && (if h.ready && v.providerReady && v.host != "" &&
           (v.state == Launching || v.state == Bootstrapping || v.state == Ready || v.state == Suspect || v.state == Draining)
        then w.state == (if v.draining then Draining else Ready)
        else w.state == v.state)
  }

  lemma HeardAgrees(v: Worker, w: Worker, h: Report, now: Time)
    requires w == Heard(v, h, now).(drainAck := w.drainAck, playerCount := w.playerCount)
    requires v.state != Stopped && v.state != Lost && v.state != WorkerState.Failed
    ensures WorkerHeard(v, w, h, now)
  {
  }

  // ---- Rooms --------------------------------------------------------------------------------------

  /** A seat after a report that lists the connected users. */
  predicate SeatSeen(c: Config, x: Session, y: Session, users: seq<string>, now: Time) {
    && y == x.(connected := y.connected, everConnected := y.everConnected, reconnectUntil := y.reconnectUntil)
    && (y.connected <==> x.user in users)
    && (y.everConnected <==> x.everConnected || x.user in users)
    && y.reconnectUntil == (if x.user in users then 0 else if x.connected && x.reconnectUntil == 0 then now + c.reconnectSeconds else x.reconnectUntil)
  }

  /** An unfinished room of the worker after a report about it. */
  predicate RoomSeen(c: Config, a: Allocation, b: Allocation, r: RoomReport, now: Time) {
    if a.state != Assigned && a.state != Active then b == a
    else if r.phase == "closed" then b == a.(state := Completed, error := "", terminalAt := now, revision := a.revision + 1)
    else
      && |b.sessions| == |a.sessions| && (forall i | 0 <= i < |a.sessions| :: SeatSeen(c, a.sessions[i], b.sessions[i], r.users, now))
      && (if a.state == Assigned && r.phase == "playing" && |r.users| == |a.users|
          then b == a.(sessions := b.sessions, state := Active, revision := a.revision + 1)
          else b == a.(sessions := b.sessions))
  }

  predicate OpenHere(a: Allocation, wid: Id) {
    a.worker == Some(wid) && Rank(a.state) < 6
  }

  /** The rooms of `m` after the reports: each reported open room as its report says, all others as they were. */
  ghost predicate RoomsSeen(c: Config, before: Allocations, after: Allocations, wid: Id, rs: seq<RoomReport>, now: Time) {
    && after.Keys == before.Keys
    && (forall a, i | a in before && 0 <= i < |rs| && OpenHere(before[a], wid) && rs[i].room == before[a].room :: RoomSeen(c, before[a], after[a], rs[i], now))
    && (forall a | a in before && !(OpenHere(before[a], wid) && Mentions(rs, before[a].room)) :: after[a] == before[a])
  }

  ghost predicate Mentions(rs: seq<RoomReport>, room: Id) {
    exists i :: 0 <= i < |rs| && rs[i].room == room
  }

  /** The players of the reported rooms that are open here and not closing with this report. */
  ghost function PlayersSeen(rooms: Allocations, wid: Id, rs: seq<RoomReport>): nat {
    if rs == [] then 0
    else
      var r := rs[|rs| - 1];
      PlayersSeen(rooms, wid, rs[..|rs| - 1]) +
        if r.phase != "closed" && (exists a :: a in rooms && OpenHere(rooms[a], wid) && rooms[a].room == r.room) then |r.users| else 0
  }

  lemma SeatAgrees(c: Config, x: Session, users: seq<string>, now: Time)
    ensures SeatSeen(c, x, SeatReported(c, x, users, now), users, now)
  {
  }

  lemma RoomAgrees(c: Config, a: Allocation, r: RoomReport, now: Time)
    ensures RoomSeen(c, a, RoomReported(c, a, r, now), r, now)
  {
    forall i | 0 <= i < |a.sessions| ensures SeatSeen(c, a.sessions[i], SeatsReported(c, a.sessions, r.users, now)[i], r.users, now) {
      SeatAgrees(c, a.sessions[i], r.users, now);
    }
  }

  lemma MentionsSnoc(rs: seq<RoomReport>, room: Id)
    requires rs != []
    ensures Mentions(rs, room) <==> Mentions(rs[..|rs| - 1], room) || rs[|rs| - 1].room == room
  {
    var n := |rs| - 1;
    if i :| 0 <= i < |rs| && rs[i].room == room {
      assert i < n ==> rs[..n][i].room == room;
    }
    if i :| 0 <= i < n && rs[..n][i].room == room {
      assert rs[i].room == room;
    }
  }

  /** Rooms reported before are not the one reported now. */
  lemma NotYetSeen(c: Config, before: Allocations, mid: Allocations, wid: Id, rs: seq<RoomReport>, now: Time, a: Id)
    requires rs != [] && (forall i, j | 0 <= i < j < |rs| :: rs[i].room != rs[j].room) && RoomsSeen(c, before, mid, wid, rs[..|rs| - 1], now)
    requires a in before && rs[|rs| - 1].room == before[a].room
    ensures mid[a] == before[a]
  {
    assert !Mentions(rs[..|rs| - 1], before[a].room);
  }

  lemma SeenBefore(c: Config, before: Allocations, mid: Allocations, wid: Id, rs: seq<RoomReport>, now: Time, a: Id, i: nat)
    requires rs != [] && (forall i, j | 0 <= i < j < |rs| :: rs[i].room != rs[j].room) && RoomsSeen(c, before, mid, wid, rs[..|rs| - 1], now)
    requires a in before && i < |rs| && OpenHere(before[a], wid) && rs[i].room == before[a].room
    ensures RoomSeen(c, before[a], RoomsReported(c, mid, wid, rs[|rs| - 1], now)[a], rs[i], now)
  {
    var n := |rs| - 1;
    if i == n {
      NotYetSeen(c, before, mid, wid, rs, now, a);
      RoomAgrees(c, before[a], rs[n], now);
    } else {
      assert rs[..n][i] == rs[i];
      SeenKeepsRoom(c, before[a], mid[a], rs[i], now);
    }
  }

  /** One more report on top of the ones before: its room was not touched yet. */
  lemma OneMoreRoom(c: Config, before: Allocations, mid: Allocations, wid: Id, rs: seq<RoomReport>, now: Time)
    requires rs != [] && (forall i, j | 0 <= i < j < |rs| :: rs[i].room != rs[j].room) && RoomsSeen(c, before, mid, wid, rs[..|rs| - 1], now)
    ensures RoomsSeen(c, before, RoomsReported(c, mid, wid, rs[|rs| - 1], now), wid, rs, now)
  {
    var after := RoomsReported(c, mid, wid, rs[|rs| - 1], now);
    forall a, i | a in before && 0 <= i < |rs| && OpenHere(before[a], wid) && rs[i].room == before[a].room
      ensures RoomSeen(c, before[a], after[a], rs[i], now)
    {
      SeenBefore(c, before, mid, wid, rs, now, a, i);
    }
    forall a | a in before && !(OpenHere(before[a], wid) && Mentions(rs, before[a].room)) ensures after[a] == before[a] {
      StillUnseen(c, before, mid, wid, rs, now, a);
    }
  }

  lemma StillUnseen(c: Config, before: Allocations, mid: Allocations, wid: Id, rs: seq<RoomReport>, now: Time, a: Id)
    requires rs != [] && RoomsSeen(c, before, mid, wid, rs[..|rs| - 1], now)
    requires a in before && !(OpenHere(before[a], wid) && Mentions(rs, before[a].room))
    ensures RoomsReported(c, mid, wid, rs[|rs| - 1], now)[a] == before[a]
  {
    MentionsSnoc(rs, before[a].room);
    assert mid[a] == before[a];
    UnreportedStays(c, mid, wid, rs[|rs| - 1], now, a);
  }

  lemma UnreportedStays(c: Config, rooms: Allocations, wid: Id, r: RoomReport, now: Time, a: Id)
    requires a in rooms && !(OpenHere(rooms[a], wid) && r.room == rooms[a].room)
    ensures RoomsReported(c, rooms, wid, r, now)[a] == rooms[a]
  {
  }

  lemma SeenKeepsRoom(c: Config, a: Allocation, b: Allocation, r: RoomReport, now: Time)
    requires RoomSeen(c, a, b, r, now)
    ensures b.room == a.room && b.worker == a.worker
  {
  }

  lemma {:induction false} RoomsAgree(c: Config, now: Time, m: State, wid: Id, rs: seq<RoomReport>)
    requires wid in m.workers && forall i, j | 0 <= i < j < |rs| :: rs[i].room != rs[j].room
    ensures RoomsSeen(c, m.allocations, ApplyRooms(c, now, m, wid, rs).allocations, wid, rs, now)
  {
    if rs != [] {
      RoomsAgree(c, now, m, wid, rs[..|rs| - 1]);
      OneMoreRoom(c, m.allocations, ApplyRooms(c, now, m, wid, rs[..|rs| - 1]).allocations, wid, rs, now);
    }
  }

  lemma {:induction false} PlayersAgree(c: Config, now: Time, m: State, wid: Id, rs: seq<RoomReport>)
    requires wid in m.workers && forall i, j | 0 <= i < j < |rs| :: rs[i].room != rs[j].room
    ensures ApplyRooms(c, now, m, wid, rs).workers[wid].playerCount == PlayersSeen(m.allocations, wid, rs)
  {
    if rs != [] {
      var n := |rs| - 1;
      PlayersAgree(c, now, m, wid, rs[..n]);
      RoomsAgree(c, now, m, wid, rs[..n]);
      CountAgrees(c, m.allocations, ApplyRooms(c, now, m, wid, rs[..n]).allocations, wid, rs, now);
    }
  }

  lemma CountAgrees(c: Config, before: Allocations, mid: Allocations, wid: Id, rs: seq<RoomReport>, now: Time)
    requires rs != [] && (forall i, j | 0 <= i < j < |rs| :: rs[i].room != rs[j].room) && RoomsSeen(c, before, mid, wid, rs[..|rs| - 1], now)
    ensures Counts(mid, wid, rs[|rs| - 1]) <==> rs[|rs| - 1].phase != "closed" && exists a :: a in before && OpenHere(before[a], wid) && before[a].room == rs[|rs| - 1].room
  {
    var n := |rs| - 1;
    var r := rs[n];
    forall a | a in before && before[a].room == r.room ensures mid[a] == before[a] {
      assert !Mentions(rs[..n], before[a].room);
    }
    forall a | a in before && mid[a].room == r.room ensures before[a].room == r.room {
      KeepsRoomSeen(c, before, mid, wid, rs[..n], now, a);
    }
    forall a | Reports(mid, wid, r, a) ensures a in before && OpenHere(before[a], wid) && before[a].room == r.room {
      assert mid[a].room == r.room;
    }
    forall a | a in before && OpenHere(before[a], wid) && before[a].room == r.room ensures Reports(mid, wid, r, a) {
    }
  }

  lemma KeepsRoomSeen(c: Config, before: Allocations, mid: Allocations, wid: Id, rs: seq<RoomReport>, now: Time, a: Id)
    requires RoomsSeen(c, before, mid, wid, rs, now) && a in before
    ensures mid[a].room == before[a].room
  {
    if OpenHere(before[a], wid) && Mentions(rs, before[a].room) {
      var i :| 0 <= i < |rs| && rs[i].room == before[a].room;
      SeenKeepsRoom(c, before[a], mid[a], rs[i], now);
    }
  }

  // ---- Completed and started rooms ----------------------------------------------------------------

  /** The rooms that a report closes. */
  ghost function ClosedNow(before: Allocations, wid: Id, rs: seq<RoomReport>): set<Id> {
    set a | a in before && OpenHere(before[a], wid) && (before[a].state == Assigned || before[a].state == Active) && ClosedIn(rs, before[a].room)
  }

  ghost predicate ClosedIn(rs: seq<RoomReport>, room: Id) {
    exists i :: 0 <= i < |rs| && rs[i].room == room && rs[i].phase == "closed"
  }

  ghost predicate FullyPlaying(rs: seq<RoomReport>, a: Allocation) {
    exists i :: 0 <= i < |rs| && rs[i].room == a.room && rs[i].phase == "playing" && |rs[i].users| == |a.users|
  }

  /** A room completes exactly when it was assigned or active and is reported closed; it becomes
      active exactly when it was assigned and all its users are reported playing. */
  lemma ReportsDecide(c: Config, before: Allocations, after: Allocations, wid: Id, rs: seq<RoomReport>, now: Time, a: Id)
    requires RoomsSeen(c, before, after, wid, rs, now) && a in before && (forall i, j | 0 <= i < j < |rs| :: rs[i].room != rs[j].room)
    ensures before[a].state != Completed ==> (after[a].state == Completed <==> a in ClosedNow(before, wid, rs))
    ensures a in ClosedNow(before, wid, rs) ==> after[a].terminalAt == now && after[a].error == ""
    ensures before[a].state == Assigned && OpenHere(before[a], wid) ==> (after[a].state == Active <==> FullyPlaying(rs, before[a]))
    ensures after[a].state == before[a].state || after[a].state == Completed || after[a].state == Active
  {
    if OpenHere(before[a], wid) && Mentions(rs, before[a].room) {
      var i :| 0 <= i < |rs| && rs[i].room == before[a].room;
      assert RoomSeen(c, before[a], after[a], rs[i], now);
      assert ClosedIn(rs, before[a].room) <==> rs[i].phase == "closed";
      assert FullyPlaying(rs, before[a]) <==> rs[i].phase == "playing" && |rs[i].users| == |before[a].users|;
    }
  }

  /** The occupancy of the worker falls by the rooms that closed. */
  lemma ClosedRoomsAreFreed(c: Config, before: Allocations, after: Allocations, wid: Id, rs: seq<RoomReport>, now: Time)
    requires RoomsSeen(c, before, after, wid, rs, now) && (forall i, j | 0 <= i < j < |rs| :: rs[i].room != rs[j].room)
    ensures ClosedNow(before, wid, rs) <= Hosted(before, wid) && Hosted(after, wid) == Hosted(before, wid) - ClosedNow(before, wid, rs)
    ensures Occupied(after, wid) == Occupied(before, wid) - |ClosedNow(before, wid, rs)|
  {
    forall a | a in before ensures a in Hosted(after, wid) <==> a in Hosted(before, wid) && a !in ClosedNow(before, wid, rs) {
      ReportsDecide(c, before, after, wid, rs, now, a);
      HostStays(c, before, after, wid, rs, now, a);
    }
    SizeOfRest(Hosted(before, wid), ClosedNow(before, wid, rs));
  }

  lemma HostStays(c: Config, before: Allocations, after: Allocations, wid: Id, rs: seq<RoomReport>, now: Time, a: Id)
    requires RoomsSeen(c, before, after, wid, rs, now) && a in before
    ensures after[a].worker == before[a].worker
  {
    if OpenHere(before[a], wid) && Mentions(rs, before[a].room) {
      var i :| 0 <= i < |rs| && rs[i].room == before[a].room;
      SeenKeepsRoom(c, before[a], after[a], rs[i], now);
    }
  }

  lemma SizeOfRest<T>(p: set<T>, q: set<T>)
    requires q <= p
    ensures |p - q| == |p| - |q|
  {
  }

  // ---- Command results ------------------------------------------------------------------------------

  /** Only these parts of the state may differ. */
  ghost predicate Elsewhere(s: State, t: State) {
    t == s.(workers := t.workers, allocations := t.allocations, commands := t.commands, issued := t.issued)
  }

  /** A drain is acknowledged. */
  ghost predicate Acknowledged(s: State, t: State, wid: Id, cid: Id) {
    && wid in s.workers && cid in s.commands
    && t == s.(workers := s.workers[wid := s.workers[wid].(drainAck := true)], commands := s.commands[cid := s.commands[cid].(done := true)])
  }

  /** A host confirmed a cancellation: the allocation ends as its reason says. */
  ghost predicate CancellationDone(s: State, t: State, cid: Id, aid: Id, now: Time) {
    && cid in s.commands && aid in s.allocations
    && var a := s.allocations[aid];
    t == s.(allocations := s.allocations[aid := a.(state := if a.error == "cancelled" then Cancelled else Expired, terminalAt := now, revision := a.revision + 1)],
            commands := s.commands[cid := s.commands[cid].(done := true)])
  }

  /** An attempt failed and is repeated under a new identifier, after 4, 8, 16 and then 32 seconds. */
  ghost predicate Retried(s: State, t: State, cid: Id, newId: Id, now: Time) {
    && cid in s.commands
    && var k := s.commands[cid];
    var delay := if k.attempts == 0 then 4 else if k.attempts == 1 then 8 else if k.attempts == 2 then 16 else 32;
    t == s.(commands := s.commands[cid := k.(done := true)][newId := k.(done := false, attempts := k.attempts + 1, notBefore := now + delay, expiresAt := now + 3600)],
            issued := s.issued + {newId})
  }

  /** A prepared room, with its seats when its host is fit. */
  ghost predicate PreparedNow(c: Config, s: State, t: State, wid: Id, cid: Id, aid: Id, now: Time) {
    && wid in s.workers && cid in s.commands && aid in s.allocations && aid in t.allocations
    && t == s.(allocations := s.allocations[aid := t.allocations[aid]], commands := s.commands[cid := s.commands[cid].(done := true)])
    && var a, b := s.allocations[aid], t.allocations[aid];
    if !Fit(c, s.workers[wid], now) then b == a.(state := Prepared, revision := a.revision + 1)
    else
      && |a.users| == 2 && |b.sessions| == 2
      && NewSeat(b.sessions[0], a.users[0], 0, now + c.reservationTTL) && NewSeat(b.sessions[1], a.users[1], 1, now + c.reservationTTL)
      && b == a.(state := Assigned, sessions := b.sessions, expiresAt := now + c.reservationTTL, revision := a.revision + 2)
  }

  /** A preparation came too late or failed: the room is cancelled on its host. */
  ghost predicate Withdrawn(c: Config, s: State, t: State, cid: Id, aid: Id, reason: string, newId: Id, now: Time) {
    && cid in s.commands && aid in s.allocations && s.allocations[aid].worker.Some?
    && var a := s.allocations[aid];
    && Elsewhere(s, t) && t.workers == s.workers && t.issued == s.issued + {newId}
    && t.allocations == s.allocations[aid := a.(state := Cancelling, error := reason, revision := a.revision + 1)]
    && t.commands.Keys == s.commands.Keys + {newId}
    && t.commands[newId] == Command(CancelRoom, a.worker.value, a.room, Some(aid), a.epoch, [], now + c.prepareTimeout, false, 0, 0)
    && (forall k | k in s.commands && k != newId ::
          t.commands[k] == s.commands[k].(done := s.commands[k].done || (s.commands[k].kind == PrepareRoom && s.commands[k].allocation == Some(aid))))
  }

  /** Every outcome of one command result for a command that is open. */
  ghost predicate ResultOutcomes(c: Config, now: Time, s: State, t: State, wid: Id, r: CommandResult, newId: Id) {
    && r.command in s.commands && wid in s.workers
    && var k := s.commands[r.command];
    if k.kind == Drain then (if r.success then Acknowledged(s, t, wid, r.command) else Retried(s, t, r.command, newId, now))
    else
      && k.allocation.Some?
      && var aid := k.allocation.value;
      if k.kind == CancelRoom then (if r.success then CancellationDone(s, t, r.command, aid, now) else Retried(s, t, r.command, newId, now))
      else if !r.success then Withdrawn(c, s, t, r.command, aid, "room_prepare_failed", newId, now)
      else if k.expiresAt <= now || s.workers[wid].draining then Withdrawn(c, s, t, r.command, aid, "prepare_expired", newId, now)
      else PreparedNow(c, s, t, wid, r.command, aid, now)
  }

  lemma WithdrawalAgrees(c: Config, now: Time, s: State, wid: Id, cid: Id, reason: string, newId: Id)
    requires Reported(s, wid, cid) && s.commands[cid].kind.PrepareRoom? && newId !in s.commands
    ensures Withdrawn(c, s, Cancel(c, Settle(s, cid), s.commands[cid].allocation.value, reason, now, newId), cid, s.commands[cid].allocation.value, reason, newId, now)
  {
    SettleThenCancel(c, now, s, cid, s.commands[cid].allocation.value, reason, newId);
  }

  lemma PreparationAgrees(c: Config, now: Time, s: State, wid: Id, cid: Id, d: Draw)
    requires Reported(s, wid, cid) && s.commands[cid].kind.PrepareRoom? && now < s.commands[cid].expiresAt && !s.workers[wid].draining
    requires |s.allocations[s.commands[cid].allocation.value].users| == 2
    ensures PreparedNow(c, s, Succeed(c, now, s, wid, cid, d), wid, cid, s.commands[cid].allocation.value, now)
  {
    FitIsEligible(c, s.workers[wid], now);
  }

  lemma RetryAgrees(c: Config, now: Time, s: State, cid: Id, d: Draw)
    requires cid in s.commands && !s.commands[cid].kind.PrepareRoom?
    ensures Retried(s, Fail(c, now, s, cid, d), cid, d.command, now)
  {
  }

  lemma FinishAgrees(c: Config, now: Time, s: State, wid: Id, cid: Id, d: Draw)
    requires Reported(s, wid, cid) && !s.commands[cid].kind.PrepareRoom?
    ensures s.commands[cid].kind.Drain? ==> Acknowledged(s, Succeed(c, now, s, wid, cid, d), wid, cid)
    ensures s.commands[cid].kind.CancelRoom? ==> CancellationDone(s, Succeed(c, now, s, wid, cid, d), cid, s.commands[cid].allocation.value, now)
  {
  }

  /** One result agrees with its table: nothing for a settled command, else the outcome. */
  lemma ResultAgrees(c: Config, now: Time, s: State, wid: Id, r: CommandResult, d: Draw)
    requires Inv(c, s) && d.command !in s.issued && ApplyResult(c, now, s, wid, r, d).Some?
    ensures var t := ApplyResult(c, now, s, wid, r, d).value;
            if s.commands[r.command].done then t == s else ResultOutcomes(c, now, s, t, wid, r, d.command)
  {
    var k := s.commands[r.command];
    if !k.done {
      assert Reported(s, wid, r.command);
      if !k.kind.PrepareRoom? {
        RetryAgrees(c, now, s, r.command, d);
        FinishAgrees(c, now, s, wid, r.command, d);
      } else {
        assert AllocationWell(s.allocations[k.allocation.value]);
        WithdrawalAgrees(c, now, s, wid, r.command, if r.success then "prepare_expired" else "room_prepare_failed", d.command);
        if r.success && now < k.expiresAt && !s.workers[wid].draining {
          PreparationAgrees(c, now, s, wid, r.command, d);
        }
      }
    }
  }

  lemma {:induction false} FreshPrefix(c: Config, now: Time, s: State, wid: Id, rs: seq<CommandResult>, ds: seq<Draw>, i: nat)
    requires |ds| == |rs| && i <= |rs| && FreshDraws(c, now, s, wid, rs, ds) && ApplyResults(c, now, s, wid, rs, ds).Some?
    ensures FreshDraws(c, now, s, wid, rs[..i], ds[..i]) && ApplyResults(c, now, s, wid, rs[..i], ds[..i]).Some?
    decreases |rs|
  {
    if i == |rs| {
      assert rs[..i] == rs && ds[..i] == ds;
    } else {
      var n := |rs| - 1;
      FreshPrefix(c, now, s, wid, rs[..n], ds[..n], i);
      assert rs[..n][..i] == rs[..i] && ds[..n][..i] == ds[..i];
    }
  }

  /** The results of a report take effect one after the other, each as its table says. */
  lemma EachResultAgrees(c: Config, now: Time, s: State, wid: Id, rs: seq<CommandResult>, ds: seq<Draw>, i: nat)
    requires Inv(c, s) && wid in s.workers && |ds| == |rs| && i < |rs| && FreshDraws(c, now, s, wid, rs, ds) && ApplyResults(c, now, s, wid, rs, ds).Some?
    ensures ApplyResults(c, now, s, wid, rs[..i], ds[..i]).Some? && ApplyResults(c, now, s, wid, rs[..i + 1], ds[..i + 1]).Some?
    ensures var m, t := ApplyResults(c, now, s, wid, rs[..i], ds[..i]).value, ApplyResults(c, now, s, wid, rs[..i + 1], ds[..i + 1]).value;
            && rs[i].command in m.commands && m.commands[rs[i].command].worker == wid
            && (if m.commands[rs[i].command].done then t == m else ResultOutcomes(c, now, m, t, wid, rs[i], ds[i].command))
  {
    FreshPrefix(c, now, s, wid, rs, ds, i);
    FreshPrefix(c, now, s, wid, rs, ds, i + 1);
    var m := ApplyResults(c, now, s, wid, rs[..i], ds[..i]).value;
    assert rs[..i + 1][..i] == rs[..i] && ds[..i + 1][..i] == ds[..i];
    var ops := ResultsReplay(c, now, s, wid, rs[..i], ds[..i]);
    ReplayKeeps(c, now, s, ops, m);
    ResultAgrees(c, now, m, wid, rs[i], ds[i]);
  }

  // ---- Which reports are taken ----------------------------------------------------------------------

  /** A report a worker may send: bounded, with sane metrics, from the process that is bound to it. */
  predicate Sendable(s: State, h: Report) {
    && 0 < h.sequence && |h.rooms| <= 512 && |h.results| <= 256
    && 0 <= h.metrics.simulationPending && 0 <= h.metrics.simulationActive && 0 <= h.metrics.auditPending && 0 <= h.metrics.auditActive
    && 0 <= h.metrics.pendingResults && 0.0 <= h.metrics.oldestSeconds && 0.0 <= h.metrics.frameP99
    && h.worker in s.workers
    && var w := s.workers[h.worker];
    |h.rooms| <= w.maxRooms && w.bootId == h.bootId && w.state != Stopped && w.state != Lost && w.state != WorkerState.Failed
  }

  /** Rooms of this worker, each once, in a known phase, with distinct members of their rosters. */
  ghost predicate KnownRooms(rooms: Allocations, wid: Id, rs: seq<RoomReport>) {
    && (forall i, j | 0 <= i < j < |rs| :: rs[i].room != rs[j].room)
    && (forall i | 0 <= i < |rs| ::
          && |rs[i].users| <= 2 && (|rs[i].users| == 2 ==> rs[i].users[0] != rs[i].users[1])
          && (rs[i].phase == "waiting_players" || rs[i].phase == "playing" || rs[i].phase == "closing" || rs[i].phase == "closed" || rs[i].phase == "between_rounds")
          && exists a :: a in rooms && rooms[a].worker == Some(wid) && rooms[a].room == rs[i].room && forall u | u in rs[i].users :: u in rooms[a].users)
  }

  lemma KnownRoomsAreValid(rooms: Allocations, wid: Id, rs: seq<RoomReport>)
    ensures KnownRooms(rooms, wid, rs) <==> RoomsValid(rooms, wid, rs)
  {
    if KnownRooms(rooms, wid, rs) {
      forall i | 0 <= i < |rs| ensures RoomValid(rooms, wid, rs[i]) {
        var a :| a in rooms && rooms[a].worker == Some(wid) && rooms[a].room == rs[i].room && forall u | u in rs[i].users :: u in rooms[a].users;
        assert RoomAccepted(rooms[a], wid, rs[i]);
      }
    }
    if RoomsValid(rooms, wid, rs) {
      forall i | 0 <= i < |rs|
        ensures exists a :: a in rooms && rooms[a].worker == Some(wid) && rooms[a].room == rs[i].room && forall u | u in rs[i].users :: u in rooms[a].users
      {
        assert RoomValid(rooms, wid, rs[i]);
        ValidRoomIsKnown(rooms, wid, rs[i]);
      }
    }
  }

  lemma ValidRoomIsKnown(rooms: Allocations, wid: Id, r: RoomReport)
    requires RoomValid(rooms, wid, r)
    ensures exists a :: a in rooms && rooms[a].worker == Some(wid) && rooms[a].room == r.room && forall u | u in r.users :: u in rooms[a].users
  {
    var a :| a in rooms && RoomAccepted(rooms[a], wid, r);
  }

  /** Results about the worker's own commands are all taken. */
  ghost predicate OwnCommands(s: State, wid: Id, rs: seq<CommandResult>) {
    forall i | 0 <= i < |rs| :: rs[i].command in s.commands && s.commands[rs[i].command].worker == wid
  }

  lemma ResultKeepsCommands(c: Config, now: Time, s: State, wid: Id, r: CommandResult, d: Draw)
    requires ApplyResult(c, now, s, wid, r, d).Some? && d.command !in s.commands
    ensures var t := ApplyResult(c, now, s, wid, r, d).value;
            wid in t.workers && forall k | k in s.commands :: k in t.commands && t.commands[k].worker == s.commands[k].worker
  {
    ResultOnlyHolds(c, now, s, wid, r, d);
    if !s.commands[r.command].done {
      if r.success {
        SuccessKeepsCommands(c, now, s, wid, r.command, d);
      } else {
        FailureKeepsCommands(c, now, s, r.command, d);
      }
    }
  }

  lemma SuccessKeepsCommands(c: Config, now: Time, s: State, wid: Id, cid: Id, d: Draw)
    requires wid in s.workers && cid in s.commands && d.command !in s.commands
    ensures var t := Succeed(c, now, s, wid, cid, d); forall k | k in s.commands :: k in t.commands && t.commands[k].worker == s.commands[k].worker
  {
  }

  lemma FailureKeepsCommands(c: Config, now: Time, s: State, cid: Id, d: Draw)
    requires cid in s.commands && d.command !in s.commands
    ensures var t := Fail(c, now, s, cid, d); forall k | k in s.commands :: k in t.commands && t.commands[k].worker == s.commands[k].worker
  {
  }

  lemma {:induction false} OwnResultsAreTaken(c: Config, now: Time, s: State, wid: Id, rs: seq<CommandResult>, ds: seq<Draw>)
    requires Inv(c, s) && wid in s.workers && |ds| == |rs| && OwnCommands(s, wid, rs) && FreshDraws(c, now, s, wid, rs, ds)
    ensures ApplyResults(c, now, s, wid, rs, ds).Some?
    ensures var t := ApplyResults(c, now, s, wid, rs, ds).value;
            wid in t.workers && forall k | k in s.commands :: k in t.commands && t.commands[k].worker == s.commands[k].worker
  {
    if rs != [] {
      var n := |rs| - 1;
      assert OwnCommands(s, wid, rs[..n]);
      OwnResultsAreTaken(c, now, s, wid, rs[..n], ds[..n]);
      var m := ApplyResults(c, now, s, wid, rs[..n], ds[..n]).value;
      var ops := ResultsReplay(c, now, s, wid, rs[..n], ds[..n]);
      ReplayKeeps(c, now, s, ops, m);
      LastOwnResult(c, now, s, m, wid, rs[n], ds[n]);
    }
  }

  lemma LastOwnResult(c: Config, now: Time, s: State, m: State, wid: Id, r: CommandResult, d: Draw)
    requires wid in m.workers && m.commands.Keys <= m.issued && d.command !in m.issued
    requires (forall k | k in s.commands :: k in m.commands && m.commands[k].worker == s.commands[k].worker) && r.command in s.commands && s.commands[r.command].worker == wid
    ensures ApplyResult(c, now, m, wid, r, d).Some?
    ensures var t := ApplyResult(c, now, m, wid, r, d).value;
            wid in t.workers && forall k | k in s.commands :: k in t.commands && t.commands[k].worker == s.commands[k].worker
  {
    ResultKeepsCommands(c, now, m, wid, r, d);
  }

  /** A report is taken when it is sendable, and new only with known rooms and own commands; it is
      refused when it is not sendable, and a new one when its rooms are not known. */
  lemma TakenExactly(c: Config, now: Time, s: State, h: Report, ds: seq<Draw>)
    requires Inv(c, s) && |ds| == |h.results| && ReportDraws(c, now, s, h, ds)
    ensures !Sendable(s, h) ==> Heartbeat(c, now, s, h, ds).Refused?
    ensures Sendable(s, h) && h.sequence <= s.workers[h.worker].lastSequence ==> Heartbeat(c, now, s, h, ds) == Committed(s)
    ensures Sendable(s, h) && h.sequence > s.workers[h.worker].lastSequence && !KnownRooms(s.allocations, h.worker, h.rooms) ==> Heartbeat(c, now, s, h, ds).Refused?
    ensures Sendable(s, h) && h.sequence > s.workers[h.worker].lastSequence && KnownRooms(s.allocations, h.worker, h.rooms) && OwnCommands(s, h.worker, h.results) ==>
              Heartbeat(c, now, s, h, ds).Committed?
  {
    KnownRoomsAreValid(s.allocations, h.worker, h.rooms);
    if Sendable(s, h) && h.sequence > s.workers[h.worker].lastSequence && OwnCommands(s, h.worker, h.results) {
      var first := HearingReplays(c, now, s, h);
      OwnResultsAreTaken(c, now, Hear(s, h, now), h.worker, h.results, ds);
    }
  }

  // ---- The whole report -----------------------------------------------------------------------------

  /** The state after the results of a report and before its rooms. */
  ghost function Resulted(c: Config, now: Time, s: State, h: Report, ds: seq<Draw>): State
    requires |ds| == |h.results| && Accepts(s, h)
  {
    var r := ApplyResults(c, now, Hear(s, h, now), h.worker, h.results, ds);
    if r.Some? then r.value else s
  }

  /** What an accepted report leaves: its worker heard and its players counted, its rooms as
      reported on top of its results, and every room it does not mention as the results left it. */
  ghost predicate ReportOutcomes(c: Config, s: State, m: State, t: State, h: Report, now: Time) {
    && Elsewhere(s, t) && h.worker in s.workers && h.worker in t.workers && t.workers == s.workers[h.worker := t.workers[h.worker]]
    && WorkerHeard(s.workers[h.worker], t.workers[h.worker], h, now)
    && t.workers[h.worker].playerCount == PlayersSeen(m.allocations, h.worker, h.rooms)
    && RoomsSeen(c, m.allocations, t.allocations, h.worker, h.rooms, now)
    && Occupied(t.allocations, h.worker) == Occupied(m.allocations, h.worker) - |ClosedNow(m.allocations, h.worker, h.rooms)|
    && t.commands == m.commands
  }

  lemma HeartbeatAgrees(c: Config, now: Time, s: State, h: Report, ds: seq<Draw>)
    requires Inv(c, s) && |ds| == |h.results| && Accepts(s, h) && ReportDraws(c, now, s, h, ds) && Heartbeat(c, now, s, h, ds).Committed?
    ensures ReportOutcomes(c, s, Resulted(c, now, s, h, ds), Heartbeat(c, now, s, h, ds).state, h, now)
  {
    var m := Resulted(c, now, s, h, ds);
    var t := Heartbeat(c, now, s, h, ds).state;
    AcceptedSteps(c, now, s, h, ds);
    HeartbeatOnly(c, now, s, h, ds);
    HeardAgrees(s.workers[h.worker], t.workers[h.worker], h, now);
    RoomsAgree(c, now, m, h.worker, h.rooms);
    PlayersAgree(c, now, m, h.worker, h.rooms);
    ClosedRoomsAreFreed(c, m.allocations, t.allocations, h.worker, h.rooms, now);
    RoomsCountOnly(c, now, m, h.worker, h.rooms);
  }
}
