/** The heartbeat transaction: what one report of a game process does to its worker, its
    rooms and its commands. `Heartbeat` is the whole transaction as a function; it is shown
    to be a sequence of elementary changes, and the loops that compute it are in
    `FleetRequests`. */
module FleetHeartbeat {
  import opened Basics
  import opened FleetState
  import opened FleetOps
  import opened FleetInvariant
  import opened FleetPreserve

  datatype Error = NotFound | Busy | Forbidden | Invalid

  datatype RoomReport = RoomReport(room: Id, phase: string, users: seq<string>)

  datatype CommandResult = CommandResult(command: Id, success: bool)

  datatype Report = Report(
    worker: Id, bootId: string, sequence: nat, ready: bool, metrics: Metrics,
    rooms: seq<RoomReport>, results: seq<CommandResult>)

  /** The random identifiers one command result may draw. */
  datatype Draw = Draw(command: Id, reservation0: Id, reservation1: Id)

  datatype Outcome = Refused(error: Error) | Committed(state: State)

  predicate ValidMetrics(m: Metrics) {
    && m.simulationPending >= 0 && m.simulationActive >= 0 && m.auditPending >= 0 && m.auditActive >= 0
    && m.pendingResults >= 0 && m.oldestSeconds >= 0.0 && m.frameP99 >= 0.0
  }

  predicate ValidRoomPhase(phase: string) {
    || phase == "waiting_players" || phase == "playing" || phase == "closing" || phase == "closed"
    || phase == "between_rounds"
  }

  predicate Distinct<T(==)>(xs: seq<T>) {
    forall i, j | 0 <= i < j < |xs| :: xs[i] != xs[j]
  }

  predicate WellFormed(h: Report) {
    h.sequence > 0 && |h.rooms| <= 512 && |h.results| <= 256 && ValidMetrics(h.metrics)
  }

  predicate RoomOf(a: Allocation, wid: Id, room: Id) {
    a.room == room && a.worker == Some(wid)
  }

  predicate RoomAccepted(a: Allocation, wid: Id, r: RoomReport) {
    RoomOf(a, wid, r.room) && forall u | u in r.users :: u in a.users
  }

  ghost predicate RoomValid(rooms: Allocations, wid: Id, r: RoomReport) {
    && |r.users| <= 2 && Distinct(r.users) && ValidRoomPhase(r.phase)
    && exists a :: a in rooms && RoomAccepted(rooms[a], wid, r)
  }

  ghost predicate RoomsValid(rooms: Allocations, wid: Id, rs: seq<RoomReport>) {
    && (forall i, j | 0 <= i < j < |rs| :: rs[i].room != rs[j].room)
    && forall i | 0 <= i < |rs| :: RoomValid(rooms, wid, rs[i])
  }

  predicate Promotable(w: Worker, ready: bool) {
    && w.providerReady && w.host != "" && ready
    && !w.state.Stopping? && !w.state.Unknown? && !w.state.Requested? && !w.state.Starting?
  }

  /** The report's own fields, and the state they put the worker in. */
  function Heard(w: Worker, h: Report, now: Time): Worker {
    w.(lastHeartbeat := now, lastSequence := h.sequence, ready := h.ready, metrics := h.metrics,
       state := if Promotable(w, h.ready) then (if w.draining then Draining else Ready) else w.state)
  }

  function Settle(s: State, cid: Id): State
    requires cid in s.commands
  {
    s.(commands := s.commands[cid := s.commands[cid].(done := true)])
  }

  /** A prepared room, reserved at once when its worker admits players. */
  function PreparedRoom(c: Config, w: Worker, a: Allocation, now: Time, d: Draw): Allocation {
    var b := a.(state := Prepared, revision := a.revision + 1);
    if Eligible(c, w, now) && |a.users| == 2 then Reserve(c, b, now, d.reservation0, d.reservation1) else b
  }

  predicate CommandsRoom(s: State, k: Command, phase: AllocationState) {
    k.allocation.Some? && k.allocation.value in s.allocations && s.allocations[k.allocation.value].state == phase
  }

  function Succeed(c: Config, now: Time, s: State, wid: Id, cid: Id, d: Draw): State
    requires wid in s.workers && cid in s.commands
  {
    var k := s.commands[cid];
    var t := Settle(s, cid);
    match k.kind
    case Drain => t.(workers := t.workers[wid := t.workers[wid].(drainAck := true)])
    case PrepareRoom =>
      if CommandsRoom(s, k, Preparing) && s.allocations[k.allocation.value].epoch == k.epoch then
        var aid := k.allocation.value;
        if k.expiresAt <= now || s.workers[wid].draining then Cancel(c, t, aid, "prepare_expired", now, d.command)
        else t.(allocations := t.allocations[aid := PreparedRoom(c, s.workers[wid], s.allocations[aid], now, d)])
      else t
    case CancelRoom =>
      if CommandsRoom(s, k, Cancelling) && s.allocations[k.allocation.value].epoch == k.epoch then
        var aid := k.allocation.value;
        var a := s.allocations[aid];
        t.(allocations := t.allocations[aid := Finish(a, EndPhase(a.error), a.error, now)])
      else t
  }

  function Fail(c: Config, now: Time, s: State, cid: Id, d: Draw): State
    requires cid in s.commands
  {
    var k := s.commands[cid];
    var t := Settle(s, cid);
    if k.kind.PrepareRoom? then
      if CommandsRoom(s, k, Preparing) then Cancel(c, t, k.allocation.value, "room_prepare_failed", now, d.command) else t
    else t.(commands := t.commands[d.command := RetryOf(k, now)], issued := t.issued + {d.command})
  }

  /** One command result; none when the command is unknown or another worker's. */
  function ApplyResult(c: Config, now: Time, s: State, wid: Id, r: CommandResult, d: Draw): Option<State> {
    if wid !in s.workers || r.command !in s.commands || s.commands[r.command].worker != wid then None
    else if s.commands[r.command].done then Some(s)
    else if r.success then Some(Succeed(c, now, s, wid, r.command, d))
    else Some(Fail(c, now, s, r.command, d))
  }

  function ApplyResults(c: Config, now: Time, s: State, wid: Id, rs: seq<CommandResult>, ds: seq<Draw>): Option<State>
    requires |ds| == |rs|
  {
    if rs == [] then Some(s)
    else
      var n := |rs| - 1;
      match ApplyResults(c, now, s, wid, rs[..n], ds[..n])
      case None => None
      case Some(t) => ApplyResult(c, now, t, wid, rs[n], ds[n])
  }

  /** A seat after a report of who is connected. */
  function SeatReported(c: Config, x: Session, users: seq<string>, now: Time): Session {
    if x.user in users then x.(everConnected := true, reconnectUntil := 0, connected := true)
    else x.(reconnectUntil := if x.connected && x.reconnectUntil == 0 then now + c.reconnectSeconds else x.reconnectUntil, connected := false)
  }

  function SeatsReported(c: Config, xs: seq<Session>, users: seq<string>, now: Time): (ys: seq<Session>)
    ensures |ys| == |xs| && forall i | 0 <= i < |xs| :: ys[i] == SeatReported(c, xs[i], users, now)
  {
    seq(|xs|, i requires 0 <= i < |xs| => SeatReported(c, xs[i], users, now))
  }

  /** An unfinished room after a report about it. */
  function RoomReported(c: Config, a: Allocation, r: RoomReport, now: Time): Allocation {
    if !a.state.Assigned? && !a.state.Active? then a
    else if r.phase == "closed" then Finish(a, Completed, "", now)
    else
      var b := a.(sessions := SeatsReported(c, a.sessions, r.users, now));
      if r.phase == "playing" && |r.users| == |a.users| && a.state.Assigned? then b.(state := Active, revision := b.revision + 1) else b
  }

  predicate Reports(rooms: Allocations, wid: Id, r: RoomReport, a: Id) {
    a in rooms && RoomOf(rooms[a], wid, r.room) && !Terminal(rooms[a].state)
  }

  ghost predicate Counts(rooms: Allocations, wid: Id, r: RoomReport) {
    r.phase != "closed" && exists a :: Reports(rooms, wid, r, a)
  }

  function RoomsReported(c: Config, rooms: Allocations, wid: Id, r: RoomReport, now: Time): Allocations {
    map a | a in rooms :: if Reports(rooms, wid, r, a) then RoomReported(c, rooms[a], r, now) else rooms[a]
  }

  /** One room report: its room, and the players it adds to the worker. */
  ghost function ReportRoom(c: Config, now: Time, s: State, wid: Id, r: RoomReport): State
    requires wid in s.workers
  {
    var w := s.workers[wid];
    s.(allocations := RoomsReported(c, s.allocations, wid, r, now),
       workers := s.workers[wid := w.(playerCount := w.playerCount + if Counts(s.allocations, wid, r) then |r.users| else 0)])
  }

  function CountFromZero(s: State, wid: Id): State
    requires wid in s.workers
  {
    s.(workers := s.workers[wid := s.workers[wid].(playerCount := 0)])
  }

  ghost function ApplyRooms(c: Config, now: Time, s: State, wid: Id, rs: seq<RoomReport>): State
    requires wid in s.workers
    ensures wid in ApplyRooms(c, now, s, wid, rs).workers
  {
    if rs == [] then CountFromZero(s, wid)
    else ReportRoom(c, now, ApplyRooms(c, now, s, wid, rs[..|rs| - 1]), wid, rs[|rs| - 1])
  }

  /** Why a report is turned away before its sequence number is looked at. */
  function Unwelcome(s: State, h: Report): Option<Error> {
    if !WellFormed(h) then Some(Invalid)
    else if h.worker !in s.workers then Some(NotFound)
    else
      var w := s.workers[h.worker];
      if |h.rooms| > w.maxRooms then Some(Forbidden)
      else if w.bootId != h.bootId || w.state.Stopped? || w.state.Lost? || w.state.Failed? then Some(Forbidden)
      else None
  }

  ghost function Heartbeat(c: Config, now: Time, s: State, h: Report, ds: seq<Draw>): Outcome
    requires |ds| == |h.results|
  {
    match Unwelcome(s, h)
    case Some(e) => Refused(e)
    case None =>
      if h.sequence <= s.workers[h.worker].lastSequence then Committed(s)
      else if !RoomsValid(s.allocations, h.worker, h.rooms) then Refused(Forbidden)
      else
        match ApplyResults(c, now, Hear(s, h, now), h.worker, h.results, ds)
        case None => Refused(Forbidden)
        case Some(t) => if h.worker in t.workers then Committed(ApplyRooms(c, now, t, h.worker, h.rooms)) else Refused(Forbidden)
  }

  function Hear(s: State, h: Report, now: Time): State
    requires h.worker in s.workers
  {
    s.(workers := s.workers[h.worker := Heard(s.workers[h.worker], h, now)])
  }

  // ---- The transaction is a sequence of elementary changes -----------------------------

  /** Each result draws an identifier that is new when its turn comes. */
  ghost predicate FreshDraws(c: Config, now: Time, s: State, wid: Id, rs: seq<CommandResult>, ds: seq<Draw>)
    requires |ds| == |rs|
  {
    rs == [] ||
      var n := |rs| - 1;
      && FreshDraws(c, now, s, wid, rs[..n], ds[..n])
      && var before := ApplyResults(c, now, s, wid, rs[..n], ds[..n]);
      (before.Some? ==> ds[n].command !in before.value.issued)
  }

  lemma HearReplays(c: Config, now: Time, s: State, h: Report)
    requires Inv(c, s) && Unwelcome(s, h).None? && h.sequence > s.workers[h.worker].lastSequence
    ensures Enabled(c, now, s, EditWorker(h.worker, Heard(s.workers[h.worker], h, now)))
  {
    assert WorkerWell(s.workers[h.worker]);
  }

  /** The command a result of `wid` refers to is open, and sound. */
  ghost predicate Reported(s: State, wid: Id, cid: Id) {
    && wid in s.workers && Undone(s.commands, cid) && s.commands[cid].worker == wid
    && CommandSound(s.allocations, s.workers, s.commands[cid])
  }

  lemma AckReplays(c: Config, now: Time, s: State, wid: Id, cid: Id, d: Draw)
    requires Reported(s, wid, cid) && s.commands[cid].kind.Drain?
    ensures Replay(c, now, s, [AckDrain(cid)]) == Some(Succeed(c, now, s, wid, cid, d))
  {
    ReplayOne(c, now, s, [], s, AckDrain(cid));
    assert [] + [AckDrain(cid)] == [AckDrain(cid)];
  }

  lemma FinishReplays(c: Config, now: Time, s: State, wid: Id, cid: Id, d: Draw)
    requires Reported(s, wid, cid) && s.commands[cid].kind.CancelRoom?
    ensures Replay(c, now, s, [FinishCancel(cid)]) == Some(Succeed(c, now, s, wid, cid, d))
  {
    ReplayOne(c, now, s, [], s, FinishCancel(cid));
    assert [] + [FinishCancel(cid)] == [FinishCancel(cid)];
  }

  lemma RetryReplays(c: Config, now: Time, s: State, wid: Id, cid: Id, d: Draw)
    requires Reported(s, wid, cid) && !s.commands[cid].kind.PrepareRoom? && d.command !in s.issued
    ensures Replay(c, now, s, [RetryCommand(cid, d.command)]) == Some(Fail(c, now, s, cid, d))
  {
    ReplayOne(c, now, s, [], s, RetryCommand(cid, d.command));
    assert [] + [RetryCommand(cid, d.command)] == [RetryCommand(cid, d.command)];
  }

  /** Cancelling withdraws the reported preparation itself. */
  lemma SettleThenCancel(c: Config, now: Time, s: State, cid: Id, aid: Id, reason: string, id: Id)
    requires cid in s.commands && s.commands[cid].kind.PrepareRoom? && s.commands[cid].allocation == Some(aid)
    requires aid in s.allocations && s.allocations[aid].state.Preparing? && s.allocations[aid].worker.Some?
    ensures Cancel(c, Settle(s, cid), aid, reason, now, id) == Cancel(c, s, aid, reason, now, id)
  {
    assert WithdrawPrepares(Settle(s, cid).commands, aid) == WithdrawPrepares(s.commands, aid);
  }

  lemma WithdrawReplays(c: Config, now: Time, s: State, wid: Id, cid: Id, reason: string, id: Id)
    requires Reported(s, wid, cid) && s.commands[cid].kind.PrepareRoom? && id !in s.issued
    ensures Replay(c, now, s, [CancelAllocation(s.commands[cid].allocation.value, reason, id)]) ==
            Some(Cancel(c, Settle(s, cid), s.commands[cid].allocation.value, reason, now, id))
  {
    var aid := s.commands[cid].allocation.value;
    SettleThenCancel(c, now, s, cid, aid, reason, id);
    ReplayOne(c, now, s, [], s, CancelAllocation(aid, reason, id));
    assert [] + [CancelAllocation(aid, reason, id)] == [CancelAllocation(aid, reason, id)];
  }

  lemma PreparedReplays(c: Config, now: Time, s: State, wid: Id, cid: Id, d: Draw) returns (ops: seq<Op>)
    requires Reported(s, wid, cid) && s.commands[cid].kind.PrepareRoom? && now < s.commands[cid].expiresAt && !s.workers[wid].draining
    ensures Replay(c, now, s, ops) == Some(Succeed(c, now, s, wid, cid, d))
  {
    var aid := s.commands[cid].allocation.value;
    ReplayOne(c, now, s, [], s, MarkPrepared(cid));
    ops := [] + [MarkPrepared(cid)];
    var m := Apply(c, now, s, MarkPrepared(cid));
    if Eligible(c, s.workers[wid], now) && |s.allocations[aid].users| == 2 {
      ReplayOne(c, now, s, ops, m, ReserveSeats(aid, d.reservation0, d.reservation1));
      ops := ops + [ReserveSeats(aid, d.reservation0, d.reservation1)];
      assert m.allocations[aid := PreparedRoom(c, s.workers[wid], s.allocations[aid], now, d)] ==
             s.allocations[aid := PreparedRoom(c, s.workers[wid], s.allocations[aid], now, d)];
    }
  }

  lemma ResultReplays(c: Config, now: Time, s: State, wid: Id, r: CommandResult, d: Draw) returns (ops: seq<Op>)
    requires CommandsSound(s.allocations, s.workers, s.commands) && d.command !in s.issued && ApplyResult(c, now, s, wid, r, d).Some?
    ensures Replay(c, now, s, ops) == ApplyResult(c, now, s, wid, r, d)
  {
    var cid := r.command;
    var k := s.commands[cid];
    if k.done {
      ops := [];
    } else {
      assert Reported(s, wid, cid);
      if k.kind.PrepareRoom? {
        if !r.success {
          WithdrawReplays(c, now, s, wid, cid, "room_prepare_failed", d.command);
          ops := [CancelAllocation(k.allocation.value, "room_prepare_failed", d.command)];
        } else if k.expiresAt <= now || s.workers[wid].draining {
          WithdrawReplays(c, now, s, wid, cid, "prepare_expired", d.command);
          ops := [CancelAllocation(k.allocation.value, "prepare_expired", d.command)];
        } else {
          ops := PreparedReplays(c, now, s, wid, cid, d);
        }
      } else if !r.success {
        RetryReplays(c, now, s, wid, cid, d);
        ops := [RetryCommand(cid, d.command)];
      } else if k.kind.Drain? {
        AckReplays(c, now, s, wid, cid, d);
        ops := [AckDrain(cid)];
      } else {
        FinishReplays(c, now, s, wid, cid, d);
        ops := [FinishCancel(cid)];
      }
    }
  }

  /** What a result leaves alone. */
  ghost predicate ResultOnly(s: State, t: State, wid: Id) {
    && wid in s.workers && t.workers.Keys == s.workers.Keys
    && t.workers == s.workers[wid := s.workers[wid].(drainAck := t.workers[wid].drainAck)]
    && t.allocations.Keys == s.allocations.Keys
    && t == s.(workers := t.workers, allocations := t.allocations, commands := t.commands, issued := t.issued)
  }

  lemma ResultOnlyHolds(c: Config, now: Time, s: State, wid: Id, r: CommandResult, d: Draw)
    requires ApplyResult(c, now, s, wid, r, d).Some?
    ensures ResultOnly(s, ApplyResult(c, now, s, wid, r, d).value, wid)
  {
    if s.commands[r.command].done {
      assert s.workers == s.workers[wid := s.workers[wid]];
    } else if r.success {
      SuccessOnly(c, now, s, wid, r.command, d);
    } else {
      FailureOnly(c, now, s, wid, r.command, d);
    }
  }

  lemma SuccessOnly(c: Config, now: Time, s: State, wid: Id, cid: Id, d: Draw)
    requires wid in s.workers && cid in s.commands
    ensures ResultOnly(s, Succeed(c, now, s, wid, cid, d), wid)
  {
    assert s.workers == s.workers[wid := s.workers[wid]];
    if s.commands[cid].kind.PrepareRoom? {
      PrepareOnly(c, now, s, wid, cid, d);
    }
  }

  lemma PrepareOnly(c: Config, now: Time, s: State, wid: Id, cid: Id, d: Draw)
    requires wid in s.workers && cid in s.commands && s.commands[cid].kind.PrepareRoom?
    ensures ResultOnly(s, Succeed(c, now, s, wid, cid, d), wid)
  {
    assert s.workers == s.workers[wid := s.workers[wid]];
  }

  lemma FailureOnly(c: Config, now: Time, s: State, wid: Id, cid: Id, d: Draw)
    requires wid in s.workers && cid in s.commands
    ensures ResultOnly(s, Fail(c, now, s, cid, d), wid)
  {
    assert s.workers == s.workers[wid := s.workers[wid]];
  }

  lemma {:induction false} ResultsReplay(c: Config, now: Time, s: State, wid: Id, rs: seq<CommandResult>, ds: seq<Draw>) returns (ops: seq<Op>)
    requires Inv(c, s) && |ds| == |rs| && FreshDraws(c, now, s, wid, rs, ds) && wid in s.workers && ApplyResults(c, now, s, wid, rs, ds).Some?
    ensures Replay(c, now, s, ops) == ApplyResults(c, now, s, wid, rs, ds)
    ensures ResultOnly(s, ApplyResults(c, now, s, wid, rs, ds).value, wid)
  {
    if rs == [] {
      ops := [];
      assert s.workers == s.workers[wid := s.workers[wid]];
    } else {
      var n := |rs| - 1;
      var t := ApplyResults(c, now, s, wid, rs[..n], ds[..n]).value;
      var before := ResultsReplay(c, now, s, wid, rs[..n], ds[..n]);
      ReplayKeeps(c, now, s, before, t);
      var u := ApplyResult(c, now, t, wid, rs[n], ds[n]).value;
      var more := ResultReplays(c, now, t, wid, rs[n], ds[n]);
      ops := Chain(c, now, s, before, t, more, u);
      ResultOnlyHolds(c, now, t, wid, rs[n], ds[n]);
      ResultOnlyChain(s, t, u, wid);
    }
  }

  lemma ResultOnlyChain(s: State, t: State, u: State, wid: Id)
    requires ResultOnly(s, t, wid) && ResultOnly(t, u, wid)
    ensures ResultOnly(s, u, wid)
  {
  }

  /** A report about one room touches at most that room. */
  lemma ReportTouchesOne(c: Config, now: Time, rooms: Allocations, wid: Id, r: RoomReport, a: Id)
    requires KeysUnique(rooms) && Reports(rooms, wid, r, a)
    ensures RoomsReported(c, rooms, wid, r, now) == rooms[a := RoomReported(c, rooms[a], r, now)]
  {
  }

  lemma SeatsKeepPlaces(c: Config, xs: seq<Session>, users: seq<string>, now: Time)
    ensures forall i | 0 <= i < |xs| :: SameSeat(xs[i], SeatsReported(c, xs, users, now)[i])
  {
  }

  lemma RoomReplays(c: Config, now: Time, s: State, aid: Id, r: RoomReport) returns (ops: seq<Op>)
    requires aid in s.allocations && (s.allocations[aid].state.Assigned? || s.allocations[aid].state.Active?)
    ensures Replay(c, now, s, ops) == Some(s.(allocations := s.allocations[aid := RoomReported(c, s.allocations[aid], r, now)]))
  {
    var a := s.allocations[aid];
    if r.phase == "closed" {
      ReplayOne(c, now, s, [], s, Complete(aid));
      ops := [] + [Complete(aid)];
    } else {
      var seats := SetSessions(aid, SeatsReported(c, a.sessions, r.users, now));
      SeatsKeepPlaces(c, a.sessions, r.users, now);
      ReplayOne(c, now, s, [], s, seats);
      ops := [] + [seats];
      var m := Apply(c, now, s, seats);
      if r.phase == "playing" && |r.users| == |a.users| && a.state.Assigned? {
        ReplayOne(c, now, s, ops, m, Activate(aid));
        ops := ops + [Activate(aid)];
        assert m.allocations[aid := RoomReported(c, a, r, now)] == s.allocations[aid := RoomReported(c, a, r, now)];
      }
    }
  }

  lemma ReportReplays(c: Config, now: Time, s: State, wid: Id, r: RoomReport) returns (ops: seq<Op>)
    requires KeysUnique(s.allocations)
    ensures Replay(c, now, s, ops) == Some(s.(allocations := RoomsReported(c, s.allocations, wid, r, now)))
  {
    ops := [];
    if a :| Reports(s.allocations, wid, r, a) {
      ReportTouchesOne(c, now, s.allocations, wid, r, a);
      if s.allocations[a].state.Assigned? || s.allocations[a].state.Active? {
        ops := RoomReplays(c, now, s, a, r);
      } else {
        assert s.allocations == s.allocations[a := s.allocations[a]];
      }
    } else {
      assert s.allocations == RoomsReported(c, s.allocations, wid, r, now);
    }
  }

  lemma CountReplays(c: Config, now: Time, s: State, wid: Id, n: int)
    requires wid in s.workers && 0 <= n <= 2 * s.workers[wid].maxRooms && |s.workers[wid].bootId| <= 128
    ensures Replay(c, now, s, [EditWorker(wid, s.workers[wid].(playerCount := n))]) ==
            Some(s.(workers := s.workers[wid := s.workers[wid].(playerCount := n)]))
  {
    var op := EditWorker(wid, s.workers[wid].(playerCount := n));
    ReplayOne(c, now, s, [], s, op);
    assert [] + [op] == [op];
  }

  lemma {:induction false} RoomsCount(c: Config, now: Time, s: State, wid: Id, rs: seq<RoomReport>)
    requires wid in s.workers && forall i | 0 <= i < |rs| :: |rs[i].users| <= 2
    ensures ApplyRooms(c, now, s, wid, rs).workers[wid].maxRooms == s.workers[wid].maxRooms
    ensures 0 <= ApplyRooms(c, now, s, wid, rs).workers[wid].playerCount <= 2 * |rs|
  {
    if rs != [] {
      RoomsCount(c, now, s, wid, rs[..|rs| - 1]);
    }
  }

  lemma {:induction false} RoomsReplay(c: Config, now: Time, s: State, wid: Id, rs: seq<RoomReport>) returns (ops: seq<Op>)
    requires Inv(c, s) && wid in s.workers && |rs| <= s.workers[wid].maxRooms && forall i | 0 <= i < |rs| :: |rs[i].users| <= 2
    ensures Replay(c, now, s, ops) == Some(ApplyRooms(c, now, s, wid, rs))
  {
    if rs == [] {
      assert WorkerWell(s.workers[wid]);
      CountReplays(c, now, s, wid, 0);
      ops := [EditWorker(wid, s.workers[wid].(playerCount := 0))];
    } else {
      var n := |rs| - 1;
      var before := RoomsReplay(c, now, s, wid, rs[..n]);
      var t := ApplyRooms(c, now, s, wid, rs[..n]);
      ReplayKeeps(c, now, s, before, t);
      RoomsCount(c, now, s, wid, rs[..n]);
      assert WorkerWell(t.workers[wid]);
      ops := LastRoomReplays(c, now, s, before, t, wid, rs[n], n);
    }
  }

  lemma LastRoomReplays(c: Config, now: Time, s: State, ops: seq<Op>, t: State, wid: Id, r: RoomReport, n: nat) returns (all: seq<Op>)
    requires Replay(c, now, s, ops) == Some(t) && KeysUnique(t.allocations) && wid in t.workers && |r.users| <= 2
    requires n < t.workers[wid].maxRooms && 0 <= t.workers[wid].playerCount <= 2 * n && |t.workers[wid].bootId| <= 128
    ensures Replay(c, now, s, all) == Some(ReportRoom(c, now, t, wid, r))
  {
    var more := ReportReplays(c, now, t, wid, r);
    var m := t.(allocations := RoomsReported(c, t.allocations, wid, r, now));
    ReplayConcat(c, now, s, ops, t, more, m);
    var count := t.workers[wid].playerCount + if Counts(t.allocations, wid, r) then |r.users| else 0;
    CountReplays(c, now, m, wid, count);
    var last := [EditWorker(wid, m.workers[wid].(playerCount := count))];
    ReplayConcat(c, now, s, ops + more, m, last, m.(workers := m.workers[wid := m.workers[wid].(playerCount := count)]));
    all := ops + more + last;
  }

  /** A committed heartbeat is a sequence of elementary changes, so it keeps the invariant. */
  lemma HeartbeatReplays(c: Config, now: Time, s: State, h: Report, ds: seq<Draw>) returns (ops: seq<Op>)
    requires Inv(c, s) && |ds| == |h.results| && ReportDraws(c, now, s, h, ds) && Heartbeat(c, now, s, h, ds).Committed?
    ensures Replay(c, now, s, ops) == Some(Heartbeat(c, now, s, h, ds).state)
  {
    if h.sequence <= s.workers[h.worker].lastSequence {
      ops := [];
    } else {
      ops := AcceptedReplays(c, now, s, h, ds);
    }
  }

  ghost predicate ReportDraws(c: Config, now: Time, s: State, h: Report, ds: seq<Draw>)
    requires |ds| == |h.results|
  {
    Accepts(s, h) ==> FreshDraws(c, now, Hear(s, h, now), h.worker, h.results, ds)
  }

  predicate Accepts(s: State, h: Report) {
    Unwelcome(s, h).None? && h.sequence > s.workers[h.worker].lastSequence
  }

  /** The steps of an accepted report, one after the other. */
  lemma AcceptedSteps(c: Config, now: Time, s: State, h: Report, ds: seq<Draw>)
    requires |ds| == |h.results| && Accepts(s, h) && Heartbeat(c, now, s, h, ds).Committed?
    ensures var results := ApplyResults(c, now, Hear(s, h, now), h.worker, h.results, ds);
            results.Some? && h.worker in results.value.workers
            && Heartbeat(c, now, s, h, ds).state == ApplyRooms(c, now, results.value, h.worker, h.rooms)
    ensures |h.rooms| <= s.workers[h.worker].maxRooms && forall i | 0 <= i < |h.rooms| :: |h.rooms[i].users| <= 2
  {
  }

  lemma HearingReplays(c: Config, now: Time, s: State, h: Report) returns (ops: seq<Op>)
    requires Inv(c, s) && Accepts(s, h)
    ensures Replay(c, now, s, ops) == Some(Hear(s, h, now)) && Inv(c, Hear(s, h, now))
  {
    var first := EditWorker(h.worker, Heard(s.workers[h.worker], h, now));
    HearReplays(c, now, s, h);
    ReplayOne(c, now, s, [], s, first);
    ops := [] + [first];
    ReplayKeeps(c, now, s, ops, Hear(s, h, now));
  }

  lemma AcceptedReplays(c: Config, now: Time, s: State, h: Report, ds: seq<Draw>) returns (ops: seq<Op>)
    requires Inv(c, s) && |ds| == |h.results| && Accepts(s, h) && FreshDraws(c, now, Hear(s, h, now), h.worker, h.results, ds) && Heartbeat(c, now, s, h, ds).Committed?
    ensures Replay(c, now, s, ops) == Some(Heartbeat(c, now, s, h, ds).state)
  {
    AcceptedSteps(c, now, s, h, ds);
    var first := HearingReplays(c, now, s, h);
    ops := ReportedReplays(c, now, s, first, Hear(s, h, now), h, ds);
  }

  lemma ReportedReplays(c: Config, now: Time, s: State, first: seq<Op>, r: State, h: Report, ds: seq<Draw>) returns (ops: seq<Op>)
    requires Inv(c, r) && |ds| == |h.results| && FreshDraws(c, now, r, h.worker, h.results, ds) && Replay(c, now, s, first) == Some(r) && h.worker in r.workers
    requires ApplyResults(c, now, r, h.worker, h.results, ds).Some?
    requires |h.rooms| <= r.workers[h.worker].maxRooms && forall i | 0 <= i < |h.rooms| :: |h.rooms[i].users| <= 2
    ensures h.worker in ApplyResults(c, now, r, h.worker, h.results, ds).value.workers
    ensures Replay(c, now, s, ops) == Some(ApplyRooms(c, now, ApplyResults(c, now, r, h.worker, h.results, ds).value, h.worker, h.rooms))
  {
    var more := ResultsReplay(c, now, r, h.worker, h.results, ds);
    var t := ApplyResults(c, now, r, h.worker, h.results, ds).value;
    ReplayKeeps(c, now, r, more, t);
    var last := RoomsReplay(c, now, t, h.worker, h.rooms);
    var both := Chain(c, now, s, first, r, more, t);
    ops := Chain(c, now, s, both, t, last, ApplyRooms(c, now, t, h.worker, h.rooms));
  }

  /** Room reports change nothing about workers but one player count. */
  ghost predicate CountOnly(s: State, t: State, wid: Id) {
    && wid in s.workers && wid in t.workers
    && t.workers == s.workers[wid := s.workers[wid].(playerCount := t.workers[wid].playerCount)]
    && t == s.(workers := t.workers, allocations := t.allocations)
  }

  lemma ReportCountsOnly(c: Config, now: Time, s: State, m: State, wid: Id, r: RoomReport)
    requires CountOnly(s, m, wid)
    ensures CountOnly(s, ReportRoom(c, now, m, wid, r), wid)
  {
  }

  lemma {:induction false} RoomsCountOnly(c: Config, now: Time, s: State, wid: Id, rs: seq<RoomReport>)
    requires wid in s.workers
    ensures CountOnly(s, ApplyRooms(c, now, s, wid, rs), wid)
  {
    if rs != [] {
      var n := |rs| - 1;
      RoomsCountOnly(c, now, s, wid, rs[..n]);
      ReportCountsOnly(c, now, s, ApplyRooms(c, now, s, wid, rs[..n]), wid, rs[n]);
    }
  }

  /** A committed report changes only its own worker, and leaves it where it was or running. */
  lemma HeartbeatOnly(c: Config, now: Time, s: State, h: Report, ds: seq<Draw>)
    requires Inv(c, s) && |ds| == |h.results| && Accepts(s, h) && ReportDraws(c, now, s, h, ds) && Heartbeat(c, now, s, h, ds).Committed?
    ensures var t := Heartbeat(c, now, s, h, ds).state;
            && t == s.(workers := t.workers, allocations := t.allocations, commands := t.commands, issued := t.issued)
            && h.worker in t.workers && t.workers == s.workers[h.worker := t.workers[h.worker]]
            && t.workers[h.worker].lastSequence == h.sequence
            && t.workers[h.worker].providerId == s.workers[h.worker].providerId
            && t.workers[h.worker].state == Heard(s.workers[h.worker], h, now).state
            && t.workers[h.worker] == Heard(s.workers[h.worker], h, now).(drainAck := t.workers[h.worker].drainAck, playerCount := t.workers[h.worker].playerCount)
  {
    AcceptedSteps(c, now, s, h, ds);
    var first := HearingReplays(c, now, s, h);
    var r := Hear(s, h, now);
    var more := ResultsReplay(c, now, r, h.worker, h.results, ds);
    var m := ApplyResults(c, now, r, h.worker, h.results, ds).value;
    RoomsCountOnly(c, now, m, h.worker, h.rooms);
    OnlyChain(s, r, m, ApplyRooms(c, now, m, h.worker, h.rooms), h, now);
  }

  lemma OnlyChain(s: State, r: State, m: State, t: State, h: Report, now: Time)
    requires h.worker in s.workers && r == Hear(s, h, now) && ResultOnly(r, m, h.worker) && CountOnly(m, t, h.worker)
    ensures t == s.(workers := t.workers, allocations := t.allocations, commands := t.commands, issued := t.issued)
    ensures t.workers == s.workers[h.worker := t.workers[h.worker]]
    ensures t.workers[h.worker].lastSequence == h.sequence && t.workers[h.worker].providerId == s.workers[h.worker].providerId
    ensures t.workers[h.worker].state == Heard(s.workers[h.worker], h, now).state
    ensures t.workers[h.worker] == Heard(s.workers[h.worker], h, now).(drainAck := t.workers[h.worker].drainAck, playerCount := t.workers[h.worker].playerCount)
  {
  }
}
