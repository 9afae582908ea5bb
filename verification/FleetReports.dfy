/** The loops of the heartbeat transaction, each proved to compute the function that
    `FleetHeartbeat` states, for maps visited in any order. */
module FleetReports {
  import opened Basics
  import opened FleetState
  import opened FleetOps
  import opened FleetInvariant
  import opened FleetPreserve
  import opened FleetHeartbeat
  import opened FleetProtocol
  import opened FleetTick
  import FleetTickWhole

  // ---- Checking the reported rooms ------------------------------------------------------

  method UsersFit(users: seq<string>, roster: seq<string>) returns (ok: bool)
    ensures ok <==> Distinct(users) && forall u | u in users :: u in roster
  {
    for i := 0 to |users|
      invariant Distinct(users[..i]) && forall j | 0 <= j < i :: users[j] in roster
    {
      if users[i] !in roster || users[i] in users[..i] {
        return false;
      }
    }
    assert users[..|users|] == users;
    return true;
  }

  method FindRoom(rooms: Allocations, wid: Id, room: Id) returns (found: Option<Id>)
    ensures found.Some? ==> found.value in rooms && RoomOf(rooms[found.value], wid, room)
    ensures found.None? ==> forall a | a in rooms :: !RoomOf(rooms[a], wid, room)
  {
    var todo := rooms.Keys;
    while todo != {}
      invariant todo <= rooms.Keys && forall a | a in rooms && a !in todo :: !RoomOf(rooms[a], wid, room)
    {
      var a :| a in todo;
      todo := todo - {a};
      if RoomOf(rooms[a], wid, room) {
        return Some(a);
      }
    }
    return None;
  }

  method CheckRoom(rooms: Allocations, wid: Id, r: RoomReport) returns (ok: bool)
    requires KeysUnique(rooms)
    ensures ok == RoomValid(rooms, wid, r)
  {
    if |r.users| > 2 {
      return false;
    }
    var found := FindRoom(rooms, wid, r.room);
    if found.None? || !ValidRoomPhase(r.phase) {
      return false;
    }
    ok := UsersFit(r.users, rooms[found.value].users);
    assert ok ==> RoomAccepted(rooms[found.value], wid, r);
  }

  method CheckRooms(rooms: Allocations, wid: Id, rs: seq<RoomReport>) returns (ok: bool)
    requires KeysUnique(rooms)
    ensures ok == RoomsValid(rooms, wid, rs)
  {
    var seen: set<Id> := {};
    for i := 0 to |rs|
      invariant RoomsValid(rooms, wid, rs[..i])
      invariant seen == set j | 0 <= j < i :: rs[j].room
    {
      var fits := CheckRoom(rooms, wid, rs[i]);
      if rs[i].room in seen || !fits {
        return false;
      }
      seen := seen + {rs[i].room};
    }
    assert rs[..|rs|] == rs;
    return true;
  }

  // ---- Command results --------------------------------------------------------------------

  method HandleSuccess(c: Config, now: Time, s: State, wid: Id, cid: Id) returns (t: State, ghost d: Draw)
    requires wid in s.workers && cid in s.commands && (forall a | a in s.allocations :: |s.allocations[a].users| == 2)
    ensures d.command !in s.issued && t == Succeed(c, now, s, wid, cid, d)
  {
    var k := s.commands[cid];
    t := Settle(s, cid);
    var id := NewId(s.issued);
    var r0 := NewId(s.issued + {id});
    var r1 := NewId(s.issued + {id, r0});
    d := Draw(id, r0, r1);
    if k.kind.Drain? {
      t := t.(workers := t.workers[wid := t.workers[wid].(drainAck := true)]);
    }
    if k.allocation.Some? && k.allocation.value in t.allocations && t.allocations[k.allocation.value].epoch == k.epoch {
      var aid := k.allocation.value;
      var a := t.allocations[aid];
      if k.kind.PrepareRoom? && a.state.Preparing? {
        if k.expiresAt <= now || t.workers[wid].draining {
          ghost var drawn;
          t, drawn := CancelInPlace(c, t, aid, "prepare_expired", now);
          d := Draw(drawn, r0, r1);
        } else {
          var b := a.(state := Prepared, revision := a.revision + 1);
          if Eligible(c, t.workers[wid], now) {
            b := Reserve(c, b, now, r0, r1);
          }
          t := t.(allocations := t.allocations[aid := b]);
        }
      }
      if k.kind.CancelRoom? && a.state.Cancelling? {
        t := t.(allocations := t.allocations[aid := Finish(a, EndPhase(a.error), a.error, now)]);
      }
    }
  }

  method HandleFailure(c: Config, now: Time, s: State, cid: Id) returns (t: State, ghost d: Draw)
    requires cid in s.commands
    ensures d.command !in s.issued && t == Fail(c, now, s, cid, d)
  {
    var k := s.commands[cid];
    t := Settle(s, cid);
    var id := NewId(s.issued);
    d := Draw(id, 0, 0);
    if k.kind.PrepareRoom? {
      if CommandsRoom(t, k, Preparing) {
        ghost var drawn;
        t, drawn := CancelInPlace(c, t, k.allocation.value, "room_prepare_failed", now);
        d := Draw(drawn, 0, 0);
      }
    } else {
      t := t.(commands := t.commands[id := RetryOf(k, now)], issued := t.issued + {id});
    }
  }

  method HandleResult(c: Config, now: Time, s: State, wid: Id, r: CommandResult) returns (t: Option<State>, ghost d: Draw)
    requires wid in s.workers && (forall a | a in s.allocations :: |s.allocations[a].users| == 2)
    ensures d.command !in s.issued && t == ApplyResult(c, now, s, wid, r, d)
  {
    var id := NewId(s.issued);
    d := Draw(id, 0, 0);
    if r.command !in s.commands || s.commands[r.command].worker != wid {
      return None, d;
    }
    if s.commands[r.command].done {
      return Some(s), d;
    }
    var u;
    if r.success {
      u, d := HandleSuccess(c, now, s, wid, r.command);
    } else {
      u, d := HandleFailure(c, now, s, r.command);
    }
    t := Some(u);
  }

  lemma ResultKeeps(c: Config, now: Time, s: State, wid: Id, r: CommandResult, d: Draw)
    requires Inv(c, s) && d.command !in s.issued && ApplyResult(c, now, s, wid, r, d).Some?
    ensures Inv(c, ApplyResult(c, now, s, wid, r, d).value) && wid in ApplyResult(c, now, s, wid, r, d).value.workers
  {
    var ops := ResultReplays(c, now, s, wid, r, d);
    ReplayKeeps(c, now, s, ops, ApplyResult(c, now, s, wid, r, d).value);
    ResultOnlyHolds(c, now, s, wid, r, d);
  }

  /** The results of the first i reports, and the draws they used. */
  ghost predicate ResultsSoFar(c: Config, now: Time, s: State, wid: Id, rs: seq<CommandResult>, ds: seq<Draw>, t: Option<State>) {
    |ds| == |rs| && FreshDraws(c, now, s, wid, rs, ds) && ApplyResults(c, now, s, wid, rs, ds) == t
  }

  lemma ResultsStep(c: Config, now: Time, s: State, wid: Id, rs: seq<CommandResult>, i: nat, ds: seq<Draw>, m: State, d: Draw)
    requires i < |rs| && ResultsSoFar(c, now, s, wid, rs[..i], ds, Some(m)) && d.command !in m.issued
    ensures ResultsSoFar(c, now, s, wid, rs[..i + 1], ds + [d], ApplyResult(c, now, m, wid, rs[i], d))
  {
    var q, e := rs[..i + 1], ds + [d];
    assert q[..|q| - 1] == rs[..i] && e[..|e| - 1] == ds && q[|q| - 1] == rs[i] && e[|e| - 1] == d;
  }

  /** Once a result is refused, so is the whole report. */
  lemma {:induction false} RefusalStays(c: Config, now: Time, s: State, wid: Id, rs: seq<CommandResult>, i: nat, ds: seq<Draw>) returns (es: seq<Draw>)
    requires i <= |rs| && ResultsSoFar(c, now, s, wid, rs[..i], ds, None)
    ensures ResultsSoFar(c, now, s, wid, rs, es, None)
    decreases |rs| - i
  {
    if i == |rs| {
      es := ds;
      assert rs[..i] == rs;
    } else {
      var q, e := rs[..i + 1], ds + [Draw(0, 0, 0)];
      assert q[..|q| - 1] == rs[..i] && e[..|e| - 1] == ds;
      es := RefusalStays(c, now, s, wid, rs, i + 1, e);
    }
  }

  method HandleResults(c: Config, now: Time, s: State, wid: Id, rs: seq<CommandResult>) returns (t: Option<State>, ghost ds: seq<Draw>)
    requires Inv(c, s) && wid in s.workers
    ensures ResultsSoFar(c, now, s, wid, rs, ds, t) && (t.Some? ==> wid in t.value.workers)
  {
    var m := s;
    ds := [];
    for i := 0 to |rs|
      invariant Inv(c, m) && wid in m.workers && ResultsSoFar(c, now, s, wid, rs[..i], ds, Some(m))
    {
      FleetTickWhole.RostersArePairs(c, m);
      var u, d := HandleResult(c, now, m, wid, rs[i]);
      ResultsStep(c, now, s, wid, rs, i, ds, m, d);
      ds := ds + [d];
      if u.None? {
        ds := RefusalStays(c, now, s, wid, rs, i + 1, ds);
        return None, ds;
      }
      ResultKeeps(c, now, m, wid, rs[i], d);
      m := u.value;
    }
    assert rs[..|rs|] == rs;
    t := Some(m);
  }

  // ---- Reported rooms ---------------------------------------------------------------------

  method SeatLoop(c: Config, xs: seq<Session>, users: seq<string>, now: Time) returns (ys: seq<Session>)
    ensures ys == SeatsReported(c, xs, users, now)
  {
    ys := xs;
    for i := 0 to |xs|
      invariant |ys| == |xs| && forall j | 0 <= j < |xs| :: ys[j] == if j < i then SeatReported(c, xs[j], users, now) else xs[j]
    {
      var x := xs[i];
      var connected := x.user in users;
      if connected {
        x := x.(everConnected := true, reconnectUntil := 0);
      } else if x.connected && x.reconnectUntil == 0 {
        x := x.(reconnectUntil := now + c.reconnectSeconds);
      }
      ys := ys[i := x.(connected := connected)];
    }
  }

  method HandleRoomOf(c: Config, a: Allocation, r: RoomReport, now: Time) returns (b: Allocation)
    ensures b == RoomReported(c, a, r, now)
  {
    b := a;
    if r.phase == "closed" {
      if a.state.Active? || a.state.Assigned? {
        b := Finish(a, Completed, "", now);
      }
      return;
    }
    if a.state.Assigned? || a.state.Active? {
      var ys := SeatLoop(c, a.sessions, r.users, now);
      b := b.(sessions := ys);
      if r.phase == "playing" && |r.users| == |a.users| && a.state.Assigned? {
        b := b.(state := Active, revision := b.revision + 1);
      }
    }
  }

  method HandleRoom(c: Config, now: Time, s: State, wid: Id, r: RoomReport) returns (t: State)
    requires KeysUnique(s.allocations) && wid in s.workers
    ensures t == ReportRoom(c, now, s, wid, r)
  {
    var rooms, players := VisitRooms(c, now, s.allocations, wid, r);
    var w := s.workers[wid];
    t := s.(allocations := rooms, workers := s.workers[wid := w.(playerCount := w.playerCount + players)]);
  }

  /** At most one allocation has the reported room, so its players are counted once. */
  method VisitRooms(c: Config, now: Time, before: Allocations, wid: Id, r: RoomReport) returns (rooms: Allocations, players: nat)
    requires KeysUnique(before)
    ensures rooms == RoomsReported(c, before, wid, r, now)
    ensures players == if Counts(before, wid, r) then |r.users| else 0
  {
    rooms, players := before, 0;
    var todo := rooms.Keys;
    ghost var seen := false;
    while todo != {}
      invariant todo <= rooms.Keys == before.Keys
      invariant forall a | a in rooms :: rooms[a] == if a in todo then before[a] else RoomsReported(c, before, wid, r, now)[a]
      invariant seen <==> exists a :: a !in todo && Reports(before, wid, r, a)
      invariant players == if r.phase != "closed" && seen then |r.users| else 0
    {
      var a :| a in todo;
      if RoomOf(rooms[a], wid, r.room) && !Terminal(rooms[a].state) {
        assert Reports(before, wid, r, a) && forall b | Reports(before, wid, r, b) :: b == a;
        var b := HandleRoomOf(c, rooms[a], r, now);
        rooms := rooms[a := b];
        seen := true;
        if r.phase != "closed" {
          players := players + |r.users|;
        }
      }
      todo := todo - {a};
    }
    assert rooms == RoomsReported(c, before, wid, r, now);
  }

  lemma ReportKeepsKeys(c: Config, now: Time, s: State, wid: Id, r: RoomReport)
    requires KeysUnique(s.allocations) && wid in s.workers
    ensures KeysUnique(ReportRoom(c, now, s, wid, r).allocations)
  {
  }

  method HandleRooms(c: Config, now: Time, s: State, wid: Id, rs: seq<RoomReport>) returns (t: State)
    requires KeysUnique(s.allocations) && wid in s.workers
    ensures t == ApplyRooms(c, now, s, wid, rs)
  {
    t := CountFromZero(s, wid);
    for i := 0 to |rs|
      invariant t == ApplyRooms(c, now, s, wid, rs[..i]) && wid in t.workers && KeysUnique(t.allocations)
    {
      ReportKeepsKeys(c, now, t, wid, rs[i]);
      t := HandleRoom(c, now, t, wid, rs[i]);
      assert rs[..i + 1][..i] == rs[..i];
    }
    assert rs[..|rs|] == rs;
  }

  // ---- The answer ---------------------------------------------------------------------------

  predicate DueCommand(cs: Commands, wid: Id, now: Time, k: Id) {
    Undone(cs, k) && cs[k].worker == wid && cs[k].notBefore <= now
  }

  predicate Ascending(ids: seq<Id>) {
    forall i, j | 0 <= i < j < |ids| :: ids[i] < ids[j]
  }

  /** The least due commands in order, at most 64 of them; nothing is left out below that. */
  ghost predicate Answers(cs: Commands, wid: Id, now: Time, ids: seq<Id>) {
    && |ids| <= 64 && Ascending(ids) && (forall k | k in ids :: DueCommand(cs, wid, now, k))
    && (forall k | DueCommand(cs, wid, now, k) && k !in ids :: |ids| == 64 && forall x | x in ids :: x < k)
  }

  method LeastOf(ids: set<Id>) returns (least: Id)
    requires ids != {}
    ensures least in ids && forall x | x in ids :: least <= x
  {
    least :| least in ids;
    var todo := ids - {least};
    while todo != {}
      invariant todo <= ids && least in ids && forall x | x in ids && x !in todo :: least <= x
    {
      var x :| x in todo;
      todo := todo - {x};
      if x < least {
        least := x;
      }
    }
  }

  method Answer(cs: Commands, wid: Id, now: Time) returns (ids: seq<Id>)
    ensures Answers(cs, wid, now, ids)
  {
    var due := set k | k in cs && DueCommand(cs, wid, now, k);
    ids := [];
    while due != {} && |ids| < 64
      invariant |ids| <= 64 && Ascending(ids)
      invariant forall k | k in ids :: DueCommand(cs, wid, now, k)
      invariant forall k :: DueCommand(cs, wid, now, k) <==> k in due || k in ids
      invariant forall i, k | 0 <= i < |ids| && k in due :: ids[i] < k
    {
      var k := LeastOf(due);
      due := due - {k};
      ids := ids + [k];
    }
  }

  // ---- The whole transaction ----------------------------------------------------------------

  /** The heartbeat transaction computes `Heartbeat`, for some fresh draws. */
  method HeartbeatBody(c: Config, now: Time, s: State, h: Report) returns (out: Outcome, ids: seq<Id>, ghost ds: seq<Draw>)
    requires Inv(c, s)
    ensures |ds| == |h.results| && out == Heartbeat(c, now, s, h, ds)
    ensures out.Committed? ==> ReportDraws(c, now, s, h, ds) && Answers(out.state.commands, h.worker, now, ids)
  {
    ids := [];
    ds := seq(|h.results|, _ => Draw(0, 0, 0));
    if h.sequence == 0 || |h.rooms| > 512 || |h.results| > 256 || !ValidMetrics(h.metrics) {
      return Refused(Invalid), ids, ds;
    }
    if h.worker !in s.workers {
      return Refused(NotFound), ids, ds;
    }
    var w := s.workers[h.worker];
    if |h.rooms| > w.maxRooms {
      return Refused(Forbidden), ids, ds;
    }
    if w.bootId != h.bootId || w.state.Stopped? || w.state.Lost? || w.state.Failed? {
      return Refused(Forbidden), ids, ds;
    }
    var t := s;
    if h.sequence > w.lastSequence {
      out, ds := Accept(c, now, s, h);
      if out.Refused? {
        return;
      }
      t := out.state;
    }
    ids := Answer(t.commands, h.worker, now);
    out := Committed(t);
  }

  method Accept(c: Config, now: Time, s: State, h: Report) returns (out: Outcome, ghost ds: seq<Draw>)
    requires Inv(c, s) && Accepts(s, h)
    ensures |ds| == |h.results| && out == Heartbeat(c, now, s, h, ds)
    ensures out.Committed? ==> ReportDraws(c, now, s, h, ds)
  {
    ds := seq(|h.results|, _ => Draw(0, 0, 0));
    var ok := CheckRooms(s.allocations, h.worker, h.rooms);
    if !ok {
      return Refused(Forbidden), ds;
    }
    var r := Hear(s, h, now);
    var first := HearingReplays(c, now, s, h);
    var t: Option<State>;
    t, ds := HandleResults(c, now, r, h.worker, h.results);
    if t.None? {
      return Refused(Forbidden), ds;
    }
    var more := ResultsReplay(c, now, r, h.worker, h.results, ds);
    ReplayKeeps(c, now, r, more, t.value);
    var u := HandleRooms(c, now, t.value, h.worker, h.rooms);
    out := Committed(u);
  }

  /** Other managers see a heartbeat as a client transaction. */
  lemma HeartbeatIsQuiet(c: Config, now: Time, s: State, h: Report, ds: seq<Draw>)
    requires Inv(c, s) && |ds| == |h.results| && ReportDraws(c, now, s, h, ds) && Heartbeat(c, now, s, h, ds).Committed?
    ensures Quiet(s, Heartbeat(c, now, s, h, ds).state)
  {
    if Accepts(s, h) {
      HeartbeatOnly(c, now, s, h, ds);
      assert WorkerWell(s.workers[h.worker]);
    }
  }
}
