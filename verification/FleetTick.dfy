/** The transaction at the head of `Tick`: each pass as the loop the manager runs, over maps
    in any order, with the exact state it leaves and the elementary changes it is made of. */
module FleetTick {
  import opened Basics
  import opened FleetState
  import opened FleetOps
  import opened FleetInvariant
  import opened FleetPreserve
  import opened FleetPlacement

  /** A random identifier never drawn before. */
  method NewId(used: set<Id>) returns (id: Id)
    ensures id !in used
  {
    FreshExists(used);
    id :| id !in used;
  }

  // ---- In-place helpers ----------------------------------------------------------------

  method CloseInPlace(s: State, wid: Id, phase: WorkerState, reason: string, now: Time) returns (t: State)
    requires wid in s.workers
    ensures t == CloseWorker(s, wid, phase, reason, now)
  {
    var w := s.workers[wid].(state := phase, ready := false, providerReady := false, updatedAt := now);
    var rooms, cs := s.allocations, s.commands;
    var todo := rooms.Keys;
    while todo != {}
      invariant todo <= rooms.Keys == s.allocations.Keys
      invariant forall a | a in rooms :: rooms[a] == if a in todo then s.allocations[a] else FinishHosted(s.allocations, wid, reason, now)[a]
    {
      var a :| a in todo;
      if rooms[a].worker == Some(wid) && !Terminal(rooms[a].state) {
        rooms := rooms[a := Finish(rooms[a], AllocationState.Failed, reason, now)];
      }
      todo := todo - {a};
    }
    assert rooms == FinishHosted(s.allocations, wid, reason, now);
    todo := cs.Keys;
    while todo != {}
      invariant todo <= cs.Keys == s.commands.Keys
      invariant forall k | k in cs :: cs[k] == if k in todo then s.commands[k] else CloseCommands(s.commands, wid)[k]
    {
      var k :| k in todo;
      if cs[k].worker == wid {
        cs := cs[k := cs[k].(done := true)];
      }
      todo := todo - {k};
    }
    assert cs == CloseCommands(s.commands, wid);
    t := s.(workers := s.workers[wid := w], allocations := rooms, commands := cs);
  }

  method CancelInPlace(c: Config, s: State, aid: Id, reason: string, now: Time) returns (t: State, ghost cid: Id)
    requires aid in s.allocations
    ensures cid !in s.issued && t == Cancel(c, s, aid, reason, now, cid)
  {
    var a := s.allocations[aid];
    var id := NewId(s.issued);
    cid := id;
    t := s;
    if Terminal(a.state) || a.state.Cancelling? {
      return;
    }
    if a.worker.None? {
      t := t.(allocations := t.allocations[aid := Finish(a, EndPhase(reason), reason, now)]);
      return;
    }
    t := t.(allocations := t.allocations[aid := a.(state := Cancelling, error := reason, revision := a.revision + 1)]);
    var cs := s.commands;
    var todo := cs.Keys;
    while todo != {}
      invariant todo <= cs.Keys == s.commands.Keys
      invariant forall k | k in cs :: cs[k] == if k in todo then s.commands[k] else WithdrawPrepares(s.commands, aid)[k]
    {
      var k :| k in todo;
      if cs[k].allocation == Some(aid) && cs[k].kind.PrepareRoom? {
        cs := cs[k := cs[k].(done := true)];
      }
      todo := todo - {k};
    }
    assert cs == WithdrawPrepares(s.commands, aid);
    cs := cs[id := CancelCommand(c, a, aid, a.worker.value, now)];
    t := t.(commands := cs, issued := s.issued + {id});
  }

  // ---- Workers: lifetime, interrupted starts, missed heartbeats ------------------------

  predicate Expiring(c: Config, w: Worker, now: Time) {
    w.providerExpiresAt > 0 && w.providerExpiresAt - now <= c.minLifetime
  }

  predicate Unheard(c: Config, w: Worker, now: Time) {
    w.lastHeartbeat > 0 && now - w.lastHeartbeat > c.lostTimeout
  }

  predicate LostNow(c: Config, w: Worker, now: Time) {
    Unheard(c, w, now) && !w.state.Stopped? && !w.state.Failed? && !w.state.Lost?
  }

  /** What a worker may look like right after the pass. */
  predicate WorkerFresh(c: Config, w: Worker, now: Time) {
    && (w.state.Starting? ==> now - w.updatedAt <= 15)
    && (w.state.Ready? ==> now - w.lastHeartbeat <= c.heartbeatTimeout && !Expiring(c, w, now))
    && (Unheard(c, w, now) ==> w.state.Stopped? || w.state.Failed? || w.state.Lost?)
  }

  /** What the pass did to one worker, and why. */
  predicate TickedFacts(c: Config, v: Worker, w: Worker, now: Time) {
    && WorkerFresh(c, w, now)
    && (w.state == v.state ==> w == v)
    && (w.draining && !v.draining ==> v.state.Ready? && Expiring(c, v, now))
    && (w.state.Lost? && !v.state.Lost? ==> Unheard(c, v, now))
    && (w.state.Draining? && !v.state.Draining? ==> v.state.Ready? && Expiring(c, v, now))
    && (w.state.Suspect? && !v.state.Suspect? ==> v.state.Ready? && now - v.lastHeartbeat > c.heartbeatTimeout)
    && (w.state.Unknown? && !v.state.Unknown? ==> v.state.Starting? && now - v.updatedAt > 15)
    && (w.state != v.state ==> w.state.Lost? || w.state.Draining? || w.state.Suspect? || w.state.Unknown?)
    && w == v.(state := w.state, draining := w.draining, updatedAt := w.updatedAt, ready := w.ready, providerReady := w.providerReady)
  }

  ghost predicate OnlyRoomsAndWorkers(s: State, t: State) {
    t == s.(workers := t.workers, allocations := t.allocations, commands := t.commands, issued := t.issued)
  }

  /** The first three rules of the pass; at most one of them applies. */
  function Demoted(c: Config, v: Worker, now: Time): Worker {
    if v.state.Ready? && Expiring(c, v, now) then v.(draining := true, state := Draining, updatedAt := now)
    else if v.state.Starting? && now - v.updatedAt > 15 then v.(state := Unknown)
    else if v.state.Ready? && now - v.lastHeartbeat > c.heartbeatTimeout then v.(state := Suspect)
    else v
  }

  method DemoteWorker(c: Config, s: State, wid: Id, now: Time) returns (t: State, ghost ops: seq<Op>)
    requires wid in s.workers && WorkerWell(s.workers[wid])
    ensures Replay(c, now, s, ops) == Some(t) && OnlyRoomsAndWorkers(s, t)
    ensures t.workers == s.workers[wid := Demoted(c, s.workers[wid], now)] && t.allocations == s.allocations
  {
    t, ops := s, [];
    if t.workers[wid].state.Ready? && Expiring(c, t.workers[wid], now) {
      var cid := NewId(t.issued);
      ReplayOne(c, now, s, ops, t, DrainWorker(wid, cid));
      ops := ops + [DrainWorker(wid, cid)];
      t := BeginDrain(t, wid, now, cid);
    }
    if t.workers[wid].state.Starting? && now - t.workers[wid].updatedAt > 15 {
      t, ops := EditOne(c, now, s, ops, t, wid, t.workers[wid].(state := Unknown));
    }
    if t.workers[wid].state.Ready? && now - t.workers[wid].lastHeartbeat > c.heartbeatTimeout {
      t, ops := EditOne(c, now, s, ops, t, wid, t.workers[wid].(state := Suspect));
    }
  }

  method TickWorker(c: Config, s: State, wid: Id, now: Time) returns (t: State, ghost ops: seq<Op>)
    requires wid in s.workers && WorkerWell(s.workers[wid])
    ensures Replay(c, now, s, ops) == Some(t) && OnlyRoomsAndWorkers(s, t)
    ensures t.workers.Keys == s.workers.Keys && t.workers == s.workers[wid := t.workers[wid]]
    ensures WorkerTicked(c, s.workers[wid], t.workers[wid], now)
    ensures t.allocations == if LostNow(c, s.workers[wid], now) then FinishHosted(s.allocations, wid, "server_lost", now) else s.allocations
  {
    var m, before := DemoteWorker(c, s, wid, now);
    DemotedIsLostToo(c, s.workers[wid], now);
    t, ops := m, before;
    if LostNow(c, m.workers[wid], now) {
      ReplayOne(c, now, s, before, m, Close(wid, false));
      ops := before + [Close(wid, false)];
      t := CloseInPlace(m, wid, Lost, "server_lost", now);
      assert t.workers == s.workers[wid := t.workers[wid]];
    }
  }

  function LostForm(v: Worker, now: Time): Worker {
    v.(state := Lost, ready := false, providerReady := false, updatedAt := now)
  }

  function TickedForm(c: Config, v: Worker, now: Time): Worker {
    if LostNow(c, v, now) then LostForm(Demoted(c, v, now), now) else Demoted(c, v, now)
  }

  predicate WorkerTicked(c: Config, v: Worker, w: Worker, now: Time) {
    w == TickedForm(c, v, now)
  }

  lemma TickedFactsHold(c: Config, v: Worker, now: Time)
    requires WorkerWell(v)
    ensures TickedFacts(c, v, TickedForm(c, v, now), now)
  {
  }

  lemma DemotedIsLostToo(c: Config, v: Worker, now: Time)
    ensures LostNow(c, Demoted(c, v, now), now) == LostNow(c, v, now)
  {
  }

  method EditOne(c: Config, now: Time, ghost s: State, ghost ops: seq<Op>, t: State, wid: Id, w: Worker) returns (u: State, ghost more: seq<Op>)
    requires Replay(c, now, s, ops) == Some(t) && WorkerEdit(t, wid, w)
    ensures u == t.(workers := t.workers[wid := w]) && Replay(c, now, s, more) == Some(u)
  {
    u := t.(workers := t.workers[wid := w]);
    ReplayOne(c, now, s, ops, t, EditWorker(wid, w));
    more := ops + [EditWorker(wid, w)];
  }

  /** The rooms of the workers in `gone` have failed, and no other room was touched. */
  predicate RoomsLost(rooms: Allocations, after: Allocations, gone: set<Id>, now: Time) {
    && after.Keys == rooms.Keys
    && forall a | a in rooms ::
         after[a] == if rooms[a].worker.Some? && rooms[a].worker.value in gone && !Terminal(rooms[a].state)
                     then Finish(rooms[a], AllocationState.Failed, "server_lost", now)
                     else rooms[a]
  }

  function LostWorkers(c: Config, workers: Workers, now: Time): set<Id> {
    set w | w in workers && LostNow(c, workers[w], now)
  }

  method TickWorkers(c: Config, s: State, now: Time) returns (t: State, ghost ops: seq<Op>)
    requires WorkersWell(s.workers)
    ensures Replay(c, now, s, ops) == Some(t) && OnlyRoomsAndWorkers(s, t)
    ensures t.workers.Keys == s.workers.Keys
    ensures forall w | w in s.workers :: WorkerTicked(c, s.workers[w], t.workers[w], now)
    ensures RoomsLost(s.allocations, t.allocations, LostWorkers(c, s.workers, now), now)
  {
    t, ops := s, [];
    var todo := s.workers.Keys;
    while todo != {}
      invariant todo <= s.workers.Keys == t.workers.Keys
      invariant Replay(c, now, s, ops) == Some(t) && OnlyRoomsAndWorkers(s, t)
      invariant forall w | w in todo :: t.workers[w] == s.workers[w]
      invariant forall w | w in s.workers && w !in todo :: WorkerTicked(c, s.workers[w], t.workers[w], now)
      invariant RoomsLost(s.allocations, t.allocations, LostWorkers(c, s.workers, now) - todo, now)
    {
      var wid :| wid in todo;
      assert WorkerWell(s.workers[wid]);
      t, ops := TickWorkersStep(c, now, s, ops, t, wid, LostWorkers(c, s.workers, now) - todo);
      OneLessToDo(LostWorkers(c, s.workers, now), todo, wid);
      todo := todo - {wid};
    }
  }

  lemma OneLessToDo(lost: set<Id>, todo: set<Id>, wid: Id)
    requires wid in todo
    ensures lost - (todo - {wid}) == if wid in lost then (lost - todo) + {wid} else lost - todo
  {
  }

  method TickWorkersStep(c: Config, now: Time, ghost s: State, ghost ops: seq<Op>, t: State, wid: Id, ghost gone: set<Id>) returns (u: State, ghost more: seq<Op>)
    requires Replay(c, now, s, ops) == Some(t) && wid in t.workers && WorkerWell(t.workers[wid])
    requires RoomsLost(s.allocations, t.allocations, gone, now) && wid !in gone
    ensures Replay(c, now, s, more) == Some(u) && OnlyRoomsAndWorkers(t, u)
    ensures u.workers.Keys == t.workers.Keys && u.workers == t.workers[wid := u.workers[wid]] && WorkerTicked(c, t.workers[wid], u.workers[wid], now)
    ensures RoomsLost(s.allocations, u.allocations, if LostNow(c, t.workers[wid], now) then gone + {wid} else gone, now)
  {
    ghost var last;
    u, last := TickWorker(c, t, wid, now);
    more := Chain(c, now, s, ops, t, last, u);
    RoomsLostOneMore(s.allocations, t.allocations, u.allocations, gone, wid, now, LostNow(c, t.workers[wid], now));
  }

  lemma RoomsLostOneMore(rooms: Allocations, mid: Allocations, after: Allocations, gone: set<Id>, wid: Id, now: Time, isLost: bool)
    requires RoomsLost(rooms, mid, gone, now) && wid !in gone
    requires after == if isLost then FinishHosted(mid, wid, "server_lost", now) else mid
    ensures RoomsLost(rooms, after, if isLost then gone + {wid} else gone, now)
  {
  }

  // ---- Allocations: failed servers, reconnect and allocation deadlines -----------------

  predicate ReconnectElapsed(sessions: seq<Session>, now: Time) {
    exists i | 0 <= i < |sessions| :: 0 < sessions[i].reconnectUntil <= now
  }

  predicate DeadServer(workers: Workers, a: Allocation) {
    && a.preferred.Some? && a.preferred.value in workers
    && var p := workers[a.preferred.value].state; p.Failed? || p.Lost? || p.Stopped?
  }

  /** Why the pass cancels an allocation, if it does. */
  function CancelReason(workers: Workers, a: Allocation, now: Time): Option<string> {
    if Terminal(a.state) || a.state.Cancelling? then None
    else if DeadServer(workers, a) then Some("server_failed")
    else if a.state.Active? then (if ReconnectElapsed(a.sessions, now) then Some("reconnect_expired") else None)
    else if now >= a.expiresAt then Some("allocation_expired")
    else None
  }

  function Expire(workers: Workers, a: Allocation, now: Time): Allocation {
    match CancelReason(workers, a, now)
    case None => a
    case Some(reason) => CancelledForm(a, reason, now)
  }

  method ScanSessions(sessions: seq<Session>, now: Time) returns (elapsed: bool)
    ensures elapsed == ReconnectElapsed(sessions, now)
  {
    for i := 0 to |sessions|
      invariant forall j | 0 <= j < i :: !(0 < sessions[j].reconnectUntil <= now)
    {
      if 0 < sessions[i].reconnectUntil && sessions[i].reconnectUntil <= now {
        return true;
      }
    }
    return false;
  }

  method ReasonToCancel(workers: Workers, a: Allocation, now: Time) returns (reason: Option<string>)
    ensures reason == CancelReason(workers, a, now)
  {
    reason := None;
    if Terminal(a.state) || a.state.Cancelling? {
      return;
    }
    if DeadServer(workers, a) {
      reason := Some("server_failed");
    } else if a.state.Active? {
      var elapsed := ScanSessions(a.sessions, now);
      if elapsed {
        reason := Some("reconnect_expired");
      }
    } else if now >= a.expiresAt {
      reason := Some("allocation_expired");
    }
  }

  method CancelOne(c: Config, now: Time, ghost s: State, ghost ops: seq<Op>, t: State, aid: Id, reason: string) returns (u: State, ghost more: seq<Op>)
    requires Replay(c, now, s, ops) == Some(t) && aid in t.allocations
    requires !Terminal(t.allocations[aid].state) && !t.allocations[aid].state.Cancelling?
    ensures Replay(c, now, s, more) == Some(u) && OnlyRoomsAndWorkers(t, u) && u.workers == t.workers
    ensures u.allocations == t.allocations[aid := CancelledForm(t.allocations[aid], reason, now)]
  {
    ghost var cid;
    u, cid := CancelInPlace(c, t, aid, reason, now);
    ReplayOne(c, now, s, ops, t, CancelAllocation(aid, reason, cid));
    more := ops + [CancelAllocation(aid, reason, cid)];
  }

  method TickAllocations(c: Config, s: State, now: Time) returns (t: State, ghost ops: seq<Op>)
    ensures Replay(c, now, s, ops) == Some(t) && OnlyRoomsAndWorkers(s, t) && t.workers == s.workers
    ensures t.allocations == map a | a in s.allocations :: Expire(s.workers, s.allocations[a], now)
  {
    t, ops := s, [];
    var todo := s.allocations.Keys;
    while todo != {}
      invariant todo <= s.allocations.Keys == t.allocations.Keys
      invariant Replay(c, now, s, ops) == Some(t) && OnlyRoomsAndWorkers(s, t) && t.workers == s.workers
      invariant forall a | a in s.allocations :: t.allocations[a] == if a in todo then s.allocations[a] else Expire(s.workers, s.allocations[a], now)
    {
      var aid :| aid in todo;
      todo := todo - {aid};
      var reason := ReasonToCancel(t.workers, t.allocations[aid], now);
      if reason.Some? {
        t, ops := CancelOne(c, now, s, ops, t, aid, reason.value);
      }
    }
  }

  // ---- Bounded history -----------------------------------------------------------------

  predicate OldAllocation(a: Allocation, now: Time) {
    Terminal(a.state) && now - a.terminalAt > 86400
  }

  predicate OldCommand(k: Command, now: Time) {
    k.done && now - k.expiresAt > 3600
  }

  predicate OldWorker(s: State, wid: Id, now: Time) {
    && wid in s.workers && !Counted(s.workers[wid]) && now - s.workers[wid].updatedAt > 86400
    && forall a | a in s.allocations && !Terminal(s.allocations[a].state) ::
         s.allocations[a].worker != Some(wid) && s.allocations[a].preferred != Some(wid)
  }

  method PruneAllocations(c: Config, s: State, now: Time) returns (t: State, ghost ops: seq<Op>)
    ensures Replay(c, now, s, ops) == Some(t)
    ensures t == s.(allocations := map a | a in s.allocations && !OldAllocation(s.allocations[a], now) :: s.allocations[a])
  {
    t, ops := s, [];
    var todo := s.allocations.Keys;
    while todo != {}
      invariant todo <= t.allocations.Keys <= s.allocations.Keys
      invariant Replay(c, now, s, ops) == Some(t) && t == s.(allocations := t.allocations)
      invariant forall a | a in t.allocations :: t.allocations[a] == s.allocations[a]
      invariant forall a | a in s.allocations && a !in todo :: a in t.allocations <==> !OldAllocation(s.allocations[a], now)
    {
      var aid :| aid in todo;
      todo := todo - {aid};
      if OldAllocation(t.allocations[aid], now) {
        ReplayOne(c, now, s, ops, t, PruneAllocation(aid));
        ops := ops + [PruneAllocation(aid)];
        t := t.(allocations := t.allocations - {aid});
      }
    }
    assert t.allocations == map a | a in s.allocations && !OldAllocation(s.allocations[a], now) :: s.allocations[a];
  }

  method PruneCommands(c: Config, s: State, now: Time) returns (t: State, ghost ops: seq<Op>)
    ensures Replay(c, now, s, ops) == Some(t)
    ensures t == s.(commands := map k | k in s.commands && !OldCommand(s.commands[k], now) :: s.commands[k])
    ensures forall k | k in s.commands :: k in t.commands <==> !(s.commands[k].done && 3600 < now - s.commands[k].expiresAt)
  {
    t, ops := s, [];
    var todo := s.commands.Keys;
    while todo != {}
      invariant todo <= t.commands.Keys <= s.commands.Keys
      invariant Replay(c, now, s, ops) == Some(t) && t == s.(commands := t.commands)
      invariant forall k | k in t.commands :: t.commands[k] == s.commands[k]
      invariant forall k | k in s.commands && k !in todo :: k in t.commands <==> !OldCommand(s.commands[k], now)
    {
      var k :| k in todo;
      todo := todo - {k};
      if OldCommand(t.commands[k], now) {
        ReplayOne(c, now, s, ops, t, PruneCommand(k));
        ops := ops + [PruneCommand(k)];
        t := t.(commands := t.commands - {k});
      }
    }
    assert t.commands == map k | k in s.commands && !OldCommand(s.commands[k], now) :: s.commands[k];
  }

  method FindPending(rooms: Allocations, wid: Id) returns (pending: bool)
    ensures pending <==> exists a :: a in rooms && !Terminal(rooms[a].state) && (rooms[a].worker == Some(wid) || rooms[a].preferred == Some(wid))
  {
    pending := false;
    var todo := rooms.Keys;
    while todo != {}
      invariant todo <= rooms.Keys
      invariant pending <==> exists a :: a in rooms && a !in todo && !Terminal(rooms[a].state) && (rooms[a].worker == Some(wid) || rooms[a].preferred == Some(wid))
    {
      var a :| a in todo;
      todo := todo - {a};
      if (rooms[a].worker == Some(wid) || rooms[a].preferred == Some(wid)) && !Terminal(rooms[a].state) {
        pending := true;
      }
    }
  }

  method RemoveCommands(cs: Commands, wid: Id) returns (after: Commands)
    ensures after == OtherCommands(cs, wid)
  {
    after := cs;
    var todo := cs.Keys;
    while todo != {}
      invariant todo <= after.Keys <= cs.Keys
      invariant forall k | k in after :: after[k] == cs[k]
      invariant forall k | k in cs && k !in todo :: k in after <==> cs[k].worker != wid
    {
      var k :| k in todo;
      todo := todo - {k};
      if after[k].worker == wid {
        after := after - {k};
      }
    }
    assert after == OtherCommands(cs, wid);
  }

  method PruneWorkers(c: Config, s: State, now: Time) returns (t: State, ghost ops: seq<Op>)
    ensures Replay(c, now, s, ops) == Some(t)
    ensures t == s.(workers := t.workers, commands := t.commands)
    ensures t.workers == map w | w in s.workers && !OldWorker(s, w, now) :: s.workers[w]
  {
    t, ops := s, [];
    var todo := s.workers.Keys;
    while todo != {}
      invariant todo <= t.workers.Keys <= s.workers.Keys
      invariant Replay(c, now, s, ops) == Some(t) && t == s.(workers := t.workers, commands := t.commands)
      invariant forall w | w in t.workers :: t.workers[w] == s.workers[w]
      invariant forall w | w in s.workers && w !in todo :: w in t.workers <==> !OldWorker(s, w, now)
    {
      var wid :| wid in todo;
      todo := todo - {wid};
      var w := t.workers[wid];
      if !Counted(w) && now - w.updatedAt > 86400 {
        var pending := FindPending(t.allocations, wid);
        if !pending {
          ReplayOne(c, now, s, ops, t, PruneWorker(wid));
          ops := ops + [PruneWorker(wid)];
          var cs := RemoveCommands(t.commands, wid);
          t := t.(workers := t.workers - {wid}, commands := cs);
        }
      }
    }
    assert t.workers == map w | w in s.workers && !OldWorker(s, w, now) :: s.workers[w];
  }

  // ---- Seats for prepared rooms --------------------------------------------------------

  predicate SeatsDue(c: Config, workers: Workers, a: Allocation, now: Time) {
    a.state.Prepared? && a.worker.Some? && a.worker.value in workers && Eligible(c, workers[a.worker.value], now)
  }

  ghost predicate Seated2(c: Config, a: Allocation, b: Allocation, now: Time) {
    |a.users| == 2 && exists r0, r1 :: b == Reserve(c, a, now, r0, r1)
  }

  method ReserveSeatsDue(c: Config, s: State, now: Time) returns (t: State, ghost ops: seq<Op>)
    requires forall a | a in s.allocations :: |s.allocations[a].users| == 2
    ensures Replay(c, now, s, ops) == Some(t)
    ensures t == s.(allocations := t.allocations) && t.allocations.Keys == s.allocations.Keys
    ensures forall a | a in s.allocations ::
              if SeatsDue(c, s.workers, s.allocations[a], now) then Seated2(c, s.allocations[a], t.allocations[a], now)
              else t.allocations[a] == s.allocations[a]
  {
    t, ops := s, [];
    var todo := s.allocations.Keys;
    while todo != {}
      invariant todo <= s.allocations.Keys == t.allocations.Keys
      invariant Replay(c, now, s, ops) == Some(t) && t == s.(allocations := t.allocations)
      invariant forall a | a in todo :: t.allocations[a] == s.allocations[a]
      invariant forall a | a in s.allocations && a !in todo ::
                  if SeatsDue(c, s.workers, s.allocations[a], now) then Seated2(c, s.allocations[a], t.allocations[a], now)
                  else t.allocations[a] == s.allocations[a]
    {
      var aid :| aid in todo;
      todo := todo - {aid};
      if SeatsDue(c, t.workers, t.allocations[aid], now) {
        var r0 := NewId(t.issued);
        var r1 := NewId(t.issued + {r0});
        ReplayOne(c, now, s, ops, t, ReserveSeats(aid, r0, r1));
        ops := ops + [ReserveSeats(aid, r0, r1)];
        t := t.(allocations := t.allocations[aid := Reserve(c, t.allocations[aid], now, r0, r1)]);
      }
    }
  }

  // ---- Placement -----------------------------------------------------------------------

  method PlaceWaiting(c: Config, s: State, now: Time) returns (t: State, ghost ops: seq<Op>, ghost queue: seq<Id>, ghost ids: seq<Id>)
    ensures Sorted(s.allocations, queue) && (forall a :: a in queue <==> a in WaitingSet(s.allocations))
    ensures QueueReady(s, queue, ids) && t == PlaceQueue(c, s, queue, now, ids)
    ensures Replay(c, now, s, ops) == Some(t)
  {
    var waiting := SortWaiting(s.allocations);
    queue, ids := waiting, [];
    t := s;
    var drawn := s.issued;
    SortedDistinct(s.allocations, queue);
    for i := 0 to |waiting|
      invariant t.issued <= drawn && s.issued <= drawn && forall x | x in ids :: x in drawn
      invariant |ids| == i && QueueReady(s, queue[..i], ids) && t == PlaceQueue(c, s, queue[..i], now, ids)
      invariant t.allocations.Keys == s.allocations.Keys
    {
      var cid := NewId(drawn);
      drawn := drawn + {cid};
      assert queue[i] in WaitingSet(s.allocations);
      QueueSnoc(s, queue, ids, i, cid);
      QueueOnly(c, now, s, queue[..i], ids);
      t := PlaceNext(c, now, t, waiting[i], cid);
      ids := ids + [cid];
      QueueOnly(c, now, s, queue[..i + 1], ids);
    }
    assert queue[..|queue|] == queue;
    ops := QueueReplays(c, now, s, queue, ids);
  }

  method PlaceNext(c: Config, now: Time, s: State, aid: Id, cid: Id) returns (t: State)
    requires aid in s.allocations
    ensures t == PlaceOne(c, s, aid, now, cid)
  {
    t := s;
    var chosen := ChooseWorker(c, s, aid, now);
    if chosen.Some? {
      t := Place(c, s, aid, chosen.value, now, cid);
    }
  }

  lemma SortedDistinct(rooms: Allocations, queue: seq<Id>)
    requires Sorted(rooms, queue)
    ensures forall i, j | 0 <= i < j < |queue| :: queue[i] != queue[j]
  {
  }

  lemma QueueSnoc(s: State, queue: seq<Id>, ids: seq<Id>, i: nat, cid: Id)
    requires i < |queue| && |ids| == i && QueueReady(s, queue[..i], ids) && cid !in s.issued && cid !in ids
    requires queue[i] in s.allocations && s.allocations[queue[i]].state.Waiting?
    requires forall i, j | 0 <= i < j < |queue| :: queue[i] != queue[j]
    ensures QueueReady(s, queue[..i + 1], ids + [cid])
    ensures queue[..i + 1][..i] == queue[..i] && (ids + [cid])[..i] == ids
  {
  }

  // ---- Scaling -------------------------------------------------------------------------

  function Queued(rooms: Allocations): set<Id> {
    set a | a in rooms && rooms[a].state.Waiting? && rooms[a].preferred.None?
  }

  function Admitting(workers: Workers): set<Id> {
    set w | w in workers && workers[w].state.Ready? && !workers[w].draining
  }

  predicate Booting(c: Config, w: Worker, now: Time) {
    && (w.state.Requested? || w.state.Starting? || w.state.Launching? || w.state.Bootstrapping?)
    && now - w.createdAt < c.launchTimeout
  }

  ghost function BootRooms(c: Config, workers: Workers, some: set<Id>, now: Time): nat
    requires some <= workers.Keys
  {
    if some == {} then 0
    else
      var w :| w in some;
      BootRooms(c, workers, some - {w}, now) + if Booting(c, workers[w], now) then workers[w].maxRooms else 0
  }

  /** The sum does not depend on the order of the workers. */
  lemma {:induction false} BootRoomsOne(c: Config, workers: Workers, some: set<Id>, now: Time, w: Id)
    requires some <= workers.Keys && w in some
    ensures BootRooms(c, workers, some, now) ==
            BootRooms(c, workers, some - {w}, now) + if Booting(c, workers[w], now) then workers[w].maxRooms else 0
  {
    var v :| v in some && BootRooms(c, workers, some, now) ==
              BootRooms(c, workers, some - {v}, now) + if Booting(c, workers[v], now) then workers[v].maxRooms else 0;
    if v != w {
      BootRoomsOne(c, workers, some - {v}, now, w);
      BootRoomsOne(c, workers, some - {w}, now, v);
      assert some - {v} - {w} == some - {w} - {v};
    }
  }

  method CountQueued(rooms: Allocations) returns (q: nat)
    ensures q == |Queued(rooms)|
  {
    q := 0;
    var todo := rooms.Keys;
    ghost var seen: set<Id> := {};
    while todo != {}
      invariant todo <= rooms.Keys && seen == Queued(rooms) - todo && q == |seen|
    {
      var a :| a in todo;
      todo := todo - {a};
      if rooms[a].state.Waiting? && rooms[a].preferred.None? {
        q, seen := q + 1, seen + {a};
      }
    }
    assert seen == Queued(rooms);
  }

  method CountLive(workers: Workers) returns (live: nat)
    ensures live == |Live(workers)|
  {
    live := 0;
    var todo := workers.Keys;
    ghost var seen: set<Id> := {};
    while todo != {}
      invariant todo <= workers.Keys && seen == Live(workers) - todo && live == |seen|
    {
      var w :| w in todo;
      todo := todo - {w};
      if Counted(workers[w]) {
        live, seen := live + 1, seen + {w};
      }
    }
    assert seen == Live(workers);
  }

  method CountReady(workers: Workers) returns (ready: nat)
    ensures ready == |Admitting(workers)|
  {
    ready := 0;
    var todo := workers.Keys;
    ghost var seen: set<Id> := {};
    while todo != {}
      invariant todo <= workers.Keys && seen == Admitting(workers) - todo && ready == |seen|
    {
      var w :| w in todo;
      todo := todo - {w};
      if workers[w].state.Ready? && !workers[w].draining {
        ready, seen := ready + 1, seen + {w};
      }
    }
    assert seen == Admitting(workers);
  }

  method CountBoot(c: Config, workers: Workers, now: Time) returns (boot: nat)
    ensures boot == BootRooms(c, workers, workers.Keys, now)
  {
    boot := 0;
    var todo := workers.Keys;
    ghost var seen: set<Id> := {};
    while todo != {}
      invariant todo !! seen && todo + seen == workers.Keys && boot == BootRooms(c, workers, seen, now)
    {
      var w :| w in todo;
      BootRoomsOne(c, workers, seen + {w}, now, w);
      assert seen + {w} - {w} == seen;
      if Booting(c, workers[w], now) {
        boot := boot + workers[w].maxRooms;
      }
      todo, seen := todo - {w}, seen + {w};
    }
    assert seen == workers.Keys;
  }

  ghost predicate CreateDue(c: Config, s: State, now: Time) {
    && !s.blocked && now >= s.nextCreateAt && |Live(s.workers)| < c.maxInstances
    && var boot := BootRooms(c, s.workers, s.workers.Keys, now);
    (|Queued(s.allocations)| > boot || (|Admitting(s.workers)| < c.minInstances && boot == 0))
  }

  ghost predicate Created(c: Config, s: State, t: State, now: Time) {
    exists wid :: wid !in s.issued &&
      t == s.(workers := s.workers[wid := NewWorker(c, now, s.rooms)], issued := s.issued + {wid}, nextCreateAt := now + 1)
  }

  method ScaleUp(c: Config, s: State, now: Time) returns (t: State, ghost ops: seq<Op>, q: nat, ready: nat)
    ensures Replay(c, now, s, ops) == Some(t)
    ensures q == |Queued(s.allocations)| && ready == |Admitting(s.workers)|
    ensures if CreateDue(c, s, now) then Created(c, s, t, now) else t == s
  {
    q := CountQueued(s.allocations);
    ready := CountReady(s.workers);
    var boot := CountBoot(c, s.workers, now);
    var live := CountLive(s.workers);
    t, ops := s, [];
    if !s.blocked && now >= s.nextCreateAt && live < c.maxInstances && (q > boot || (ready < c.minInstances && boot == 0)) {
      var wid := NewId(s.issued);
      ReplayOne(c, now, s, [], s, AddWorker(wid, s.rooms));
      t := s.(workers := s.workers[wid := NewWorker(c, now, s.rooms)], issued := s.issued + {wid});
      ops := [] + [AddWorker(wid, s.rooms)];
      ReplayOne(c, now, s, ops, t, SetCreation(now + 1, t.blocked, t.rooms));
      ops := ops + [SetCreation(now + 1, t.blocked, t.rooms)];
      t := t.(nextCreateAt := now + 1);
    }
  }

  /** A drained, empty, idle worker that was heard from recently. */
  predicate StopDue(c: Config, w: Worker, occupied: nat, now: Time) {
    && w.state.Draining? && w.drainAck && occupied == 0 && w.playerCount == 0 && WorkFinished(w.metrics)
    && now - w.lastHeartbeat <= c.heartbeatTimeout
  }

  function IdleStart(w: Worker, now: Time): Time {
    if w.idleSince == 0 then now else w.idleSince
  }

  predicate DrainDue(c: Config, w: Worker, occupied: nat, q: nat, now: Time) {
    w.state.Ready? && !w.draining && occupied == 0 && q == 0 && now - IdleStart(w, now) >= c.idleSeconds
  }

  /** Every outcome of the last pass for one worker. */
  predicate ScaledDown(c: Config, v: Worker, w: Worker, occupied: nat, q: nat, now: Time) {
    if StopDue(c, v, occupied, now) then w == v.(state := Stopping, nextCheckAt := now)
    else if v.state.Ready? && !v.draining then
      if occupied > 0 then w == v.(idleSince := 0)
      else
        || w == v.(idleSince := IdleStart(v, now))
        || (DrainDue(c, v, occupied, q, now) && w == v.(idleSince := IdleStart(v, now), draining := true, state := Draining, updatedAt := now))
    else w == v
  }

  method ScaleDownOne(c: Config, s: State, wid: Id, now: Time, q: nat, ready: int) returns (t: State, ghost ops: seq<Op>, left: int)
    requires wid in s.workers && WorkerWell(s.workers[wid])
    ensures Replay(c, now, s, ops) == Some(t) && OnlyRoomsAndWorkers(s, t) && t.allocations == s.allocations
    ensures t.workers.Keys == s.workers.Keys && t.workers == s.workers[wid := t.workers[wid]]
    ensures ScaledDown(c, s.workers[wid], t.workers[wid], Occupied(s.allocations, wid), q, now)
    ensures var due := DrainDue(c, s.workers[wid], Occupied(s.allocations, wid), q, now) && ready > c.minInstances;
            (t.workers[wid].state.Draining? && !s.workers[wid].state.Draining? <==> due) && left == if due then ready - 1 else ready
  {
    t, ops, left := s, [], ready;
    var occupied := CountOccupied(s.allocations, wid);
    var w := s.workers[wid];
    if w.state.Ready? && !w.draining {
      if occupied == 0 {
        t, ops := EditOne(c, now, s, ops, t, wid, w.(idleSince := IdleStart(w, now)));
        if now - IdleStart(w, now) >= c.idleSeconds && left > c.minInstances && q == 0 {
          var cid := NewId(t.issued);
          ReplayOne(c, now, s, ops, t, DrainWorker(wid, cid));
          ops := ops + [DrainWorker(wid, cid)];
          t := BeginDrain(t, wid, now, cid);
          left := left - 1;
        }
      } else {
        t, ops := EditOne(c, now, s, ops, t, wid, w.(idleSince := 0));
      }
    }
    w := t.workers[wid];
    if StopDue(c, w, occupied, now) {
      t, ops := EditOne(c, now, s, ops, t, wid, w.(state := Stopping, nextCheckAt := now));
    }
  }

  /** A worker drained by this pass; a worker due for draining that the pass kept. */
  predicate DrainedNow(v: Worker, w: Worker) {
    w.state.Draining? && !v.state.Draining?
  }

  predicate KeptNow(c: Config, v: Worker, w: Worker, occupied: nat, q: nat, now: Time) {
    DrainDue(c, v, occupied, q, now) && !w.state.Draining?
  }

  lemma AdmittingAfter(c: Config, workers: Workers, wid: Id, w: Worker, occupied: nat, q: nat, now: Time)
    requires wid in workers && WorkerWell(workers[wid]) && ScaledDown(c, workers[wid], w, occupied, q, now)
    ensures Admitting(workers[wid := w]) == if DrainedNow(workers[wid], w) then Admitting(workers) - {wid} else Admitting(workers)
    ensures DrainedNow(workers[wid], w) ==> wid in Admitting(workers)
  {
  }

  /** The pass is done with a worker: its outcome, and what it says about the count. */
  predicate PassDone(c: Config, v: Worker, w: Worker, occupied: nat, q: nat, now: Time, left: int) {
    && ScaledDown(c, v, w, occupied, q, now)
    && (DrainedNow(v, w) ==> left >= c.minInstances)
    && (KeptNow(c, v, w, occupied, q, now) ==> left <= c.minInstances)
  }

  method ScaleDown(c: Config, s: State, now: Time, q: nat, ready: nat) returns (t: State, ghost ops: seq<Op>)
    requires WorkersWell(s.workers) && ready == |Admitting(s.workers)|
    ensures Replay(c, now, s, ops) == Some(t) && OnlyRoomsAndWorkers(s, t) && t.allocations == s.allocations
    ensures t.workers.Keys == s.workers.Keys
    ensures forall w | w in s.workers :: PassDone(c, s.workers[w], t.workers[w], Occupied(s.allocations, w), q, now, |Admitting(t.workers)|)
  {
    t, ops := s, [];
    var left: int := ready;
    var todo := s.workers.Keys;
    while todo != {}
      invariant todo <= s.workers.Keys == t.workers.Keys
      invariant Replay(c, now, s, ops) == Some(t) && OnlyRoomsAndWorkers(s, t) && t.allocations == s.allocations
      invariant forall w | w in todo :: t.workers[w] == s.workers[w]
      invariant forall w | w in s.workers && w !in todo :: PassDone(c, s.workers[w], t.workers[w], Occupied(s.allocations, w), q, now, left)
      invariant left == |Admitting(t.workers)|
    {
      var wid :| wid in todo;
      todo := todo - {wid};
      assert WorkerWell(s.workers[wid]);
      ghost var before, had := t, left;
      t, ops, left := ScaleDownStep(c, now, s, ops, t, wid, q, left);
      forall w | w in s.workers && w !in todo
        ensures PassDone(c, s.workers[w], t.workers[w], Occupied(s.allocations, w), q, now, left)
      {
        assert w != wid ==> PassDone(c, s.workers[w], before.workers[w], Occupied(s.allocations, w), q, now, had);
      }
    }
  }

  method ScaleDownStep(c: Config, now: Time, ghost s: State, ghost ops: seq<Op>, t: State, wid: Id, q: nat, ready: int) returns (u: State, ghost more: seq<Op>, left: int)
    requires Replay(c, now, s, ops) == Some(t) && wid in t.workers && WorkerWell(t.workers[wid]) && ready == |Admitting(t.workers)|
    ensures Replay(c, now, s, more) == Some(u) && OnlyRoomsAndWorkers(t, u) && u.allocations == t.allocations
    ensures u.workers.Keys == t.workers.Keys && u.workers == t.workers[wid := u.workers[wid]]
    ensures PassDone(c, t.workers[wid], u.workers[wid], Occupied(t.allocations, wid), q, now, left)
    ensures left == |Admitting(u.workers)| <= ready && (left == ready || left >= c.minInstances)
  {
    ghost var last;
    u, last, left := ScaleDownOne(c, t, wid, now, q, ready);
    ReplayConcat(c, now, s, ops, t, last, u);
    more := ops + last;
    AdmittingAfter(c, t.workers, wid, u.workers[wid], Occupied(t.allocations, wid), q, now);
  }
}
