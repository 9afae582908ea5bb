/** Every elementary change keeps the invariant: frame lemmas for each clause, then one
    lemma for each shape of change. */
module FleetPreserve {
  import opened Basics
  import opened FleetState
  import opened FleetOps
  import opened FleetInvariant

  // ---- Frames --------------------------------------------------------------------------

  /** Allocations may disappear or finish, but keep who and what they are for. */
  ghost predicate SameRequests(rooms: Allocations, after: Allocations) {
    && after.Keys <= rooms.Keys
    && forall a | a in after :: SameRequest(rooms[a], after[a])
  }

  ghost predicate SameRequest(a: Allocation, b: Allocation) {
    && b.requestKey == a.requestKey && b.room == a.room && b.users == a.users && b.preferred == a.preferred
    && (Terminal(a.state) ==> Terminal(b.state))
  }

  lemma UniqueFrame(rooms: Allocations, after: Allocations)
    requires KeysUnique(rooms) && UsersUnique(rooms) && SameRequests(rooms, after)
    ensures KeysUnique(after) && UsersUnique(after)
  {
  }

  ghost predicate NoNewRooms(rooms: Allocations, after: Allocations) {
    && after.Keys <= rooms.Keys
    && forall a | a in after && !Terminal(after[a].state) ::
         after[a].worker == rooms[a].worker && !Terminal(rooms[a].state)
  }

  lemma HostedFrame(rooms: Allocations, after: Allocations, wid: Id)
    requires NoNewRooms(rooms, after)
    ensures Hosted(after, wid) <= Hosted(rooms, wid) && Occupied(after, wid) <= Occupied(rooms, wid)
  {
    SubsetSize(Hosted(after, wid), Hosted(rooms, wid));
  }

  lemma {:induction false} SubsetSize<T>(p: set<T>, q: set<T>)
    requires p <= q
    ensures |p| <= |q|
  {
    if p != {} {
      var x :| x in p;
      SubsetSize(p - {x}, q - {x});
    }
  }

  lemma RoomsFitFrame(rooms: Allocations, after: Allocations, workers: Workers)
    requires RoomsFit(rooms, workers) && NoNewRooms(rooms, after)
    ensures RoomsFit(after, workers)
  {
    forall w | w in workers ensures Occupied(after, w) <= workers[w].maxRooms {
      HostedFrame(rooms, after, w);
    }
  }

  lemma LiveFrame(c: Config, workers: Workers, after: Workers)
    requires |Live(workers)| <= c.maxInstances
    requires forall w | w in after && Counted(after[w]) :: w in workers && Counted(workers[w])
    ensures |Live(after)| <= c.maxInstances
  {
    SubsetSize(Live(after), Live(workers));
  }

  lemma PendingFrame(cs: Commands, after: Commands, kind: CommandKind, aid: Option<Id>, wid: Id)
    requires HasPending(cs, kind, aid, wid)
    requires forall k | Pending(cs, kind, aid, wid, k) :: k in after && after[k] == cs[k]
    ensures HasPending(after, kind, aid, wid)
  {
    var k :| Pending(cs, kind, aid, wid, k);
    assert Pending(after, kind, aid, wid, k);
  }

  /** A new command with a target of its own. */
  lemma AddCommandUnique(cs: Commands, cid: Id, k: Command)
    requires CommandsUnique(cs) && cid !in cs
    requires forall j | Undone(cs, j) :: !SameTarget(cs[j], k)
    ensures CommandsUnique(cs[cid := k])
  {
  }

  // ---- One allocation changes, no command is concerned ---------------------------------

  ghost predicate QuietEdit(a: Allocation, b: Allocation) {
    && SameRequest(a, b) && b.worker == a.worker && AllocationWell(b)
    && (b.state == a.state || !(a.state.Preparing? || a.state.Cancelling? || b.state.Preparing? || b.state.Cancelling?))
    && (Terminal(b.state) || (a.state.Waiting? <==> b.state.Waiting?))
    && (b.state.Preparing? ==> b.expiresAt == a.expiresAt)
  }

  lemma AllocationEdit(c: Config, s: State, aid: Id, b: Allocation, t: State)
    requires Inv(c, s) && aid in s.allocations && QuietEdit(s.allocations[aid], b)
    requires t == s.(allocations := s.allocations[aid := b])
    ensures Inv(c, t)
  {
    AllocationEditRooms(s, aid, b, t);
    RoomsFitFrame(s.allocations, t.allocations, s.workers);
    AllocationEditCommands(s, aid, b, t);
  }

  lemma AllocationEditRooms(s: State, aid: Id, b: Allocation, t: State)
    requires AllocationInv(s) && aid in s.allocations && QuietEdit(s.allocations[aid], b)
    requires t == s.(allocations := s.allocations[aid := b])
    ensures AllocationInv(t)
  {
    UniqueFrame(s.allocations, t.allocations);
    assert !Terminal(s.allocations[aid].state) ==> PlacedOne(s.allocations[aid], s.workers);
  }

  lemma AllocationEditCommands(s: State, aid: Id, b: Allocation, t: State)
    requires CommandInv(s) && aid in s.allocations && QuietEdit(s.allocations[aid], b) && s.allocations[aid].epoch == b.epoch
    requires t == s.(allocations := s.allocations[aid := b])
    ensures CommandInv(t)
  {
  }

  // ---- One worker changes --------------------------------------------------------------

  lemma WorkerEditKeeps(c: Config, s: State, wid: Id, w: Worker, t: State)
    requires Inv(c, s) && WorkerEdit(s, wid, w) && t == s.(workers := s.workers[wid := w])
    ensures Inv(c, t)
  {
    WorkerEditPlaced(s, wid, w);
    WorkerEditWorkers(c, s, wid, w, t);
    WorkerEditCommands(s, wid, w, t);
  }

  lemma WorkerEditPlaced(s: State, wid: Id, w: Worker)
    requires Placed(s.allocations, s.workers) && WorkerEdit(s, wid, w)
    ensures Placed(s.allocations, s.workers[wid := w])
  {
    forall a | a in s.allocations && !Terminal(s.allocations[a].state)
      ensures PlacedOne(s.allocations[a], s.workers[wid := w])
    {
      assert PlacedOne(s.allocations[a], s.workers);
      if s.allocations[a].worker == Some(wid) {
        assert a in Hosted(s.allocations, wid);
      }
    }
  }

  lemma WorkerEditWorkers(c: Config, s: State, wid: Id, w: Worker, t: State)
    requires WorkerInv(c, s) && WorkerEdit(s, wid, w) && t == s.(workers := s.workers[wid := w])
    ensures WorkerInv(c, t)
  {
    assert WorkerWell(s.workers[wid]);
    assert WorkerWell(w);
    LiveFrame(c, s.workers, t.workers);
  }

  lemma WorkerEditCommands(s: State, wid: Id, w: Worker, t: State)
    requires CommandInv(s) && WorkerEdit(s, wid, w) && t == s.(workers := s.workers[wid := w])
    ensures CommandInv(t)
  {
    assert AwaitsDrain(s.workers[wid]) <==> AwaitsDrain(w);
  }

  // ---- Draining ------------------------------------------------------------------------

  lemma DrainKeeps(c: Config, now: Time, s: State, wid: Id, cid: Id, t: State)
    requires Inv(c, s) && Enabled(c, now, s, DrainWorker(wid, cid)) && t == BeginDrain(s, wid, now, cid)
    ensures Inv(c, t)
  {
    DrainAllocations(s, wid, now, cid, t);
    DrainWorkers(c, s, wid, now, cid, t);
    DrainCommands(s, wid, now, cid, t);
  }

  lemma DrainAllocations(s: State, wid: Id, now: Time, cid: Id, t: State)
    requires AllocationInv(s) && wid in s.workers && t == BeginDrain(s, wid, now, cid)
    ensures AllocationInv(t)
  {
  }

  lemma DrainWorkers(c: Config, s: State, wid: Id, now: Time, cid: Id, t: State)
    requires WorkerInv(c, s) && wid in s.workers && (s.workers[wid].state.Ready? || s.workers[wid].state.Suspect?) && t == BeginDrain(s, wid, now, cid)
    ensures WorkerInv(c, t)
  {
    assert WorkerWell(s.workers[wid]);
    LiveFrame(c, s.workers, t.workers);
  }

  lemma DrainCommands(s: State, wid: Id, now: Time, cid: Id, t: State)
    requires CommandInv(s) && s.commands.Keys <= s.issued && cid !in s.issued && WorkersWell(s.workers)
    requires wid in s.workers && (s.workers[wid].state.Ready? || s.workers[wid].state.Suspect?) && t == BeginDrain(s, wid, now, cid)
    ensures CommandInv(t)
  {
    assert WorkerWell(s.workers[wid]);
    assert forall k | k in s.commands :: k != cid && t.commands[k] == s.commands[k];
    assert Pending(t.commands, Drain, None, wid, cid);
    DrainSound(s, wid, now, cid, t);
    DrainsFrame(s.workers, s.commands, t.workers, t.commands, wid);
    RoomsCommandedFrame(s.allocations, s.commands, t.commands);
  }

  lemma DrainSound(s: State, wid: Id, now: Time, cid: Id, t: State)
    requires CommandsSound(s.allocations, s.workers, s.commands) && CommandsUnique(s.commands) && cid !in s.commands
    requires wid in s.workers && !s.workers[wid].state.Draining? && !s.workers[wid].draining && !s.workers[wid].drainAck
    requires t == BeginDrain(s, wid, now, cid)
    ensures CommandsSound(t.allocations, t.workers, t.commands) && CommandsUnique(t.commands)
  {
    forall k | Undone(s.commands, k) ensures s.commands[k].kind.Drain? ==> s.commands[k].worker != wid {
      assert CommandSound(s.allocations, s.workers, s.commands[k]);
    }
    AddCommandUnique(s.commands, cid, t.commands[cid]);
    forall k | Undone(t.commands, k) ensures CommandSound(t.allocations, t.workers, t.commands[k]) {
      if k != cid {
        assert CommandSound(s.allocations, s.workers, s.commands[k]);
      }
    }
  }

  /** Pending drains survive when they stay in place, apart from one worker looked at separately. */
  lemma DrainsFrame(workers: Workers, cs: Commands, after: Workers, bs: Commands, except: Id)
    requires DrainsCommanded(workers, cs)
    requires forall w | w in after && w != except && AwaitsDrain(after[w]) :: w in workers && AwaitsDrain(workers[w])
    requires forall k | Undone(cs, k) && cs[k].kind.Drain? && cs[k].worker != except :: k in bs && bs[k] == cs[k]
    requires except in after && AwaitsDrain(after[except]) ==> HasPending(bs, Drain, None, except)
    ensures DrainsCommanded(after, bs)
  {
    forall w | w in after && AwaitsDrain(after[w]) ensures HasPending(bs, Drain, None, w) {
      if w != except {
        PendingFrame(cs, bs, Drain, None, w);
      }
    }
  }

  lemma RoomsCommandedFrame(rooms: Allocations, cs: Commands, after: Commands)
    requires RoomsCommanded(rooms, cs)
    requires forall k | Undone(cs, k) && !cs[k].kind.Drain? :: k in after && after[k] == cs[k]
    ensures RoomsCommanded(rooms, after)
  {
    forall a | a in rooms && rooms[a].worker.Some? ensures RoomCommanded(a, rooms[a], after) {
      RoomFrame(a, rooms[a], cs, rooms[a], after);
    }
  }

  lemma RoomFrame(aid: Id, a: Allocation, cs: Commands, b: Allocation, after: Commands)
    requires a.worker.Some? && RoomCommanded(aid, a, cs) && b.worker == a.worker
    requires b.state.Preparing? || b.state.Cancelling? ==> b.state == a.state
    requires forall k | Undone(cs, k) && !cs[k].kind.Drain? && cs[k].allocation == Some(aid) && cs[k].worker == a.worker.value :: k in after && after[k] == cs[k]
    ensures RoomCommanded(aid, b, after)
  {
    if b.state.Preparing? {
      PendingFrame(cs, after, PrepareRoom, Some(aid), a.worker.value);
    } else if b.state.Cancelling? {
      PendingFrame(cs, after, CancelRoom, Some(aid), a.worker.value);
    }
  }

  lemma AckKeeps(c: Config, now: Time, s: State, cid: Id, t: State)
    requires Inv(c, s) && Enabled(c, now, s, AckDrain(cid)) && t == Apply(c, now, s, AckDrain(cid))
    ensures Inv(c, t)
  {
    AckAllocations(s, cid, t);
    AckWorkers(c, s, cid, t);
    AckCommands(c, now, s, cid, t);
  }

  ghost predicate Acked(s: State, cid: Id, t: State) {
    && cid in s.commands && s.commands[cid].worker in s.workers
    && var wid := s.commands[cid].worker;
    t == s.(commands := s.commands[cid := s.commands[cid].(done := true)], workers := s.workers[wid := s.workers[wid].(drainAck := true)])
  }

  lemma AckAllocations(s: State, cid: Id, t: State)
    requires AllocationInv(s) && Acked(s, cid, t)
    ensures AllocationInv(t)
  {
  }

  lemma AckWorkers(c: Config, s: State, cid: Id, t: State)
    requires WorkerInv(c, s) && Acked(s, cid, t) && CommandSound(s.allocations, s.workers, s.commands[cid]) && s.commands[cid].kind.Drain?
    ensures WorkerInv(c, t)
  {
    assert WorkerWell(s.workers[s.commands[cid].worker]);
    LiveFrame(c, s.workers, t.workers);
  }

  lemma AckCommands(c: Config, now: Time, s: State, cid: Id, t: State)
    requires CommandInv(s) && Enabled(c, now, s, AckDrain(cid)) && Acked(s, cid, t)
    ensures CommandInv(t)
  {
    assert CommandSound(s.allocations, s.workers, s.commands[cid]);
    DrainsFrame(s.workers, s.commands, t.workers, t.commands, s.commands[cid].worker);
    RoomsCommandedFrame(s.allocations, s.commands, t.commands);
  }

  // ---- Ending a worker -----------------------------------------------------------------

  lemma CloseKeeps(c: Config, s: State, wid: Id, phase: WorkerState, reason: string, now: Time, t: State)
    requires Inv(c, s) && wid in s.workers && (phase.Lost? || phase.Stopped?) && Counted(s.workers[wid])
    requires t == CloseWorker(s, wid, phase, reason, now)
    ensures Inv(c, t)
  {
    CloseAllocations(s, wid, phase, reason, now, t);
    CloseWorkers(c, s, wid, phase, reason, now, t);
    CloseAllCommands(s, wid, phase, reason, now, t);
  }

  lemma CloseAllocations(s: State, wid: Id, phase: WorkerState, reason: string, now: Time, t: State)
    requires AllocationInv(s) && wid in s.workers && t == CloseWorker(s, wid, phase, reason, now)
    ensures AllocationInv(t)
  {
    UniqueFrame(s.allocations, t.allocations);
    forall a | a in t.allocations && !Terminal(t.allocations[a].state) ensures PlacedOne(t.allocations[a], t.workers) {
      assert PlacedOne(s.allocations[a], s.workers);
    }
    forall a | a in t.allocations ensures AllocationWell(t.allocations[a]) {
      assert AllocationWell(s.allocations[a]);
    }
  }

  lemma CloseWorkers(c: Config, s: State, wid: Id, phase: WorkerState, reason: string, now: Time, t: State)
    requires WorkerInv(c, s) && wid in s.workers && (phase.Lost? || phase.Stopped?) && Counted(s.workers[wid])
    requires t == CloseWorker(s, wid, phase, reason, now)
    ensures WorkerInv(c, t)
  {
    assert WorkerWell(s.workers[wid]);
    RoomsFitFrame(s.allocations, t.allocations, s.workers);
    LiveFrame(c, s.workers, t.workers);
  }

  lemma CloseAllCommands(s: State, wid: Id, phase: WorkerState, reason: string, now: Time, t: State)
    requires CommandInv(s) && wid in s.workers && (phase.Lost? || phase.Stopped?)
    requires t == CloseWorker(s, wid, phase, reason, now)
    ensures CommandInv(t)
  {
    CloseSound(s, wid, phase, reason, now, t);
    DrainsFrame(s.workers, s.commands, t.workers, t.commands, wid);
    CloseCommanded(s.allocations, s.commands, t.allocations, t.commands, wid, reason, now);
  }

  lemma CloseSound(s: State, wid: Id, phase: WorkerState, reason: string, now: Time, t: State)
    requires CommandsSound(s.allocations, s.workers, s.commands) && CommandsUnique(s.commands) && wid in s.workers
    requires t == CloseWorker(s, wid, phase, reason, now)
    ensures CommandsSound(t.allocations, t.workers, t.commands) && CommandsUnique(t.commands)
  {
    forall k | Undone(t.commands, k) ensures CommandSound(t.allocations, t.workers, t.commands[k]) {
      assert Undone(s.commands, k) && t.commands[k] == s.commands[k];
      assert CommandSound(s.allocations, s.workers, s.commands[k]);
    }
  }

  lemma CloseCommanded(rooms: Allocations, cs: Commands, after: Allocations, bs: Commands, wid: Id, reason: string, now: Time)
    requires RoomsCommanded(rooms, cs) && after == FinishHosted(rooms, wid, reason, now) && bs == CloseCommands(cs, wid)
    ensures RoomsCommanded(after, bs)
  {
    forall a | a in after && after[a].worker.Some? ensures RoomCommanded(a, after[a], bs) {
      if after[a].worker != Some(wid) {
        RoomFrame(a, rooms[a], cs, after[a], bs);
      }
    }
  }

  // ---- New workers and allocations -----------------------------------------------------

  lemma AddWorkerKeeps(c: Config, now: Time, s: State, wid: Id, maxRooms: nat, t: State)
    requires Inv(c, s) && Enabled(c, now, s, AddWorker(wid, maxRooms)) && t == Apply(c, now, s, AddWorker(wid, maxRooms))
    ensures Inv(c, t)
  {
    var w := NewWorker(c, now, maxRooms);
    AddWorkerAllocations(s, wid, w, t);
    AddWorkerWorkers(c, s, wid, w, t);
  }

  lemma AddWorkerAllocations(s: State, wid: Id, w: Worker, t: State)
    requires AllocationInv(s) && wid !in s.workers && t == s.(workers := s.workers[wid := w], issued := s.issued + {wid})
    ensures AllocationInv(t)
  {
    forall a | a in t.allocations && !Terminal(t.allocations[a].state) ensures PlacedOne(t.allocations[a], t.workers) {
      assert PlacedOne(s.allocations[a], s.workers);
    }
  }

  lemma AddWorkerWorkers(c: Config, s: State, wid: Id, w: Worker, t: State)
    requires WorkerInv(c, s) && Placed(s.allocations, s.workers) && wid !in s.workers && |Live(s.workers)| < c.maxInstances
    requires t == s.(workers := s.workers[wid := w], issued := s.issued + {wid}) && WorkerWell(w)
    ensures WorkerInv(c, t)
  {
    assert Live(t.workers) <= Live(s.workers) + {wid};
    SubsetSize(Live(t.workers), Live(s.workers) + {wid});
    assert Hosted(t.allocations, wid) == {} by {
      assert forall a | a in s.allocations && !Terminal(s.allocations[a].state) :: PlacedOne(s.allocations[a], s.workers);
    }
  }

  lemma AddAllocationKeeps(c: Config, s: State, aid: Id, a: Allocation, t: State)
    requires Inv(c, s) && FreshAllocation(s, aid, a)
    requires t == s.(allocations := s.allocations[aid := a], issued := s.issued + {aid, a.room})
    ensures Inv(c, t)
  {
    AddAllocationUnique(s, aid, a);
    AddAllocationAllocations(s, aid, a, t);
    AddAllocationFits(s, aid, a);
    AddAllocationCommands(s, aid, a, t);
  }

  lemma AddAllocationUnique(s: State, aid: Id, a: Allocation)
    requires IdsIssued(s) && KeysUnique(s.allocations) && UsersUnique(s.allocations) && FreshAllocation(s, aid, a)
    ensures KeysUnique(s.allocations[aid := a]) && UsersUnique(s.allocations[aid := a])
  {
    forall b | b in s.allocations && !Terminal(s.allocations[b].state)
      ensures Disjoint(s.allocations[b].users, a.users) && Disjoint(a.users, s.allocations[b].users)
    {
    }
  }

  lemma AddAllocationAllocations(s: State, aid: Id, a: Allocation, t: State)
    requires IdsIssued(s) && Placed(s.allocations, s.workers) && AllocationsWell(s.allocations) && FreshAllocation(s, aid, a)
    requires t == s.(allocations := s.allocations[aid := a], issued := s.issued + {aid, a.room})
    ensures IdsIssued(t) && Placed(t.allocations, t.workers) && AllocationsWell(t.allocations)
  {
  }

  lemma AddAllocationFits(s: State, aid: Id, a: Allocation)
    requires RoomsFit(s.allocations, s.workers) && aid !in s.allocations && a.worker.None?
    ensures RoomsFit(s.allocations[aid := a], s.workers)
  {
    forall w | w in s.workers ensures Occupied(s.allocations[aid := a], w) <= s.workers[w].maxRooms {
      assert Hosted(s.allocations[aid := a], w) == Hosted(s.allocations, w);
    }
  }

  lemma AddAllocationCommands(s: State, aid: Id, a: Allocation, t: State)
    requires CommandInv(s) && aid !in s.allocations && a.worker.None?
    requires t == s.(allocations := s.allocations[aid := a], issued := s.issued + {aid, a.room})
    ensures CommandInv(t)
  {
  }

  // ---- Placement -----------------------------------------------------------------------

  lemma PlaceKeeps(c: Config, now: Time, s: State, aid: Id, wid: Id, cid: Id, t: State)
    requires Inv(c, s) && Enabled(c, now, s, PlaceAllocation(aid, wid, cid)) && t == Place(c, s, aid, wid, now, cid)
    ensures Inv(c, t)
  {
    PlaceAllocations(c, s, aid, wid, now, cid, t);
    PlaceWorkers(c, s, aid, wid, now, cid, t);
    PlaceCommands(c, s, aid, wid, now, cid, t);
  }

  lemma PlaceAllocations(c: Config, s: State, aid: Id, wid: Id, now: Time, cid: Id, t: State)
    requires AllocationInv(s) && aid in s.allocations && s.allocations[aid].state.Waiting? && wid in s.workers && s.workers[wid].state.Ready?
    requires t == Place(c, s, aid, wid, now, cid)
    ensures AllocationInv(t)
  {
    UniqueFrame(s.allocations, t.allocations);
    PlaceWell(c, s.allocations[aid], t.allocations[aid], now);
    assert AllocationsWell(t.allocations);
    PlacePlaced(c, s, aid, wid, now, cid, t);
  }

  lemma PlaceWell(c: Config, a: Allocation, b: Allocation, now: Time)
    requires AllocationWell(a) && a.state.Waiting?
    requires b == a.(worker := b.worker, state := Preparing, expiresAt := now + c.prepareTimeout, revision := a.revision + 1)
    ensures AllocationWell(b)
  {
  }

  lemma PlacePlaced(c: Config, s: State, aid: Id, wid: Id, now: Time, cid: Id, t: State)
    requires Placed(s.allocations, s.workers) && aid in s.allocations && s.allocations[aid].state.Waiting? && wid in s.workers && s.workers[wid].state.Ready?
    requires t == Place(c, s, aid, wid, now, cid)
    ensures Placed(t.allocations, t.workers)
  {
    assert PlacedOne(s.allocations[aid], s.workers);
    forall a | a in t.allocations && !Terminal(t.allocations[a].state) ensures PlacedOne(t.allocations[a], t.workers) {
      assert PlacedOne(s.allocations[a], s.workers);
    }
  }

  lemma PlaceWorkers(c: Config, s: State, aid: Id, wid: Id, now: Time, cid: Id, t: State)
    requires WorkerInv(c, s) && aid in s.allocations && wid in s.workers && Occupied(s.allocations, wid) < s.workers[wid].maxRooms
    requires Placed(s.allocations, s.workers) && s.allocations[aid].state.Waiting? && t == Place(c, s, aid, wid, now, cid)
    ensures WorkerInv(c, t)
  {
    assert WorkerWell(s.workers[wid]) && PlacedOne(s.allocations[aid], s.workers);
    LiveFrame(c, s.workers, t.workers);
    forall w | w in t.workers ensures Occupied(t.allocations, w) <= t.workers[w].maxRooms {
      PlaceOccupies(s.allocations, aid, t.allocations[aid], wid, w);
    }
  }

  /** Placing an unplaced allocation takes one room of its worker and none of any other. */
  lemma PlaceOccupies(rooms: Allocations, aid: Id, b: Allocation, wid: Id, w: Id)
    requires aid in rooms && rooms[aid].worker.None? && b.worker == Some(wid)
    ensures Occupied(rooms[aid := b], w) <= Occupied(rooms, w) + if w == wid then 1 else 0
  {
    var more := if w == wid then {aid} else {};
    SubsetSize(Hosted(rooms[aid := b], w), Hosted(rooms, w) + more);
  }

  lemma PlaceCommands(c: Config, s: State, aid: Id, wid: Id, now: Time, cid: Id, t: State)
    requires CommandInv(s) && s.commands.Keys <= s.issued && aid in s.allocations && s.allocations[aid].state.Waiting? && wid in s.workers && cid !in s.issued
    requires t == Place(c, s, aid, wid, now, cid)
    ensures CommandInv(t)
  {
    assert forall k | k in s.commands :: k != cid && t.commands[k] == s.commands[k];
    assert Pending(t.commands, PrepareRoom, Some(aid), wid, cid);
    PlaceSound(c, s, aid, wid, now, cid, t);
    DrainsFrame(s.workers, s.commands, t.workers, t.commands, wid) by {
      if AwaitsDrain(t.workers[wid]) {
        PendingFrame(s.commands, t.commands, Drain, None, wid);
      }
    }
    RoomsCommandedFrame(s.allocations, s.commands, t.commands);
  }

  lemma PlaceSound(c: Config, s: State, aid: Id, wid: Id, now: Time, cid: Id, t: State)
    requires CommandsSound(s.allocations, s.workers, s.commands) && CommandsUnique(s.commands) && cid !in s.commands
    requires aid in s.allocations && s.allocations[aid].state.Waiting? && wid in s.workers
    requires t == Place(c, s, aid, wid, now, cid)
    ensures CommandsSound(t.allocations, t.workers, t.commands) && CommandsUnique(t.commands)
  {
    forall k | Undone(s.commands, k) ensures s.commands[k].allocation != Some(aid) {
      assert CommandSound(s.allocations, s.workers, s.commands[k]);
    }
    AddCommandUnique(s.commands, cid, t.commands[cid]);
    forall k | Undone(t.commands, k) ensures CommandSound(t.allocations, t.workers, t.commands[k]) {
      if k != cid {
        assert CommandSound(s.allocations, s.workers, s.commands[k]);
      }
    }
  }

  // ---- Cancellation --------------------------------------------------------------------

  lemma CancelKeeps(c: Config, now: Time, s: State, aid: Id, reason: string, cid: Id, t: State)
    requires Inv(c, s) && aid in s.allocations && cid !in s.issued && t == Cancel(c, s, aid, reason, now, cid)
    ensures Inv(c, t)
  {
    var a := s.allocations[aid];
    if !Terminal(a.state) && !a.state.Cancelling? {
      if a.worker.None? {
        assert AllocationWell(a) && PlacedOne(a, s.workers);
        EndIsQuiet(a, reason, now);
        AllocationEdit(c, s, aid, t.allocations[aid], t);
      } else {
        CancelPlaced(c, now, s, aid, reason, cid, t);
      }
    }
  }

  lemma EndIsQuiet(a: Allocation, reason: string, now: Time)
    requires AllocationWell(a) && a.state.Waiting?
    ensures QuietEdit(a, Finish(a, EndPhase(reason), reason, now))
  {
  }

  lemma CancelPlaced(c: Config, now: Time, s: State, aid: Id, reason: string, cid: Id, t: State)
    requires Inv(c, s) && Cancellable(s, aid) && cid !in s.issued && t == Cancel(c, s, aid, reason, now, cid)
    ensures Inv(c, t)
  {
    assert PlacedOne(s.allocations[aid], s.workers);
    CancelAllocations(c, now, s, aid, reason, cid, t);
    RoomsFitFrame(s.allocations, t.allocations, s.workers);
    CancelCommands(c, now, s, aid, reason, cid, t);
  }

  ghost predicate Cancellable(s: State, aid: Id) {
    && aid in s.allocations && s.allocations[aid].worker.Some?
    && !Terminal(s.allocations[aid].state) && !s.allocations[aid].state.Cancelling?
  }

  lemma CancelAllocations(c: Config, now: Time, s: State, aid: Id, reason: string, cid: Id, t: State)
    requires AllocationInv(s) && Cancellable(s, aid) && t == Cancel(c, s, aid, reason, now, cid)
    ensures AllocationInv(t)
  {
    UniqueFrame(s.allocations, t.allocations);
    assert AllocationWell(s.allocations[aid]) && PlacedOne(s.allocations[aid], s.workers);
  }

  lemma CancelCommands(c: Config, now: Time, s: State, aid: Id, reason: string, cid: Id, t: State)
    requires CommandInv(s) && Cancellable(s, aid) && s.commands.Keys <= s.issued && cid !in s.issued
    requires s.allocations[aid].worker.value in s.workers && t == Cancel(c, s, aid, reason, now, cid)
    ensures CommandInv(t)
  {
    CancelSound(c, now, s, aid, reason, cid, t);
    assert Pending(t.commands, CancelRoom, Some(aid), s.allocations[aid].worker.value, cid);
    CancelDrains(s, aid, cid, t);
    CancelCommanded(s, aid, cid, t);
  }

  lemma CancelSound(c: Config, now: Time, s: State, aid: Id, reason: string, cid: Id, t: State)
    requires CommandsSound(s.allocations, s.workers, s.commands) && CommandsUnique(s.commands) && cid !in s.commands
    requires Cancellable(s, aid) && s.allocations[aid].worker.value in s.workers && t == Cancel(c, s, aid, reason, now, cid)
    ensures CommandsSound(t.allocations, t.workers, t.commands) && CommandsUnique(t.commands)
  {
    var cs := WithdrawPrepares(s.commands, aid);
    forall k | Undone(cs, k) ensures cs[k] == s.commands[k] && Undone(s.commands, k) && cs[k].allocation != Some(aid) {
      assert CommandSound(s.allocations, s.workers, s.commands[k]);
    }
    AddCommandUnique(cs, cid, t.commands[cid]);
    forall k | Undone(t.commands, k) ensures CommandSound(t.allocations, t.workers, t.commands[k]) {
      if k != cid {
        assert Undone(cs, k);
        assert CommandSound(s.allocations, s.workers, s.commands[k]);
      }
    }
  }

  /** What a cancellation leaves of the commands: all but the withdrawn ones. */
  ghost predicate Withdrawn(s: State, aid: Id, cid: Id, t: State) {
    && cid !in s.commands && cid in t.commands
    && (forall k | k in s.commands && s.commands[k].allocation != Some(aid) :: k in t.commands && t.commands[k] == s.commands[k])
  }

  lemma CancelDrains(s: State, aid: Id, cid: Id, t: State)
    requires DrainsCommanded(s.workers, s.commands) && CommandsSound(s.allocations, s.workers, s.commands) && Withdrawn(s, aid, cid, t) && t.workers == s.workers
    ensures DrainsCommanded(t.workers, t.commands)
  {
    forall w | w in t.workers && AwaitsDrain(t.workers[w]) ensures HasPending(t.commands, Drain, None, w) {
      PendingFrame(s.commands, t.commands, Drain, None, w);
    }
  }

  lemma CancelCommanded(s: State, aid: Id, cid: Id, t: State)
    requires RoomsCommanded(s.allocations, s.commands) && Withdrawn(s, aid, cid, t) && Cancellable(s, aid)
    requires aid in t.allocations && t.allocations == s.allocations[aid := t.allocations[aid]] && t.allocations[aid].state.Cancelling? && t.allocations[aid].worker == s.allocations[aid].worker
    requires Pending(t.commands, CancelRoom, Some(aid), s.allocations[aid].worker.value, cid)
    ensures RoomsCommanded(t.allocations, t.commands)
  {
    forall a | a in t.allocations && t.allocations[a].worker.Some? ensures RoomCommanded(a, t.allocations[a], t.commands) {
      if a != aid {
        RoomFrame(a, s.allocations[a], s.commands, t.allocations[a], t.commands);
      }
    }
  }

  // ---- Command outcomes ----------------------------------------------------------------

  /** A room command succeeds: it is done and its allocation leaves the commanded phase. */
  ghost predicate Fulfilled(s: State, cid: Id, b: Allocation, t: State) {
    && Undone(s.commands, cid) && !s.commands[cid].kind.Drain? && s.commands[cid].allocation.Some?
    && var aid := s.commands[cid].allocation.value;
    && aid in s.allocations && SameRequest(s.allocations[aid], b) && b.worker == s.allocations[aid].worker
    && !b.state.Preparing? && !b.state.Cancelling? && !b.state.Waiting?
    && t == s.(commands := s.commands[cid := s.commands[cid].(done := true)], allocations := s.allocations[aid := b])
  }

  lemma FulfilKeeps(c: Config, s: State, cid: Id, b: Allocation, t: State)
    requires Inv(c, s) && Fulfilled(s, cid, b, t) && AllocationWell(b)
    ensures Inv(c, t)
  {
    assert CommandSound(s.allocations, s.workers, s.commands[cid]);
    FulfilAllocations(s, cid, b, t);
    RoomsFitFrame(s.allocations, t.allocations, s.workers);
    FulfilCommands(s, cid, b, t);
  }

  lemma FulfilAllocations(s: State, cid: Id, b: Allocation, t: State)
    requires AllocationInv(s) && Fulfilled(s, cid, b, t) && AllocationWell(b)
    requires CommandSound(s.allocations, s.workers, s.commands[cid])
    ensures AllocationInv(t)
  {
    UniqueFrame(s.allocations, t.allocations);
    FulfilPlaced(s, cid, b, t);
  }

  lemma FulfilPlaced(s: State, cid: Id, b: Allocation, t: State)
    requires Placed(s.allocations, s.workers) && Fulfilled(s, cid, b, t)
    requires CommandSound(s.allocations, s.workers, s.commands[cid])
    ensures Placed(t.allocations, t.workers)
  {
    var aid := s.commands[cid].allocation.value;
    assert PlacedOne(s.allocations[aid], s.workers);
    forall a | a in t.allocations && !Terminal(t.allocations[a].state) ensures PlacedOne(t.allocations[a], t.workers) {
      assert a != aid ==> PlacedOne(s.allocations[a], s.workers);
    }
  }

  lemma FulfilCommands(s: State, cid: Id, b: Allocation, t: State)
    requires CommandInv(s) && Fulfilled(s, cid, b, t)
    ensures CommandInv(t)
  {
    FulfilSound(s, cid, b, t);
    var aid := s.commands[cid].allocation.value;
    forall w | w in t.workers && AwaitsDrain(t.workers[w]) ensures HasPending(t.commands, Drain, None, w) {
      PendingFrame(s.commands, t.commands, Drain, None, w);
    }
    forall a | a in t.allocations && t.allocations[a].worker.Some? ensures RoomCommanded(a, t.allocations[a], t.commands) {
      if a != aid {
        RoomFrame(a, s.allocations[a], s.commands, t.allocations[a], t.commands);
      }
    }
  }

  lemma FulfilSound(s: State, cid: Id, b: Allocation, t: State)
    requires CommandsSound(s.allocations, s.workers, s.commands) && CommandsUnique(s.commands) && Fulfilled(s, cid, b, t)
    ensures CommandsSound(t.allocations, t.workers, t.commands) && CommandsUnique(t.commands)
  {
    assert CommandSound(s.allocations, s.workers, s.commands[cid]);
    forall k | Undone(t.commands, k) ensures CommandSound(t.allocations, t.workers, t.commands[k]) {
      assert CommandSound(s.allocations, s.workers, s.commands[k]);
      assert !SameTarget(s.commands[k], s.commands[cid]);
    }
  }

  lemma RetryKeeps(c: Config, now: Time, s: State, cid: Id, newCid: Id, t: State)
    requires Inv(c, s) && Undone(s.commands, cid) && !s.commands[cid].kind.PrepareRoom? && newCid !in s.issued
    requires t == s.(commands := s.commands[cid := s.commands[cid].(done := true)][newCid := RetryOf(s.commands[cid], now)], issued := s.issued + {newCid})
    ensures Inv(c, t)
  {
    RetrySound(s, cid, newCid, now, t);
    RetryCommanded(s, cid, newCid, now, t);
  }

  lemma RetrySound(s: State, cid: Id, newCid: Id, now: Time, t: State)
    requires CommandsSound(s.allocations, s.workers, s.commands) && CommandsUnique(s.commands) && Undone(s.commands, cid) && !s.commands[cid].kind.PrepareRoom? && newCid !in s.commands
    requires t.allocations == s.allocations && t.workers == s.workers
    requires t.commands == s.commands[cid := s.commands[cid].(done := true)][newCid := RetryOf(s.commands[cid], now)]
    ensures CommandsSound(t.allocations, t.workers, t.commands) && CommandsUnique(t.commands)
  {
    var cs := s.commands[cid := s.commands[cid].(done := true)];
    AddCommandUnique(cs, newCid, t.commands[newCid]);
    assert CommandSound(s.allocations, s.workers, s.commands[cid]);
    forall k | Undone(t.commands, k) ensures CommandSound(t.allocations, t.workers, t.commands[k]) {
      if k != newCid {
        assert CommandSound(s.allocations, s.workers, s.commands[k]);
      }
    }
  }

  /** A retry takes the place of the command it repeats. */
  lemma RetryPending(cs: Commands, cid: Id, newCid: Id, now: Time, kind: CommandKind, aid: Option<Id>, wid: Id)
    requires Undone(cs, cid) && newCid !in cs && HasPending(cs, kind, aid, wid)
    ensures HasPending(cs[cid := cs[cid].(done := true)][newCid := RetryOf(cs[cid], now)], kind, aid, wid)
  {
    var bs := cs[cid := cs[cid].(done := true)][newCid := RetryOf(cs[cid], now)];
    var k :| Pending(cs, kind, aid, wid, k);
    assert Pending(bs, kind, aid, wid, if k == cid then newCid else k);
  }

  lemma RetryCommanded(s: State, cid: Id, newCid: Id, now: Time, t: State)
    requires RoomsCommanded(s.allocations, s.commands) && DrainsCommanded(s.workers, s.commands) && Undone(s.commands, cid) && newCid !in s.commands
    requires t.allocations == s.allocations && t.workers == s.workers
    requires t.commands == s.commands[cid := s.commands[cid].(done := true)][newCid := RetryOf(s.commands[cid], now)]
    ensures RoomsCommanded(t.allocations, t.commands) && DrainsCommanded(t.workers, t.commands)
  {
    forall a | a in t.allocations && t.allocations[a].worker.Some? ensures RoomCommanded(a, t.allocations[a], t.commands) {
      var w := s.allocations[a].worker.value;
      assert RoomCommanded(a, s.allocations[a], s.commands);
      if t.allocations[a].state.Preparing? {
        RetryPending(s.commands, cid, newCid, now, PrepareRoom, Some(a), w);
      } else if t.allocations[a].state.Cancelling? {
        RetryPending(s.commands, cid, newCid, now, CancelRoom, Some(a), w);
      }
    }
    forall w | w in t.workers && AwaitsDrain(t.workers[w]) ensures HasPending(t.commands, Drain, None, w) {
      RetryPending(s.commands, cid, newCid, now, Drain, None, w);
    }
  }

  // ---- Pruning -------------------------------------------------------------------------

  lemma PruneAllocationKeeps(c: Config, s: State, aid: Id, t: State)
    requires Inv(c, s) && aid in s.allocations && Terminal(s.allocations[aid].state) && t == s.(allocations := s.allocations - {aid})
    ensures Inv(c, t)
  {
    UniqueFrame(s.allocations, t.allocations);
    RoomsFitFrame(s.allocations, t.allocations, s.workers);
    PruneAllocationCommands(s, aid, t);
  }

  lemma PruneAllocationCommands(s: State, aid: Id, t: State)
    requires CommandInv(s) && aid in s.allocations && Terminal(s.allocations[aid].state) && t == s.(allocations := s.allocations - {aid})
    ensures CommandInv(t)
  {
    forall k | Undone(t.commands, k) ensures CommandSound(t.allocations, t.workers, t.commands[k]) {
      assert CommandSound(s.allocations, s.workers, s.commands[k]);
    }
  }

  lemma PruneCommandKeeps(c: Config, s: State, cid: Id, t: State)
    requires Inv(c, s) && cid in s.commands && s.commands[cid].done && t == s.(commands := s.commands - {cid})
    ensures Inv(c, t)
  {
    PruneCommandCommands(s, cid, t);
  }

  lemma PruneCommandCommands(s: State, cid: Id, t: State)
    requires CommandInv(s) && cid in s.commands && s.commands[cid].done && t == s.(commands := s.commands - {cid})
    ensures CommandInv(t)
  {
    forall w | w in t.workers && AwaitsDrain(t.workers[w]) ensures HasPending(t.commands, Drain, None, w) {
      PendingFrame(s.commands, t.commands, Drain, None, w);
    }
    RoomsCommandedFrame(s.allocations, s.commands, t.commands);
  }

  ghost predicate Unused(s: State, wid: Id) {
    && wid in s.workers && !Counted(s.workers[wid])
    && forall a | a in s.allocations && !Terminal(s.allocations[a].state) ::
         s.allocations[a].worker != Some(wid) && s.allocations[a].preferred != Some(wid)
  }

  lemma PruneWorkerKeeps(c: Config, s: State, wid: Id, t: State)
    requires Inv(c, s) && Unused(s, wid) && t == s.(workers := s.workers - {wid}, commands := OtherCommands(s.commands, wid))
    ensures Inv(c, t)
  {
    PruneWorkerAllocations(s, wid, t);
    LiveFrame(c, s.workers, t.workers);
    PruneWorkerCommands(s, wid, t);
  }

  lemma PruneWorkerAllocations(s: State, wid: Id, t: State)
    requires AllocationInv(s) && Unused(s, wid) && t == s.(workers := s.workers - {wid}, commands := OtherCommands(s.commands, wid))
    ensures AllocationInv(t)
  {
    forall a | a in t.allocations && !Terminal(t.allocations[a].state) ensures PlacedOne(t.allocations[a], t.workers) {
      assert PlacedOne(s.allocations[a], s.workers);
    }
  }

  lemma PruneWorkerCommands(s: State, wid: Id, t: State)
    requires CommandInv(s) && Unused(s, wid) && t == s.(workers := s.workers - {wid}, commands := OtherCommands(s.commands, wid))
    ensures CommandInv(t)
  {
    forall k | Undone(t.commands, k) ensures CommandSound(t.allocations, t.workers, t.commands[k]) {
      assert CommandSound(s.allocations, s.workers, s.commands[k]);
    }
    DrainsFrame(s.workers, s.commands, t.workers, t.commands, wid);
    forall a | a in t.allocations && t.allocations[a].worker.Some? ensures RoomCommanded(a, t.allocations[a], t.commands) {
      assert RoomCommanded(a, s.allocations[a], s.commands);
      if t.allocations[a].state.Preparing? || t.allocations[a].state.Cancelling? {
        assert t.allocations[a].worker != Some(wid);
        RoomFrame(a, s.allocations[a], s.commands, t.allocations[a], t.commands);
      }
    }
  }

  // ---- Every change, every transaction -------------------------------------------------

  lemma ApplyKeeps(c: Config, now: Time, s: State, op: Op)
    requires Inv(c, s) && Enabled(c, now, s, op)
    ensures Inv(c, Apply(c, now, s, op))
  {
    if op.SetLease? || op.SetCreation? {
    } else if op.EditWorker? || op.DrainWorker? || op.Close? || op.AddWorker? {
      WorkerOpsKeep(c, now, s, op);
    } else if op.AddAllocation? || op.CancelAllocation? || op.PlaceAllocation? {
      RoomOpsKeep(c, now, s, op);
    } else if op.RetryCommand? || op.AckDrain? {
      CommandOpsKeep(c, now, s, op);
    } else if op.PruneAllocation? || op.PruneCommand? || op.PruneWorker? {
      PruneOpsKeep(c, now, s, op);
    } else if op.MarkPrepared? || op.FinishCancel? {
      FulfilOpsKeep(c, now, s, op, op.cid);
    } else {
      EditOpsKeep(c, now, s, op, op.aid);
    }
  }

  lemma WorkerOpsKeep(c: Config, now: Time, s: State, op: Op)
    requires Inv(c, s) && Enabled(c, now, s, op) && (op.EditWorker? || op.DrainWorker? || op.Close? || op.AddWorker?)
    ensures Inv(c, Apply(c, now, s, op))
  {
    var t := Apply(c, now, s, op);
    match op {
      case EditWorker(wid, w) => WorkerEditKeeps(c, s, wid, w, t);
      case DrainWorker(wid, cid) => DrainKeeps(c, now, s, wid, cid, t);
      case Close(wid, stop) =>
        CloseKeeps(c, s, wid, if stop then Stopped else Lost, if stop then "server_stopped" else "server_lost", now, t);
      case AddWorker(wid, maxRooms) => AddWorkerKeeps(c, now, s, wid, maxRooms, t);
    }
  }

  lemma RoomOpsKeep(c: Config, now: Time, s: State, op: Op)
    requires Inv(c, s) && Enabled(c, now, s, op) && (op.AddAllocation? || op.CancelAllocation? || op.PlaceAllocation?)
    ensures Inv(c, Apply(c, now, s, op))
  {
    var t := Apply(c, now, s, op);
    match op {
      case AddAllocation(aid, a) => AddAllocationKeeps(c, s, aid, a, t);
      case CancelAllocation(aid, reason, cid) => CancelKeeps(c, now, s, aid, reason, cid, t);
      case PlaceAllocation(aid, wid, cid) => PlaceKeeps(c, now, s, aid, wid, cid, t);
    }
  }

  lemma CommandOpsKeep(c: Config, now: Time, s: State, op: Op)
    requires Inv(c, s) && Enabled(c, now, s, op) && (op.RetryCommand? || op.AckDrain?)
    ensures Inv(c, Apply(c, now, s, op))
  {
    var t := Apply(c, now, s, op);
    match op {
      case RetryCommand(cid, newCid) => RetryKeeps(c, now, s, cid, newCid, t);
      case AckDrain(cid) => AckKeeps(c, now, s, cid, t);
    }
  }

  lemma PruneOpsKeep(c: Config, now: Time, s: State, op: Op)
    requires Inv(c, s) && Enabled(c, now, s, op) && (op.PruneAllocation? || op.PruneCommand? || op.PruneWorker?)
    ensures Inv(c, Apply(c, now, s, op))
  {
    var t := Apply(c, now, s, op);
    match op {
      case PruneAllocation(aid) => PruneAllocationOpKeeps(c, now, s, aid);
      case PruneCommand(cid) => PruneCommandKeeps(c, s, cid, t);
      case PruneWorker(wid) => PruneWorkerOpKeeps(c, now, s, wid);
    }
  }

  lemma PruneAllocationOpKeeps(c: Config, now: Time, s: State, aid: Id)
    requires Inv(c, s) && Enabled(c, now, s, PruneAllocation(aid))
    ensures Inv(c, Apply(c, now, s, PruneAllocation(aid)))
  {
    PruneAllocationKeeps(c, s, aid, Apply(c, now, s, PruneAllocation(aid)));
  }

  lemma PruneWorkerOpKeeps(c: Config, now: Time, s: State, wid: Id)
    requires Inv(c, s) && Enabled(c, now, s, PruneWorker(wid))
    ensures Inv(c, Apply(c, now, s, PruneWorker(wid)))
  {
    PruneWorkerKeeps(c, s, wid, Apply(c, now, s, PruneWorker(wid)));
  }

  lemma FulfilOpsKeep(c: Config, now: Time, s: State, op: Op, cid: Id)
    requires Inv(c, s) && Enabled(c, now, s, op) && (op == MarkPrepared(cid) || op == FinishCancel(cid))
    ensures Inv(c, Apply(c, now, s, op))
  {
    var t := Apply(c, now, s, op);
    var aid := s.commands[cid].allocation.value;
    FulfilWell(s.allocations[aid], now);
    FulfilKeeps(c, s, cid, t.allocations[aid], t);
  }

  lemma FulfilWell(a: Allocation, now: Time)
    requires AllocationWell(a) && (a.state.Preparing? || a.state.Cancelling?)
    ensures a.state.Preparing? ==> AllocationWell(a.(state := Prepared, revision := a.revision + 1))
    ensures AllocationWell(Finish(a, EndPhase(a.error), a.error, now))
  {
  }

  lemma EditOpsKeep(c: Config, now: Time, s: State, op: Op, aid: Id)
    requires Inv(c, s) && Enabled(c, now, s, op) && EditOp(op) && op.aid == aid
    ensures Inv(c, Apply(c, now, s, op))
  {
    EditsQuietly(c, now, s, op, aid);
    AllocationEdit(c, s, aid, Apply(c, now, s, op).allocations[aid], Apply(c, now, s, op));
  }

  predicate EditOp(op: Op) {
    op.ReserveSeats? || op.Complete? || op.Activate? || op.SetSessions? || op.SetNotified?
  }

  lemma EditsQuietly(c: Config, now: Time, s: State, op: Op, aid: Id)
    requires AllocationsWell(s.allocations) && Enabled(c, now, s, op) && EditOp(op) && op.aid == aid
    ensures aid in s.allocations && aid in Apply(c, now, s, op).allocations
    ensures Apply(c, now, s, op) == s.(allocations := s.allocations[aid := Apply(c, now, s, op).allocations[aid]])
    ensures QuietEdit(s.allocations[aid], Apply(c, now, s, op).allocations[aid])
  {
    var a := s.allocations[aid];
    assert AllocationWell(a);
    match op {
      case ReserveSeats(_, r0, r1) => ReserveQuiet(c, a, now, r0, r1);
      case SetSessions(_, ss) => SessionsQuiet(a, ss);
      case Complete(_) => SmallEditsQuiet(a, now);
      case Activate(_) => SmallEditsQuiet(a, now);
      case SetNotified(_) => SmallEditsQuiet(a, now);
    }
  }

  lemma SmallEditsQuiet(a: Allocation, now: Time)
    requires AllocationWell(a)
    ensures QuietEdit(a, a.(notifiedRevision := a.revision))
    ensures a.state.Assigned? ==> QuietEdit(a, a.(state := Active, revision := a.revision + 1))
    ensures a.state.Assigned? || a.state.Active? ==> QuietEdit(a, Finish(a, Completed, "", now))
  {
  }

  lemma ReserveQuiet(c: Config, a: Allocation, now: Time, r0: Id, r1: Id)
    requires AllocationWell(a) && a.state.Prepared?
    ensures QuietEdit(a, Reserve(c, a, now, r0, r1))
  {
  }

  lemma SessionsQuiet(a: Allocation, ss: seq<Session>)
    requires AllocationWell(a) && |ss| == |a.sessions| && forall i | 0 <= i < |ss| :: SameSeat(a.sessions[i], ss[i])
    ensures QuietEdit(a, a.(sessions := ss))
  {
  }

  lemma {:induction false} ReplayKeeps(c: Config, now: Time, s: State, ops: seq<Op>, t: State)
    requires Inv(c, s) && Replay(c, now, s, ops) == Some(t)
    ensures Inv(c, t)
  {
    if ops != [] {
      var n := |ops| - 1;
      var m := Replay(c, now, s, ops[..n]).value;
      ReplayKeeps(c, now, s, ops[..n], m);
      ApplyKeeps(c, now, m, ops[n]);
    }
  }
}
