/** The transactional store with one method per transaction. A refused request leaves the
    state as it was; a committed one is a step the managers see as `Client` or `Tick`. */
module FleetStore {
  import opened Basics
  import opened FleetState
  import opened FleetOps
  import opened FleetInvariant
  import opened FleetPreserve
  import opened FleetHeartbeat
  import opened FleetProtocol
  import opened FleetReports
  import opened FleetRequests
  import opened FleetProvider
  import opened FleetProviderTable
  import FleetHeartbeatTable
  import FleetTick
  import opened FleetTickTable
  import FleetTickWhole
  import FleetPlacement

  class Store {
    var state: State

    constructor ()
      ensures state == EmptyState
    {
      state := EmptyState;
    }

    method Allocate(c: Config, users: seq<string>, key: RequestKey, now: Time) returns (r: Result<Id>)
      requires Inv(c, state) && KeyIssued(key, state.issued)
      modifies this
      ensures Allocates(c, old(state), users, key, now, r, state)
      ensures r.Done? && r.value !in old(state).allocations ==> Adds(c, old(state), state, r.value, users, key, None, now)
      ensures r.Rejected? || r.value in old(state).allocations ==> state == old(state)
      ensures ClientStep(c, now, old(state), state) && Inv(c, state)
    {
      ClientByNone(c, now, state);
      if !ValidUsers(users) || !ValidKey(key) {
        return Rejected(Invalid);
      }
      var found := FindAllocation(state.allocations, users, key);
      match found {
        case Clash(e) => r := Rejected(e);
        case Match(aid) => r := Done(aid);
        case Free =>
          var aid := FleetTick.NewId(state.issued);
          var room := FleetTick.NewId(state.issued + {aid});
          ghost var before := state;
          state := state.(allocations := state.allocations[aid := NewAllocation(c, users, key, room, None, now)], issued := state.issued + {aid, room});
          assert NewRoom(c, before, users, key, None, now, aid, room, state);
          NewRoomIsClient(c, before, users, key, now, aid, room, state);
          NewRoomAdds(c, before, users, key, None, now, aid, room, state);
          r := Done(aid);
      }
      assert AllocatesAs(c, old(state), users, key, now, found, r, state);
    }

    method Create(c: Config, maxPlayers: int, users: seq<string>, regions: seq<string>, now: Time) returns (r: Result<Id>)
      requires Inv(c, state)
      modifies this
      ensures Creates(c, old(state), maxPlayers, users, regions, now, r, state)
      ensures r.Done? ==> r.value in state.workers && NewRecord(c, state.workers[r.value], maxPlayers / 2, now)
      ensures r.Done? && users != [] ==> exists a :: a in state.allocations && Born(c, state.allocations[a], users, ForWorker(r.value), Some(r.value), now)
      ensures ClientStep(c, now, old(state), state) && Inv(c, state)
    {
      ClientByNone(c, now, state);
      if maxPlayers < 2 || maxPlayers % 2 != 0 || maxPlayers > 1024 || (users != [] && !ValidUsers(users)) {
        return Rejected(Invalid);
      }
      for i := 0 to |regions|
        invariant forall j | 0 <= j < i :: regions[j] == c.region
        invariant state == old(state)
      {
        if regions[i] != c.region {
          assert regions[i] in regions;
          return Rejected(Invalid);
        }
      }
      if maxPlayers > state.rooms * 2 {
        return Rejected(Busy);
      }
      var live := FleetTick.CountLive(state.workers);
      if live >= c.maxInstances || state.blocked {
        return Rejected(Busy);
      }
      r := CreateWorker(c, maxPlayers / 2, users, now);
    }

    method CreateWorker(c: Config, maxRooms: nat, users: seq<string>, now: Time) returns (r: Result<Id>)
      requires Inv(c, state) && |Live(state.workers)| < c.maxInstances && (users == [] || ValidUsers(users))
      modifies this
      ensures r.Done? ==>
                && r.value !in old(state).issued
                && var m := WithWorker(c, old(state), r.value, maxRooms, now);
                if users == [] then state == m
                else Finds(old(state).allocations, users, ForWorker(r.value), Free) && exists aid, room :: NewRoom(c, m, users, ForWorker(r.value), Some(r.value), now, aid, room, state)
      ensures r.Done? ==> r.value in state.workers && NewRecord(c, state.workers[r.value], maxRooms, now)
      ensures r.Done? && users != [] ==> exists a :: a in state.allocations && Born(c, state.allocations[a], users, ForWorker(r.value), Some(r.value), now)
      ensures r.Rejected? ==> users != [] && r == Rejected(Busy) && state == old(state)
      ensures r.Rejected? ==> exists a :: a in state.allocations && !Terminal(state.allocations[a].state) && Shares(users, state.allocations[a].users)
      ensures ClientStep(c, now, old(state), state) && Inv(c, state)
    {
      var wid := FleetTick.NewId(state.issued);
      var t := WithWorker(c, state, wid, maxRooms, now);
      WorkerReplays(c, state, wid, maxRooms, now);
      if users == [] {
        ClientByOps(c, now, state, [AddWorker(wid, maxRooms)], t);
      } else {
        var found := FindAllocation(t.allocations, users, ForWorker(wid));
        FreshKey(c, state, users, wid, found);
        if found.Clash? {
          ClientByNone(c, now, state);
          return Rejected(found.error);
        }
        var aid := FleetTick.NewId(t.issued);
        var room := FleetTick.NewId(t.issued + {aid});
        ghost var m := t;
        t := t.(allocations := t.allocations[aid := NewAllocation(c, users, ForWorker(wid), room, Some(wid), now)], issued := t.issued + {aid, room});
        assert NewRoom(c, m, users, ForWorker(wid), Some(wid), now, aid, room, t);
        CreateIsClient(c, state, wid, maxRooms, users, now, aid, room, t);
        NewRoomAdds(c, m, users, ForWorker(wid), Some(wid), now, aid, room, t);
      }
      state := t;
      r := Done(wid);
    }

    method Cancel(c: Config, user: string, aid: Id, now: Time) returns (r: Result<()>)
      requires Inv(c, state)
      modifies this
      ensures Cancels(c, old(state), user, aid, now, r, state)
      ensures r.Done? && Rank(old(state).allocations[aid].state) < 5 ==> CalledOff(c, old(state), state, aid, now)
      ensures ClientStep(c, now, old(state), state) && Inv(c, state)
    {
      if aid !in state.allocations {
        ClientByNone(c, now, state);
        return Rejected(NotFound);
      }
      var a := state.allocations[aid];
      if user !in a.users {
        ClientByNone(c, now, state);
        return Rejected(Forbidden);
      }
      if Terminal(a.state) || a.state.Cancelling? {
        ClientByNone(c, now, state);
        return Done(());
      }
      if a.state.Active? {
        ClientByNone(c, now, state);
        return Rejected(Busy);
      }
      assert Rank(a.state) < 5;
      CallOff(c, aid, now);
      r := Done(());
    }

    method CallOff(c: Config, aid: Id, now: Time)
      requires Inv(c, state) && aid in state.allocations && Rank(state.allocations[aid].state) < 5
      modifies this
      ensures exists cid :: cid !in old(state).issued && state == FleetOps.Cancel(c, old(state), aid, "cancelled", now, cid)
      ensures CalledOff(c, old(state), state, aid, now)
      ensures ClientStep(c, now, old(state), state) && Inv(c, state)
    {
      var t, cid := FleetTick.CancelInPlace(c, state, aid, "cancelled", now);
      CancelIsClient(c, now, state, aid, "cancelled", cid);
      CancelCallsOff(c, state, aid, now, cid);
      state := t;
    }

    method Join(c: Config, wid: Id, aid: Id, users: seq<string>, now: Time) returns (r: Result<seq<Session>>)
      requires Inv(c, state)
      modifies this
      ensures Joins(c, old(state), wid, aid, users, now, r, state)
      ensures r.Done? && old(state).allocations[aid].state == Prepared ==> SeatedBy(c, old(state), state, aid, now, r.value)
      ensures ClientStep(c, now, old(state), state) && Inv(c, state)
    {
      ClientByNone(c, now, state);
      if aid !in state.allocations || wid !in state.workers {
        return Rejected(NotFound);
      }
      var a := state.allocations[aid];
      assert AllocationWell(a);
      if a.worker != Some(wid) {
        return Rejected(Forbidden);
      }
      if !Eligible(c, state.workers[wid], now) {
        return Rejected(Busy);
      }
      if !SameUsers(a.users, users) {
        return Rejected(Forbidden);
      }
      if a.state.Assigned? || a.state.Active? {
        return Done(a.sessions);
      }
      if !a.state.Prepared? {
        return Rejected(Busy);
      }
      r := GiveSeats(c, aid, now);
    }

    method GiveSeats(c: Config, aid: Id, now: Time) returns (r: Result<seq<Session>>)
      requires Inv(c, state) && aid in state.allocations && state.allocations[aid].state == Prepared && |state.allocations[aid].users| == 2
      modifies this
      ensures exists r0, r1 :: state == Seat(c, old(state), aid, now, r0, r1) && r == Done(Reserve(c, old(state).allocations[aid], now, r0, r1).sessions)
      ensures r.Done? && SeatedBy(c, old(state), state, aid, now, r.value)
      ensures ClientStep(c, now, old(state), state) && Inv(c, state)
    {
      var r0 := FleetTick.NewId(state.issued);
      var r1 := FleetTick.NewId(state.issued + {r0});
      SeatIsClient(c, now, state, aid, r0, r1);
      SeatSeats(c, state, aid, now, r0, r1);
      state := Seat(c, state, aid, now, r0, r1);
      r := Done(state.allocations[aid].sessions);
    }

    /** `Update`: the player count an operator may set by hand. */
    method SetPlayers(c: Config, wid: Id, count: int, metadata: bool, now: Time) returns (r: Result<()>)
      requires Inv(c, state)
      modifies this
      ensures wid !in old(state).workers ==> r == Rejected(NotFound)
      ensures r.Done? <==> wid in old(state).workers && 0 <= count <= 2 * old(state).workers[wid].maxRooms && !metadata
      ensures state == if r.Done? then old(state).(workers := old(state).workers[wid := old(state).workers[wid].(playerCount := count)]) else old(state)
      ensures ClientStep(c, now, old(state), state) && Inv(c, state)
    {
      ClientByNone(c, now, state);
      if wid !in state.workers {
        return Rejected(NotFound);
      }
      var w := state.workers[wid];
      if count < 0 || count > w.maxRooms * 2 {
        return Rejected(Invalid);
      }
      if metadata {
        return Rejected(Invalid);
      }
      EditIsClient(c, now, state, wid, w.(playerCount := count));
      state := state.(workers := state.workers[wid := w.(playerCount := count)]);
      r := Done(());
    }

    method Drain(c: Config, wid: Id, now: Time) returns (r: Result<()>)
      requires Inv(c, state)
      modifies this
      ensures Drains(old(state), wid, false, now, r, state)
      ensures r.Done? && old(state).workers[wid].state != Stopped ==> DrainBegun(old(state), state, wid, now)
      ensures ClientStep(c, now, old(state), state) && Inv(c, state)
    {
      ClientByNone(c, now, state);
      if wid !in state.workers {
        return Rejected(NotFound);
      }
      if state.workers[wid].state.Stopped? {
        return Done(());
      }
      if !Serving(state.workers[wid].state) {
        return Rejected(Busy);
      }
      var cid := FleetTick.NewId(state.issued);
      DrainIsClient(c, now, state, wid, cid);
      DrainBegins(state, wid, now, cid);
      state := BeginDrain(state, wid, now, cid);
      r := Done(());
    }

    method Delete(c: Config, wid: Id, now: Time) returns (r: Result<()>)
      requires Inv(c, state)
      modifies this
      ensures Drains(old(state), wid, true, now, r, state)
      ensures r.Done? && old(state).workers[wid].state != Stopped ==> DrainBegun(old(state), state, wid, now)
      ensures ClientStep(c, now, old(state), state) && Inv(c, state)
    {
      ClientByNone(c, now, state);
      if wid !in state.workers {
        return Rejected(NotFound);
      }
      var w := state.workers[wid];
      if w.state.Stopped? {
        return Done(());
      }
      var occupied := FleetPlacement.CountOccupied(state.allocations, wid);
      if !Serving(w.state) || occupied > 0 || w.playerCount > 0 || !WorkFinished(w.metrics) {
        return Rejected(Busy);
      }
      var cid := FleetTick.NewId(state.issued);
      DrainIsClient(c, now, state, wid, cid);
      DrainBegins(state, wid, now, cid);
      state := BeginDrain(state, wid, now, cid);
      r := Done(());
    }

    /** `bootstrap`, after the token was checked. */
    method Bootstrap(c: Config, wid: Id, bootId: string, now: Time) returns (r: Result<()>)
      requires Inv(c, state)
      modifies this
      ensures Bootstraps(c, old(state), wid, bootId, now, r, state)
      ensures ClientStep(c, now, old(state), state) && Inv(c, state)
    {
      ClientByNone(c, now, state);
      if bootId == "" || |bootId| > 128 {
        return Rejected(Invalid);
      }
      if wid !in state.workers {
        return Rejected(NotFound);
      }
      var w := state.workers[wid];
      if w.state.Stopped? || w.state.Failed? || w.state.Lost? {
        return Rejected(Busy);
      }
      if (w.bootId == "" && now - w.createdAt > c.launchTimeout) || (w.bootId != "" && w.bootId != bootId) {
        return Rejected(Forbidden);
      }
      assert WorkerWell(w);
      EditIsClient(c, now, state, wid, w.(bootId := bootId));
      state := state.(workers := state.workers[wid := w.(bootId := bootId)]);
      r := Done(());
    }

    /** The heartbeat transaction, after the token was checked. */
    method Heartbeat(c: Config, h: Report, now: Time) returns (r: Result<seq<Id>>, ghost ds: seq<Draw>)
      requires Inv(c, state)
      modifies this
      ensures |ds| == |h.results|
      ensures match FleetHeartbeat.Heartbeat(c, now, old(state), h, ds)
              case Refused(e) => r == Rejected(e) && state == old(state)
              case Committed(t) => r.Done? && state == t && Answers(t.commands, h.worker, now, r.value)
      ensures h.worker in old(state).workers && h.sequence <= old(state).workers[h.worker].lastSequence ==> state == old(state)
      ensures r.Done? && h.sequence > old(state).workers[h.worker].lastSequence ==>
                FleetHeartbeatTable.ReportOutcomes(c, old(state), FleetHeartbeatTable.Resulted(c, now, old(state), h, ds), state, h, now)
      ensures ClientStep(c, now, old(state), state) && Inv(c, state)
    {
      ClientByNone(c, now, state);
      var out, ids;
      out, ids, ds := HeartbeatBody(c, now, state, h);
      if out.Refused? {
        return Rejected(out.error), ds;
      }
      HeartbeatIsClient(c, now, state, h, ds);
      if Accepts(state, h) {
        FleetHeartbeatTable.HeartbeatAgrees(c, now, state, h, ds);
      }
      state := out.state;
      r := Done(ids);
    }

    /** After both players were notified of a revision. */
    method MarkNotified(c: Config, aid: Id, revision: int, now: Time)
      requires Inv(c, state)
      modifies this
      ensures state == if aid in old(state).allocations && old(state).allocations[aid].revision == revision
                       then old(state).(allocations := old(state).allocations[aid := old(state).allocations[aid].(notifiedRevision := revision)])
                       else old(state)
      ensures ClientStep(c, now, old(state), state) && Inv(c, state)
    {
      ClientByNone(c, now, state);
      if aid in state.allocations && state.allocations[aid].revision == revision {
        var t := state.(allocations := state.allocations[aid := state.allocations[aid].(notifiedRevision := revision)]);
        SameWorkersQuiet(state, t);
        ClientByOne(c, now, state, SetNotified(aid));
        state := t;
      }
    }

    /** The transaction at the head of `Tick`. */
    method Tick(c: Config, owner: Id, now: Time) returns (ok: bool, ghost ops: seq<Op>)
      requires ValidConfig(c) && Inv(c, state)
      modifies this
      ensures ok <==> FleetTickWhole.LeaseFree(old(state), owner, now)
      ensures if ok then FleetTickWhole.TickDone(c, owner, old(state), state, now) else state == old(state)
      ensures Replays(c, now, old(state), ops, state) && Inv(c, state)
    {
      var t;
      t, ok, ops := FleetTickWhole.TickBody(c, state, owner, now);
      state := t;
    }

    method RenewLease(owner: Id, now: Time) returns (ok: bool)
      modifies this
      ensures ok <==> old(state).leader == Some(owner) && now < old(state).leaseUntil
      ensures ok <==> Holds(old(state), owner, now)
      ensures state == if ok then Extend(old(state), now) else old(state)
      ensures ok ==> state == old(state).(leaseUntil := now + 30)
    {
      if state.leader != Some(owner) || state.leaseUntil <= now {
        return false;
      }
      state := state.(leaseUntil := now + 30);
      return true;
    }

    /** When a manager's loop ends it gives its lease back. */
    method ReleaseLease(owner: Id)
      modifies this
      ensures state == if old(state).leader == Some(owner) then old(state).(leaseUntil := 0) else old(state)
    {
      if state.leader == Some(owner) {
        state := state.(leaseUntil := 0);
      }
    }

    method ClaimStart(owner: Id, wid: Id, now: Time) returns (ok: bool)
      requires Holds(state, owner, now) ==> wid in state.workers
      modifies this
      ensures ok <==> Holds(old(state), owner, now) && old(state).workers[wid].state.Requested?
      ensures state == if ok then StartClaim(old(state), wid, now) else old(state)
      ensures ok ==> old(state).leader == Some(owner) && now < old(state).leaseUntil
      ensures ok ==> state == old(state).(workers := old(state).workers[wid := old(state).workers[wid].(state := Starting, updatedAt := now)])
    {
      if state.leader != Some(owner) || state.leaseUntil <= now {
        return false;
      }
      var current := state.workers[wid];
      if !current.state.Requested? {
        return false;
      }
      current := current.(state := Starting);
      current := current.(updatedAt := now);
      state := Edited(state, wid, current);
      return true;
    }

    /** `providerLifetime` on the worker at hand, and whether creation is blocked by it. */
    method SetLifetime(c: Config, w: Worker, i: Instance, at: Time) returns (v: Worker, blocks: bool)
      ensures v == Lifetime(c, w, i, at) && blocks == ShortLived(c, i)
    {
      v, blocks := w, false;
      if i.ttl <= 0 {
        return;
      }
      var start := w.createdAt;
      if i.startedAt.Some? {
        start := i.startedAt.value;
      }
      v := v.(providerExpiresAt := start + i.ttl);
      if i.ttl <= c.minLifetime + c.launchTimeout {
        blocks := true;
        if v.state.Launching? || v.state.Bootstrapping? {
          v := v.(state := Stopping);
          v := v.(nextCheckAt := at);
        }
      }
    }

    method CommitStart(c: Config, owner: Id, wid: Id, out: StartOutcome, now: Time, at: Time)
      requires state.leader == Some(owner) ==> wid in state.workers
      modifies this
      ensures state == if Commits(old(state), owner, wid) then StartCommit(c, old(state), wid, out, now, at) else old(state)
      ensures Commits(old(state), owner, wid) ==> StartOutcomes(c, old(state), state, wid, out, now, at)
    {
      if state.leader != Some(owner) {
        return;
      }
      StartAgrees(c, state, wid, out, now, at);
      var current := state.workers[wid].(updatedAt := at);
      if !out.Started? {
        if out.Ambiguous? || out.Conflict? {
          current := current.(state := Unknown);
          current := current.(nextCheckAt := now + 1);
          if out.Conflict? {
            state := state.(blocked := true);
          }
        } else {
          current := current.(state := WorkerState.Failed);
          if out.review {
            state := state.(blocked := true);
          }
        }
        state := Edited(state, wid, current).(nextCreateAt := now + 15);
        return;
      }
      current := current.(providerId := Some(out.instance.id));
      current := current.(state := Launching);
      current := current.(nextCheckAt := at);
      var blocks;
      current, blocks := SetLifetime(c, current, out.instance, at);
      state := Edited(state, wid, current).(blocked := state.blocked || blocks);
    }

    method CommitReconcile(c: Config, owner: Id, wid: Id, out: ReconcileOutcome, now: Time, at: Time)
      modifies this
      ensures state == if old(state).leader == Some(owner) then ReconcileCommit(c, old(state), wid, out, now, at) else old(state)
      ensures old(state).leader == Some(owner) ==> ReconcileOutcomes(c, old(state), state, wid, out, now, at)
    {
      ReconcileAgrees(c, state, wid, out, now, at);
      if state.leader != Some(owner) || wid !in state.workers || !state.workers[wid].state.Unknown? {
        return;
      }
      var current := state.workers[wid].(nextCheckAt := now + c.pollSeconds);
      var blocks := out.StillUnknown? && out.review;
      if out.Recovered? {
        current := current.(providerId := Some(out.instance.id));
        current := current.(state := Launching);
        current := current.(nextCheckAt := now);
        current, blocks := SetLifetime(c, current, out.instance, at);
      }
      state := Edited(state, wid, current).(blocked := state.blocked || blocks);
    }

    method CommitPoll(c: Config, owner: Id, wid: Id, pid: Option<Id>, out: PollOutcome, now: Time, at: Time)
      requires state.leader == Some(owner) ==> wid in state.workers
      modifies this
      ensures state == if Commits(old(state), owner, wid) then PollCommit(c, old(state), wid, pid, out, now, at) else old(state)
      ensures Commits(old(state), owner, wid) && WorkerWell(old(state).workers[wid]) && Pollable(old(state).workers[wid].state) && old(state).workers[wid].providerId == pid ==>
                PollOutcomes(c, old(state), state, wid, out, now, at)
    {
      if state.leader != Some(owner) || state.workers[wid].providerId != pid {
        return;
      }
      if WorkerWell(state.workers[wid]) && Pollable(state.workers[wid].state) {
        PollAgrees(c, state, wid, pid, out, now, at);
      }
      RulePoll(c, wid, out, now, at);
    }

    method RulePoll(c: Config, wid: Id, out: PollOutcome, now: Time, at: Time)
      requires wid in state.workers
      modifies this
      ensures state == PollCommit(c, old(state), wid, old(state).workers[wid].providerId, out, now, at)
    {
      var verdict, blocks := JudgePoll(c, state.workers[wid], out, now, at);
      Obey(wid, verdict, now);
      state := state.(blocked := state.blocked || blocks);
    }

    /** What the answer of the provider makes of the worker. */
    method JudgePoll(c: Config, w: Worker, out: PollOutcome, now: Time, at: Time) returns (v: Verdict, blocks: bool)
      ensures v == PollWorker(c, w, out, now, at) && blocks == PollBlocks(c, out)
    {
      var current := w.(nextCheckAt := now + c.pollSeconds);
      if out.QueryFailed? {
        return Keep(current), false;
      }
      if out.Missing? {
        return End(current, true), false;
      }
      if out.Mismatch? || !out.instance.owned || !out.instance.sameBuild {
        return End(current, false), false;
      }
      current, blocks := SetLifetime(c, current, out.instance, at);
      v := JudgeFound(c, current, out.instance, now);
    }

    method JudgeFound(c: Config, w: Worker, i: Instance, now: Time) returns (v: Verdict)
      ensures v == PollFound(c, w, i, now)
    {
      var current := w;
      if current.state.Stopping? {
        return Keep(current);
      }
      if i.status.IsUnhealthy? {
        return Sick(current);
      }
      if !i.status.IsRunning? {
        current := current.(providerReady := false);
        if current.state.Ready? || current.state.Suspect? {
          current := current.(state := Suspect);
        }
        current := current.(host := "", port := 0);
      }
      if i.status.IsStopped? {
        return End(current, true);
      }
      if current.state.Lost? {
        return Keep(current);
      }
      if now - current.createdAt >= c.launchTimeout && (current.state.Launching? || current.state.Bootstrapping?) {
        return Keep(current.(state := Stopping, nextCheckAt := now));
      }
      if i.status.IsRunning? {
        current := Admit(c, current, i, now);
      }
      return Keep(current);
    }

    method Obey(wid: Id, v: Verdict, now: Time)
      requires wid in state.workers
      modifies this
      ensures state == Rule(old(state), wid, v, now)
    {
      state := Edited(state, wid, v.worker);
      match v
      case Keep(_) =>
      case End(_, gone) =>
        if gone {
          state := FleetTick.CloseInPlace(state, wid, Stopped, "server_stopped", now);
        } else {
          state := FleetTick.CloseInPlace(state, wid, Lost, "server_lost", now);
        }
      case Sick(_) =>
        state := FleetTick.CloseInPlace(state, wid, Lost, "server_lost", now);
        var current := state.workers[wid];
        state := Edited(state, wid, current.(state := Stopping, draining := false, nextCheckAt := now));
    }

    /** An instance that runs: its endpoint, and the state the last heartbeat gives it. */
    method Admit(c: Config, w: Worker, i: Instance, now: Time) returns (v: Worker)
      ensures v == SeenRunning(c, w, i, now)
    {
      v := w;
      if i.endpoint.None? {
        v := v.(host := "", port := 0, providerReady := false);
        if v.state.Ready? {
          v := v.(state := Suspect);
        }
        return;
      }
      v := v.(host := i.endpoint.value.0, port := i.endpoint.value.1, providerReady := true);
      if v.ready && v.bootId != "" && now - v.lastHeartbeat <= c.heartbeatTimeout {
        v := v.(state := if v.draining then Draining else Ready);
      } else if v.state.Launching? || v.state.Bootstrapping? {
        v := v.(state := Bootstrapping);
      } else if !v.draining {
        v := v.(state := Suspect);
      }
    }

    /** The recheck before a stop is issued. */
    method CheckStop(c: Config, owner: Id, wid: Id, pid: Option<Id>, now: Time) returns (ok: bool)
      ensures ok <==> Holds(state, owner, now) && StopAllowed(c, state, wid, pid, now)
      ensures ok <==>
              && state.leader == Some(owner) && now < state.leaseUntil && wid in state.workers
              && var w := state.workers[wid];
              && w.state == Stopping && w.providerId == pid
              && (w.draining ==> w.drainAck && Occupied(state.allocations, wid) == 0 && w.playerCount <= 0 && now <= w.lastHeartbeat + c.heartbeatTimeout
                                 && w.metrics.simulationPending == 0 && w.metrics.simulationActive == 0 && w.metrics.auditPending == 0
                                 && w.metrics.auditActive == 0 && w.metrics.pendingResults == 0)
    {
      if state.leader != Some(owner) || state.leaseUntil <= now {
        return false;
      }
      if wid !in state.workers || !state.workers[wid].state.Stopping? || state.workers[wid].providerId != pid {
        return false;
      }
      var current := state.workers[wid];
      var occupied := FleetPlacement.CountOccupied(state.allocations, wid);
      if current.draining && (!current.drainAck || occupied > 0 || current.playerCount > 0 || !WorkFinished(current.metrics) || now - current.lastHeartbeat > c.heartbeatTimeout) {
        return false;
      }
      return true;
    }

    method CommitStop(c: Config, owner: Id, wid: Id, gone: bool, now: Time)
      requires state.leader == Some(owner) ==> wid in state.workers
      modifies this
      ensures state == if Commits(old(state), owner, wid) then StopCommit(c, old(state), wid, gone, now) else old(state)
      ensures Commits(old(state), owner, wid) ==> StopOutcomes(c, old(state), state, wid, gone, now)
    {
      if state.leader != Some(owner) {
        return;
      }
      StopAgrees(c, state, wid, gone, now);
      var current := state.workers[wid].(nextCheckAt := now + c.pollSeconds);
      state := Edited(state, wid, current);
      if gone {
        state := FleetTick.CloseInPlace(state, wid, Stopped, "server_stopped", now);
      }
    }
  }

  lemma FreshKey(c: Config, s: State, users: seq<string>, wid: Id, found: Search)
    requires Inv(c, s) && wid !in s.issued && Finds(s.allocations, users, ForWorker(wid), found)
    ensures !found.Match? && (found.Clash? ==> found.error == Busy)
    ensures found.Clash? ==> exists a :: a in s.allocations && !Terminal(s.allocations[a].state) && Shares(users, s.allocations[a].users)
  {
    forall a | a in s.allocations ensures s.allocations[a].requestKey != ForWorker(wid) {
      assert KeyIssued(s.allocations[a].requestKey, s.issued);
    }
  }
}
