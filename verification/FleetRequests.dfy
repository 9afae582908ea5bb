/** The transactions of players, operators and game processes on the shared store: each runs
    on a copy of the state and either commits it or leaves the state alone. */
module FleetRequests {
  import opened Basics
  import opened FleetState
  import opened FleetOps
  import opened FleetInvariant
  import opened FleetPreserve
  import opened FleetHeartbeat
  import opened FleetProtocol
  import opened FleetReports
  import opened FleetTickTable

  datatype Result<T> = Done(value: T) | Rejected(error: Error)

  /** A step other managers see as a client transaction. */
  ghost predicate ClientStep(c: Config, now: Time, s: State, t: State) {
    Quiet(s, t) && exists ops :: Replays(c, now, s, ops, t)
  }

  lemma ClientByOps(c: Config, now: Time, s: State, ops: seq<Op>, t: State)
    requires Inv(c, s) && Quiet(s, t) && Replay(c, now, s, ops) == Some(t)
    ensures ClientStep(c, now, s, t) && Inv(c, t)
  {
    assert Replays(c, now, s, ops, t);
    ReplayKeeps(c, now, s, ops, t);
  }

  lemma ClientByOne(c: Config, now: Time, s: State, op: Op)
    requires Inv(c, s) && Enabled(c, now, s, op) && Quiet(s, Apply(c, now, s, op))
    ensures ClientStep(c, now, s, Apply(c, now, s, op)) && Inv(c, Apply(c, now, s, op))
  {
    ReplayOne(c, now, s, [], s, op);
    ClientByOps(c, now, s, [] + [op], Apply(c, now, s, op));
  }

  lemma ClientByNone(c: Config, now: Time, s: State)
    requires Inv(c, s)
    ensures ClientStep(c, now, s, s)
  {
    ClientByOps(c, now, s, [], s);
  }

  // ---- Looking up a request key ---------------------------------------------------------

  /** Two rosters with the same users, in any order. */
  predicate SameUsers(p: seq<string>, q: seq<string>) {
    multiset(p) == multiset(q)
  }

  predicate Shares(p: seq<string>, q: seq<string>) {
    exists u :: u in p && u in q
  }

  datatype Search = Match(aid: Id) | Clash(error: Error) | Free

  predicate Wrong(a: Allocation, users: seq<string>, key: RequestKey) {
    a.requestKey == key && !SameUsers(a.users, users)
  }

  predicate Playing(a: Allocation, users: seq<string>, key: RequestKey) {
    a.requestKey != key && !Terminal(a.state) && Shares(users, a.users)
  }

  /** Every answer the scan may give, whatever order it visits the allocations in. */
  ghost predicate Finds(rooms: Allocations, users: seq<string>, key: RequestKey, found: Search) {
    match found
    case Match(aid) => aid in rooms && rooms[aid].requestKey == key && SameUsers(rooms[aid].users, users)
    case Clash(e) =>
      || (e == Forbidden && exists a :: a in rooms && Wrong(rooms[a], users, key))
      || (e == Busy && exists a :: a in rooms && Playing(rooms[a], users, key))
    case Free => forall a | a in rooms :: rooms[a].requestKey != key && (Terminal(rooms[a].state) || !Shares(users, rooms[a].users))
  }

  /** A retry with the key and roster of an unfinished allocation finds that allocation. */
  lemma RetryFindsTheAllocation(c: Config, s: State, users: seq<string>, key: RequestKey, aid: Id, found: Search)
    requires Inv(c, s) && aid in s.allocations && s.allocations[aid].requestKey == key
    requires !Terminal(s.allocations[aid].state) && SameUsers(users, s.allocations[aid].users)
    requires Finds(s.allocations, users, key, found)
    ensures found == Match(aid)
  {
    forall u ensures u in users <==> u in s.allocations[aid].users {
      assert u in users <==> u in multiset(users);
    }
    forall b | b in s.allocations ensures !Wrong(s.allocations[b], users, key) && !Playing(s.allocations[b], users, key) {
      if b != aid && !Terminal(s.allocations[b].state) {
        assert Disjoint(s.allocations[aid].users, s.allocations[b].users);
      }
    }
  }

  /** A retry after the allocation ended: the scan may answer with it, and may answer `Busy`
      exactly when one of the users is meanwhile in another unfinished allocation. */
  lemma RetryAnswers(c: Config, s: State, users: seq<string>, key: RequestKey, aid: Id, found: Search)
    requires Inv(c, s) && aid in s.allocations && s.allocations[aid].requestKey == key && SameUsers(users, s.allocations[aid].users)
    ensures Finds(s.allocations, users, key, found) <==>
            found == Match(aid) || (found == Clash(Busy) && exists b :: b in s.allocations && Playing(s.allocations[b], users, key))
  {
    assert forall b | b in s.allocations && b != aid :: s.allocations[b].requestKey != key;
  }

  /** A key in use never makes a second allocation. */
  lemma UsedKeyIsNotFree(rooms: Allocations, users: seq<string>, key: RequestKey, aid: Id, found: Search)
    requires aid in rooms && rooms[aid].requestKey == key && Finds(rooms, users, key, found)
    ensures !found.Free?
  {
  }

  method FindShared(users: seq<string>, others: seq<string>) returns (shared: bool)
    ensures shared == Shares(users, others)
  {
    shared := false;
    for i := 0 to |users|
      invariant forall j | 0 <= j < i :: users[j] !in others
    {
      if users[i] in others {
        return true;
      }
    }
  }

  method FindAllocation(rooms: Allocations, users: seq<string>, key: RequestKey) returns (found: Search)
    ensures Finds(rooms, users, key, found)
  {
    var todo := rooms.Keys;
    while todo != {}
      invariant todo <= rooms.Keys
      invariant forall a | a in rooms && a !in todo :: rooms[a].requestKey != key && (Terminal(rooms[a].state) || !Shares(users, rooms[a].users))
    {
      var a :| a in todo;
      todo := todo - {a};
      if rooms[a].requestKey == key {
        if !SameUsers(rooms[a].users, users) {
          assert Wrong(rooms[a], users, key);
          return Clash(Forbidden);
        }
        return Match(a);
      }
      if !Terminal(rooms[a].state) {
        var shared := FindShared(users, rooms[a].users);
        if shared {
          assert Playing(rooms[a], users, key);
          return Clash(Busy);
        }
      }
    }
    return Free;
  }

  predicate ValidKey(key: RequestKey) {
    key.Named? ==> 0 < |key.text| <= 256
  }

  /** What `Allocate` may do: refuse, find, or create. */
  ghost predicate Allocates(c: Config, s: State, users: seq<string>, key: RequestKey, now: Time, r: Result<Id>, t: State) {
    if !ValidUsers(users) || !ValidKey(key) then r == Rejected(Invalid) && t == s
    else exists found :: Finds(s.allocations, users, key, found) && AllocatesAs(c, s, users, key, now, found, r, t)
  }

  ghost predicate AllocatesAs(c: Config, s: State, users: seq<string>, key: RequestKey, now: Time, found: Search, r: Result<Id>, t: State) {
    match found
    case Clash(e) => r == Rejected(e) && t == s
    case Match(aid) => r == Done(aid) && t == s
    case Free => exists room :: r.Done? && NewRoom(c, s, users, key, None, now, r.value, room, t)
  }

  ghost predicate NewRoom(c: Config, s: State, users: seq<string>, key: RequestKey, preferred: Option<Id>, now: Time, aid: Id, room: Id, t: State) {
    && aid !in s.issued && room !in s.issued && room != aid
    && t == s.(allocations := s.allocations[aid := NewAllocation(c, users, key, room, preferred, now)], issued := s.issued + {aid, room})
  }

  /** Retrying an allocation is idempotent: the same answer and no change while it is unfinished. */
  lemma AllocateRetries(c: Config, s: State, users: seq<string>, key: RequestKey, now: Time, r: Result<Id>, t: State, aid: Id)
    requires Inv(c, s) && Allocates(c, s, users, key, now, r, t) && ValidUsers(users) && ValidKey(key)
    requires aid in s.allocations && s.allocations[aid].requestKey == key && SameUsers(users, s.allocations[aid].users)
    ensures t == s
    ensures !Terminal(s.allocations[aid].state) ==> r == Done(aid)
  {
    var found :| Finds(s.allocations, users, key, found) && AllocatesAs(c, s, users, key, now, found, r, t);
    UsedKeyIsNotFree(s.allocations, users, key, aid, found);
    if !Terminal(s.allocations[aid].state) {
      RetryFindsTheAllocation(c, s, users, key, aid, found);
    }
  }

  lemma NewRoomReplays(c: Config, s: State, users: seq<string>, key: RequestKey, preferred: Option<Id>, now: Time, aid: Id, room: Id, t: State)
    requires NewRoom(c, s, users, key, preferred, now, aid, room, t) && ValidUsers(users) && KeyIssued(key, s.issued)
    requires Finds(s.allocations, users, key, Free) && (preferred.Some? ==> preferred.value in s.workers)
    ensures Enabled(c, now, s, AddAllocation(aid, NewAllocation(c, users, key, room, preferred, now)))
    ensures t == Apply(c, now, s, AddAllocation(aid, NewAllocation(c, users, key, room, preferred, now)))
  {
    forall b, u | b in s.allocations && u in s.allocations[b].users && u in users ensures Terminal(s.allocations[b].state) {
      assert Shares(users, s.allocations[b].users);
    }
  }

  // ---- What the other requests may do ------------------------------------------------------

  /** `Cancel`: only a member of the roster, and not while the room is active. */
  ghost predicate Cancels(c: Config, s: State, user: string, aid: Id, now: Time, r: Result<()>, t: State) {
    if aid !in s.allocations then r == Rejected(NotFound) && t == s
    else
      var a := s.allocations[aid];
      if user !in a.users then r == Rejected(Forbidden) && t == s
      else if Terminal(a.state) || a.state.Cancelling? then r == Done(()) && t == s
      else if a.state.Active? then r == Rejected(Busy) && t == s
      else r == Done(()) && exists cid :: cid !in s.issued && t == Cancel(c, s, aid, "cancelled", now, cid)
  }

  function Seat(c: Config, s: State, aid: Id, now: Time, r0: Id, r1: Id): State
    requires aid in s.allocations && |s.allocations[aid].users| == 2
  {
    s.(allocations := s.allocations[aid := Reserve(c, s.allocations[aid], now, r0, r1)])
  }

  /** `Join`: gives seats once; a second call finds them. */
  ghost predicate Joins(c: Config, s: State, wid: Id, aid: Id, users: seq<string>, now: Time, r: Result<seq<Session>>, t: State) {
    if aid !in s.allocations || wid !in s.workers then r == Rejected(NotFound) && t == s
    else
      var a := s.allocations[aid];
      if a.worker != Some(wid) then r == Rejected(Forbidden) && t == s
      else if !Eligible(c, s.workers[wid], now) then r == Rejected(Busy) && t == s
      else if !SameUsers(a.users, users) then r == Rejected(Forbidden) && t == s
      else if a.state.Assigned? || a.state.Active? then r == Done(a.sessions) && t == s
      else if !a.state.Prepared? then r == Rejected(Busy) && t == s
      else |a.users| == 2 && exists r0, r1 :: t == Seat(c, s, aid, now, r0, r1) && r == Done(Reserve(c, a, now, r0, r1).sessions)
  }

  ghost predicate BeginsDrain(s: State, wid: Id, now: Time, t: State) {
    wid in s.workers && exists cid :: cid !in s.issued && t == BeginDrain(s, wid, now, cid)
  }

  /** `Drain` and, when `empty` is asked for, `Delete`. */
  ghost predicate Drains(s: State, wid: Id, empty: bool, now: Time, r: Result<()>, t: State) {
    if wid !in s.workers then r == Rejected(NotFound) && t == s
    else
      var w := s.workers[wid];
      if w.state.Stopped? then r == Done(()) && t == s
      else if !Serving(w.state) then r == Rejected(Busy) && t == s
      else if empty && (Occupied(s.allocations, wid) > 0 || w.playerCount > 0 || !WorkFinished(w.metrics)) then r == Rejected(Busy) && t == s
      else r == Done(()) && BeginsDrain(s, wid, now, t)
  }

  /** `bootstrap`: the first process to come binds the worker, for good. */
  ghost predicate Bootstraps(c: Config, s: State, wid: Id, bootId: string, now: Time, r: Result<()>, t: State) {
    if bootId == "" || |bootId| > 128 then r == Rejected(Invalid) && t == s
    else if wid !in s.workers then r == Rejected(NotFound) && t == s
    else
      var w := s.workers[wid];
      if w.state.Stopped? || w.state.Failed? || w.state.Lost? then r == Rejected(Busy) && t == s
      else if (w.bootId == "" && now - w.createdAt > c.launchTimeout) || (w.bootId != "" && w.bootId != bootId) then r == Rejected(Forbidden) && t == s
      else r == Done(()) && t == s.(workers := s.workers[wid := w.(bootId := bootId)])
  }

  /** `Create`: a worker, and with two users their room on that worker, or nothing at all. */
  ghost predicate Creates(c: Config, s: State, maxPlayers: int, users: seq<string>, regions: seq<string>, now: Time, r: Result<Id>, t: State) {
    if maxPlayers < 2 || maxPlayers % 2 != 0 || maxPlayers > 1024 || (users != [] && !ValidUsers(users)) || (exists x :: x in regions && x != c.region) then
      r == Rejected(Invalid) && t == s
    else if maxPlayers > s.rooms * 2 || |Live(s.workers)| >= c.maxInstances || s.blocked then
      r == Rejected(Busy) && t == s
    else if r.Done? then
      && r.value !in s.issued
      && var m := WithWorker(c, s, r.value, maxPlayers / 2, now);
      if users == [] then t == m
      else Finds(s.allocations, users, ForWorker(r.value), Free) && exists aid, room :: NewRoom(c, m, users, ForWorker(r.value), Some(r.value), now, aid, room, t)
    else users != [] && r == Rejected(Busy) && t == s && exists a :: a in s.allocations && !Terminal(s.allocations[a].state) && Shares(users, s.allocations[a].users)
  }

  function WithWorker(c: Config, s: State, wid: Id, maxRooms: nat, now: Time): State {
    s.(workers := s.workers[wid := NewWorker(c, now, maxRooms)], issued := s.issued + {wid})
  }

  // ---- Why they are client transactions ----------------------------------------------------

  lemma SameWorkersQuiet(s: State, t: State)
    requires t.workers == s.workers && t.leader == s.leader && t.leaseUntil == s.leaseUntil
    ensures Quiet(s, t)
  {
  }

  lemma EditQuiet(s: State, wid: Id, w: Worker)
    requires wid in s.workers && QuietWorker(s.workers[wid], w)
    ensures Quiet(s, s.(workers := s.workers[wid := w]))
  {
  }

  lemma CancelIsClient(c: Config, now: Time, s: State, aid: Id, reason: string, cid: Id)
    requires Inv(c, s) && aid in s.allocations && cid !in s.issued
    ensures ClientStep(c, now, s, Cancel(c, s, aid, reason, now, cid)) && Inv(c, Cancel(c, s, aid, reason, now, cid))
  {
    SameWorkersQuiet(s, Cancel(c, s, aid, reason, now, cid));
    ClientByOne(c, now, s, CancelAllocation(aid, reason, cid));
  }

  lemma DrainIsClient(c: Config, now: Time, s: State, wid: Id, cid: Id)
    requires Inv(c, s) && wid in s.workers && Serving(s.workers[wid].state) && cid !in s.issued
    ensures ClientStep(c, now, s, BeginDrain(s, wid, now, cid)) && Inv(c, BeginDrain(s, wid, now, cid))
  {
    var w := s.workers[wid];
    assert WorkerWell(w);
    if w.draining {
      ClientByNone(c, now, s);
    } else {
      EditQuiet(s, wid, w.(draining := true, state := Draining, updatedAt := now));
      ClientByOne(c, now, s, DrainWorker(wid, cid));
    }
  }

  lemma SeatIsClient(c: Config, now: Time, s: State, aid: Id, r0: Id, r1: Id)
    requires Inv(c, s) && aid in s.allocations && s.allocations[aid].state.Prepared? && |s.allocations[aid].users| == 2
    ensures ClientStep(c, now, s, Seat(c, s, aid, now, r0, r1)) && Inv(c, Seat(c, s, aid, now, r0, r1))
  {
    SameWorkersQuiet(s, Seat(c, s, aid, now, r0, r1));
    ClientByOne(c, now, s, ReserveSeats(aid, r0, r1));
  }

  lemma EditIsClient(c: Config, now: Time, s: State, wid: Id, w: Worker)
    requires Inv(c, s) && WorkerEdit(s, wid, w) && QuietWorker(s.workers[wid], w)
    ensures ClientStep(c, now, s, s.(workers := s.workers[wid := w])) && Inv(c, s.(workers := s.workers[wid := w]))
  {
    EditQuiet(s, wid, w);
    ClientByOne(c, now, s, EditWorker(wid, w));
  }

  lemma NewRoomIsClient(c: Config, s: State, users: seq<string>, key: RequestKey, now: Time, aid: Id, room: Id, t: State)
    requires Inv(c, s) && NewRoom(c, s, users, key, None, now, aid, room, t) && ValidUsers(users) && KeyIssued(key, s.issued) && Finds(s.allocations, users, key, Free)
    ensures ClientStep(c, now, s, t) && Inv(c, t)
  {
    NewRoomReplays(c, s, users, key, None, now, aid, room, t);
    SameWorkersQuiet(s, t);
    ClientByOne(c, now, s, AddAllocation(aid, NewAllocation(c, users, key, room, None, now)));
  }

  lemma WorkerReplays(c: Config, s: State, wid: Id, maxRooms: nat, now: Time)
    requires Inv(c, s) && wid !in s.issued && |Live(s.workers)| < c.maxInstances
    ensures Replay(c, now, s, [AddWorker(wid, maxRooms)]) == Some(WithWorker(c, s, wid, maxRooms, now))
    ensures Quiet(s, WithWorker(c, s, wid, maxRooms, now)) && Inv(c, WithWorker(c, s, wid, maxRooms, now))
  {
    ReplayOne(c, now, s, [], s, AddWorker(wid, maxRooms));
    assert [] + [AddWorker(wid, maxRooms)] == [AddWorker(wid, maxRooms)];
    ReplayKeeps(c, now, s, [AddWorker(wid, maxRooms)], WithWorker(c, s, wid, maxRooms, now));
  }

  lemma CreateIsClient(c: Config, s: State, wid: Id, maxRooms: nat, users: seq<string>, now: Time, aid: Id, room: Id, t: State)
    requires Inv(c, s) && wid !in s.issued && |Live(s.workers)| < c.maxInstances && ValidUsers(users)
    requires Finds(s.allocations, users, ForWorker(wid), Free)
    requires NewRoom(c, WithWorker(c, s, wid, maxRooms, now), users, ForWorker(wid), Some(wid), now, aid, room, t)
    ensures ClientStep(c, now, s, t) && Inv(c, t)
  {
    var m := WithWorker(c, s, wid, maxRooms, now);
    WorkerReplays(c, s, wid, maxRooms, now);
    NewRoomReplays(c, m, users, ForWorker(wid), Some(wid), now, aid, room, t);
    var op := AddAllocation(aid, NewAllocation(c, users, ForWorker(wid), room, Some(wid), now));
    ReplayOne(c, now, s, [AddWorker(wid, maxRooms)], m, op);
    assert Quiet(s, t);
    ClientByOps(c, now, s, [AddWorker(wid, maxRooms)] + [op], t);
  }

  lemma HeartbeatIsClient(c: Config, now: Time, s: State, h: Report, ds: seq<Draw>)
    requires Inv(c, s) && |ds| == |h.results| && ReportDraws(c, now, s, h, ds) && Heartbeat(c, now, s, h, ds).Committed?
    ensures ClientStep(c, now, s, Heartbeat(c, now, s, h, ds).state) && Inv(c, Heartbeat(c, now, s, h, ds).state)
  {
    HeartbeatIsQuiet(c, now, s, h, ds);
    var ops := HeartbeatReplays(c, now, s, h, ds);
    ClientByOps(c, now, s, ops, Heartbeat(c, now, s, h, ds).state);
  }

  // ---- What the requests leave, over raw fields -------------------------------------------------

  /** A new allocation: waiting, with its deadline ahead. */
  predicate Born(c: Config, a: Allocation, users: seq<string>, key: RequestKey, preferred: Option<Id>, now: Time) {
    && a.requestKey == key && a.users == users && a.preferred == preferred && a.worker == None
    && a.state == Waiting && a.epoch == 1 && a.revision == 1 && a.notifiedRevision == 0
    && a.createdAt == now && a.expiresAt == now + c.allocationTimeout && a.terminalAt == 0
    && a.sessions == [] && a.error == ""
  }

  /** One allocation was added and nothing else changed. */
  ghost predicate Adds(c: Config, s: State, t: State, aid: Id, users: seq<string>, key: RequestKey, preferred: Option<Id>, now: Time) {
    && aid !in s.issued && aid in t.allocations && Born(c, t.allocations[aid], users, key, preferred, now)
    && t.allocations[aid].room !in s.issued && t.allocations[aid].room != aid
    && t == s.(allocations := s.allocations[aid := t.allocations[aid]], issued := t.issued)
  }

  lemma NewRoomAdds(c: Config, s: State, users: seq<string>, key: RequestKey, preferred: Option<Id>, now: Time, aid: Id, room: Id, t: State)
    requires NewRoom(c, s, users, key, preferred, now, aid, room, t)
    ensures Adds(c, s, t, aid, users, key, preferred, now)
  {
  }

  /** A member of the roster called the room off: it ends, or its host is told to close it. */
  ghost predicate CalledOff(c: Config, s: State, t: State, aid: Id, now: Time) {
    && aid in s.allocations && aid in t.allocations && t.workers == s.workers
    && t.allocations == s.allocations[aid := t.allocations[aid]]
    && var a, b := s.allocations[aid], t.allocations[aid];
    if a.worker == None then
      b == a.(state := Cancelled, error := "cancelled", terminalAt := now, revision := a.revision + 1) && t.commands == s.commands
    else
      && b == a.(state := Cancelling, error := "cancelled", revision := a.revision + 1)
      && (exists k :: k !in s.commands && t.commands.Keys == s.commands.Keys + {k} &&
            t.commands[k] == Command(CancelRoom, a.worker.value, a.room, Some(aid), a.epoch, [], now + c.prepareTimeout, false, 0, 0))
      && (forall k | k in s.commands && k in t.commands ::
            t.commands[k] == s.commands[k].(done := s.commands[k].done || (s.commands[k].kind == PrepareRoom && s.commands[k].allocation == Some(aid))))
  }

  lemma CancelCallsOff(c: Config, s: State, aid: Id, now: Time, cid: Id)
    requires s.commands.Keys <= s.issued && aid in s.allocations && cid !in s.issued && Rank(s.allocations[aid].state) < 5
    ensures CalledOff(c, s, Cancel(c, s, aid, "cancelled", now, cid), aid, now)
  {
    var t := Cancel(c, s, aid, "cancelled", now, cid);
    if s.allocations[aid].worker.Some? {
      assert cid !in s.commands && t.commands.Keys == s.commands.Keys + {cid};
    }
  }

  /** The two seats of a roster, given now. */
  predicate SeatsGiven(c: Config, a: Allocation, b: Allocation, now: Time) {
    && |a.users| == 2 && |b.sessions| == 2
    && NewSeat(b.sessions[0], a.users[0], 0, now + c.reservationTTL) && NewSeat(b.sessions[1], a.users[1], 1, now + c.reservationTTL)
    && b == a.(state := Assigned, sessions := b.sessions, expiresAt := now + c.reservationTTL, revision := a.revision + 1)
  }

  ghost predicate SeatedBy(c: Config, s: State, t: State, aid: Id, now: Time, seats: seq<Session>) {
    && aid in s.allocations && aid in t.allocations && SeatsGiven(c, s.allocations[aid], t.allocations[aid], now)
    && t == s.(allocations := s.allocations[aid := t.allocations[aid]]) && seats == t.allocations[aid].sessions
  }

  lemma SeatSeats(c: Config, s: State, aid: Id, now: Time, r0: Id, r1: Id)
    requires aid in s.allocations && |s.allocations[aid].users| == 2
    ensures SeatedBy(c, s, Seat(c, s, aid, now, r0, r1), aid, now, Reserve(c, s.allocations[aid], now, r0, r1).sessions)
  {
  }

  /** A serving worker is drained: marked, and told once. */
  ghost predicate DrainBegun(s: State, t: State, wid: Id, now: Time) {
    && wid in s.workers
    && var w := s.workers[wid];
    if w.draining then t == s
    else
      && t.workers == s.workers[wid := w.(state := Draining, draining := true, updatedAt := now)] && t.allocations == s.allocations
      && exists k: Id :: k !in s.commands && t.commands == s.commands[k := Command(CommandKind.Drain, wid, 0, None, 1, [], now + 3600, false, 0, 0)]
  }

  lemma DrainBegins(s: State, wid: Id, now: Time, cid: Id)
    requires wid in s.workers && s.commands.Keys <= s.issued && cid !in s.issued
    ensures DrainBegun(s, BeginDrain(s, wid, now, cid), wid, now)
  {
  }
}
