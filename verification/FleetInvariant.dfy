/** What every transaction keeps. Each clause is preserved by every elementary change,
    hence by every transaction and in every reachable state. */
module FleetInvariant {
  import opened Basics
  import opened FleetState
  import opened FleetOps

  type Workers = map<Id, Worker>
  type Allocations = map<Id, Allocation>
  type Commands = map<Id, Command>

  ghost predicate IdsIssued(s: State) {
    && s.workers.Keys <= s.issued && s.allocations.Keys <= s.issued && s.commands.Keys <= s.issued
    && (forall a | a in s.allocations :: s.allocations[a].room in s.issued && KeyIssued(s.allocations[a].requestKey, s.issued))
  }

  /** Request keys and rooms are unique. */
  ghost predicate KeysUnique(rooms: Allocations) {
    forall a, b | a in rooms && b in rooms && a != b ::
      rooms[a].requestKey != rooms[b].requestKey && rooms[a].room != rooms[b].room
  }

  /** No user is in two unfinished allocations. */
  ghost predicate UsersUnique(rooms: Allocations) {
    forall a, b | a in rooms && b in rooms && a != b && !Terminal(rooms[a].state) && !Terminal(rooms[b].state) ::
      Disjoint(rooms[a].users, rooms[b].users)
  }

  ghost predicate Disjoint(p: seq<string>, q: seq<string>) {
    forall u | u in p :: u !in q
  }

  /** A waiting allocation has no worker; any other unfinished one is on a serving worker. */
  ghost predicate Placed(rooms: Allocations, workers: Workers) {
    forall a | a in rooms && !Terminal(rooms[a].state) :: PlacedOne(rooms[a], workers)
  }

  ghost predicate PlacedOne(a: Allocation, workers: Workers) {
    && (a.preferred.Some? ==> a.preferred.value in workers)
    && (a.worker.None? <==> a.state.Waiting?)
    && (a.worker.Some? ==> a.worker.value in workers && Serving(workers[a.worker.value].state))
  }

  ghost predicate AllocationsWell(rooms: Allocations) {
    forall a | a in rooms :: AllocationWell(rooms[a])
  }

  ghost predicate AllocationWell(a: Allocation) {
    && ValidUsers(a.users) && a.epoch == 1
    && 1 <= a.revision <= 1 + Rank(a.state) && 0 <= a.notifiedRevision <= a.revision
    && (a.state.Assigned? || a.state.Active? ==> |a.sessions| == 2)
    && Seated(a.sessions, a.users)
  }

  /** Seat i belongs to the i-th user of the roster. */
  ghost predicate Seated(sessions: seq<Session>, users: seq<string>) {
    && |sessions| <= |users|
    && forall i | 0 <= i < |sessions| :: sessions[i].seat == i && sessions[i].user == users[i]
  }

  ghost predicate WorkersWell(workers: Workers) {
    forall w | w in workers :: WorkerWell(workers[w])
  }

  ghost predicate WorkerWell(w: Worker) {
    && 0 <= w.playerCount <= 2 * w.maxRooms && |w.bootId| <= 128
    && (w.state.Draining? ==> w.draining)
    && (w.draining ==> w.state.Draining? || Closed(w.state))
    && (w.drainAck ==> w.state.Draining? || Closed(w.state))
    && (w.state.Stopping? && w.draining ==> w.drainAck)
    && (Unprovided(w.state) ==> w.providerId.None?)
  }

  ghost predicate RoomsFit(rooms: Allocations, workers: Workers) {
    forall w | w in workers :: Occupied(rooms, w) <= workers[w].maxRooms
  }

  /** An unfinished command matches the phase of what it commands. */
  ghost predicate CommandsSound(rooms: Allocations, workers: Workers, cs: Commands) {
    && (forall k | k in cs :: cs[k].worker in workers)
    && (forall k | Undone(cs, k) :: CommandSound(rooms, workers, cs[k]))
  }

  ghost predicate CommandSound(rooms: Allocations, workers: Workers, k: Command) {
    match k.kind
    case PrepareRoom =>
      RoomCommandSound(rooms, k, Preparing) && k.users == rooms[k.allocation.value].users && k.expiresAt == rooms[k.allocation.value].expiresAt
    case CancelRoom => RoomCommandSound(rooms, k, Cancelling)
    case Drain => k.allocation.None? && k.worker in workers && AwaitsDrain(workers[k.worker])
  }

  ghost predicate RoomCommandSound(rooms: Allocations, k: Command, phase: AllocationState) {
    && k.allocation.Some? && k.allocation.value in rooms
    && var a := rooms[k.allocation.value];
    a.state == phase && a.worker == Some(k.worker) && k.epoch == a.epoch && k.room == a.room
  }

  predicate AwaitsDrain(w: Worker) {
    w.state.Draining? && !w.drainAck
  }

  predicate SameTarget(k: Command, j: Command) {
    k.kind == j.kind && k.allocation == j.allocation && k.worker == j.worker
  }

  ghost predicate CommandsUnique(cs: Commands) {
    forall k, j | Undone(cs, k) && Undone(cs, j) && k != j :: !SameTarget(cs[k], cs[j])
  }

  predicate Pending(cs: Commands, kind: CommandKind, aid: Option<Id>, wid: Id, k: Id) {
    Undone(cs, k) && cs[k].kind == kind && cs[k].allocation == aid && cs[k].worker == wid
  }

  ghost predicate HasPending(cs: Commands, kind: CommandKind, aid: Option<Id>, wid: Id) {
    exists k :: Pending(cs, kind, aid, wid, k)
  }

  ghost predicate RoomsCommanded(rooms: Allocations, cs: Commands) {
    forall a | a in rooms && rooms[a].worker.Some? :: RoomCommanded(a, rooms[a], cs)
  }

  ghost predicate RoomCommanded(aid: Id, a: Allocation, cs: Commands)
    requires a.worker.Some?
  {
    && (a.state.Preparing? ==> HasPending(cs, PrepareRoom, Some(aid), a.worker.value))
    && (a.state.Cancelling? ==> HasPending(cs, CancelRoom, Some(aid), a.worker.value))
  }

  ghost predicate DrainsCommanded(workers: Workers, cs: Commands) {
    forall w | w in workers && AwaitsDrain(workers[w]) :: HasPending(cs, Drain, None, w)
  }

  ghost predicate AllocationInv(s: State) {
    && IdsIssued(s) && KeysUnique(s.allocations) && UsersUnique(s.allocations)
    && Placed(s.allocations, s.workers) && AllocationsWell(s.allocations)
  }

  ghost predicate WorkerInv(c: Config, s: State) {
    WorkersWell(s.workers) && RoomsFit(s.allocations, s.workers) && |Live(s.workers)| <= c.maxInstances
  }

  ghost predicate CommandInv(s: State) {
    && CommandsSound(s.allocations, s.workers, s.commands) && CommandsUnique(s.commands)
    && RoomsCommanded(s.allocations, s.commands) && DrainsCommanded(s.workers, s.commands)
  }

  ghost predicate Inv(c: Config, s: State) {
    AllocationInv(s) && WorkerInv(c, s) && CommandInv(s)
  }
}
