/** The elementary changes every transaction is made of. `Apply` gives the new state of
    one change, `Enabled` the guard under which the code performs it, and `Replay` runs a
    whole transaction as a sequence of them. */
module FleetOps {
  import opened Basics
  import opened FleetState

  // ---- Changes the source writes as small helpers --------------------------------------

  function Finish(a: Allocation, phase: AllocationState, reason: string, now: Time): Allocation {
    a.(state := phase, error := reason, terminalAt := now, revision := a.revision + 1)
  }

  function FinishHosted(rooms: map<Id, Allocation>, wid: Id, reason: string, now: Time): map<Id, Allocation> {
    map a | a in rooms ::
      if rooms[a].worker == Some(wid) && !Terminal(rooms[a].state)
      then Finish(rooms[a], AllocationState.Failed, reason, now)
      else rooms[a]
  }

  function CloseCommands(cs: map<Id, Command>, wid: Id): map<Id, Command> {
    map c | c in cs :: if cs[c].worker == wid then cs[c].(done := true) else cs[c]
  }

  /** `lost` and `stopped`: end a worker together with its rooms and its commands. */
  function CloseWorker(s: State, wid: Id, phase: WorkerState, reason: string, now: Time): State
    requires wid in s.workers
  {
    s.(workers := s.workers[wid := s.workers[wid].(state := phase, ready := false, providerReady := false, updatedAt := now)],
       allocations := FinishHosted(s.allocations, wid, reason, now),
       commands := CloseCommands(s.commands, wid))
  }

  function LoseWorker(s: State, wid: Id, now: Time): State
    requires wid in s.workers
  {
    CloseWorker(s, wid, Lost, "server_lost", now)
  }

  function StopWorker(s: State, wid: Id, now: Time): State
    requires wid in s.workers
  {
    CloseWorker(s, wid, Stopped, "server_stopped", now)
  }

  function OtherCommands(cs: map<Id, Command>, wid: Id): map<Id, Command> {
    map c | c in cs && cs[c].worker != wid :: cs[c]
  }

  function WithdrawPrepares(cs: map<Id, Command>, aid: Id): map<Id, Command> {
    map c | c in cs ::
      if cs[c].allocation == Some(aid) && cs[c].kind.PrepareRoom? then cs[c].(done := true) else cs[c]
  }

  function EndPhase(reason: string): AllocationState {
    if reason == "cancelled" then Cancelled else Expired
  }

  function CancelCommand(c: Config, a: Allocation, aid: Id, wid: Id, now: Time): Command {
    Command(CancelRoom, wid, a.room, Some(aid), a.epoch, [], now + c.prepareTimeout, false, 0, 0)
  }

  /** An unplaced allocation ends at once; a placed one waits for its host to close the room. */
  function CancelledForm(a: Allocation, reason: string, now: Time): Allocation {
    if a.worker.None? then Finish(a, EndPhase(reason), reason, now)
    else a.(state := Cancelling, error := reason, revision := a.revision + 1)
  }

  function Cancel(c: Config, s: State, aid: Id, reason: string, now: Time, cid: Id): State
    requires aid in s.allocations
  {
    var a := s.allocations[aid];
    if Terminal(a.state) || a.state.Cancelling? then s
    else if a.worker.None? then
      s.(allocations := s.allocations[aid := CancelledForm(a, reason, now)])
    else
      s.(allocations := s.allocations[aid := CancelledForm(a, reason, now)],
         commands := WithdrawPrepares(s.commands, aid)[cid := CancelCommand(c, a, aid, a.worker.value, now)],
         issued := s.issued + {cid})
  }

  function BeginDrain(s: State, wid: Id, now: Time, cid: Id): State
    requires wid in s.workers
  {
    var w := s.workers[wid];
    if w.draining then s
    else
      s.(workers := s.workers[wid := w.(draining := true, state := Draining, updatedAt := now)],
         commands := s.commands[cid := Command(Drain, wid, 0, None, 1, [], now + 3600, false, 0, 0)],
         issued := s.issued + {cid})
  }

  function Place(c: Config, s: State, aid: Id, wid: Id, now: Time, cid: Id): State
    requires aid in s.allocations && wid in s.workers
  {
    var a := s.allocations[aid];
    s.(allocations := s.allocations[aid :=
         a.(worker := Some(wid), state := Preparing, expiresAt := now + c.prepareTimeout, revision := a.revision + 1)],
       workers := s.workers[wid := s.workers[wid].(idleSince := 0)],
       commands := s.commands[cid :=
         Command(PrepareRoom, wid, a.room, Some(aid), a.epoch, a.users, now + c.prepareTimeout, false, 0, 0)],
       issued := s.issued + {cid})
  }

  function SeatSession(a: Allocation, seat: nat, id: Id, expiresAt: Time): Session
    requires seat < |a.users|
  {
    Session(id, a.users[seat], seat, expiresAt, false, false, 0)
  }

  /** `reserve` on a prepared room: one session per seat, in roster order. */
  function Reserve(c: Config, a: Allocation, now: Time, r0: Id, r1: Id): Allocation
    requires |a.users| == 2
  {
    a.(sessions := [SeatSession(a, 0, r0, now + c.reservationTTL), SeatSession(a, 1, r1, now + c.reservationTTL)],
       state := Assigned, expiresAt := now + c.reservationTTL, revision := a.revision + 1)
  }

  function NewWorker(c: Config, now: Time, maxRooms: nat): Worker {
    Worker(Requested, None, false, 0, "", c.region, c.buildHash, "", 0, maxRooms,
           now, now, 0, 0, now, 0, false, false, false, 0, Metrics(0, 0, 0, 0, 0, 0.0, 0.0))
  }

  function NewAllocation(c: Config, users: seq<string>, key: RequestKey, room: Id, preferred: Option<Id>, now: Time): Allocation {
    Allocation(key, room, None, preferred, users, Waiting, 1, 1, now, now + c.allocationTimeout, [], "", 0, 0)
  }

  /** 2 << min(n, 4) seconds. */
  function RetryDelay(attempts: nat): int {
    if attempts == 0 then 2 else if attempts == 1 then 4 else if attempts == 2 then 8
    else if attempts == 3 then 16 else 32
  }

  function RetryOf(k: Command, now: Time): Command {
    k.(done := false, attempts := k.attempts + 1, notBefore := now + RetryDelay(k.attempts + 1), expiresAt := now + 3600)
  }

  // ---- Elementary changes --------------------------------------------------------------

  datatype Op =
    | SetLease(owner: Option<Id>, until: Time)
    | SetCreation(nextCreateAt: Time, blocked: bool, rooms: nat)
    | EditWorker(wid: Id, worker: Worker)
    | DrainWorker(wid: Id, cid: Id)
    | Close(wid: Id, stop: bool)
    | AddWorker(wid: Id, maxRooms: nat)
    | AddAllocation(aid: Id, allocation: Allocation)
    | CancelAllocation(aid: Id, reason: string, cid: Id)
    | PlaceAllocation(aid: Id, wid: Id, cid: Id)
    | ReserveSeats(aid: Id, r0: Id, r1: Id)
    | MarkPrepared(cid: Id)
    | FinishCancel(cid: Id)
    | RetryCommand(cid: Id, newCid: Id)
    | AckDrain(cid: Id)
    | Complete(aid: Id)
    | Activate(aid: Id)
    | SetSessions(aid: Id, sessions: seq<Session>)
    | SetNotified(aid: Id)
    | PruneAllocation(aid: Id)
    | PruneCommand(cid: Id)
    | PruneWorker(wid: Id)

  /** The moves a worker can make without touching allocations or commands. */
  predicate WorkerEdge(p: WorkerState, q: WorkerState) {
    || p == q
    || (p.Requested? && q.Starting?)
    || (p.Starting? && (q.Unknown? || q.Failed? || q.Launching? || q.Stopping?))
    || (p.Unknown? && (q.Launching? || q.Stopping?))
    || ((p.Launching? || p.Bootstrapping?) && (q.Bootstrapping? || q.Ready? || q.Stopping?))
    || ((p.Ready? || p.Suspect?) && (q.Ready? || q.Suspect?))
    || (p.Draining? && q.Stopping?)
    || (p.Lost? && q.Stopping?)
  }

  predicate WorkerEdit(s: State, wid: Id, w: Worker) {
    && wid in s.workers
    && var v := s.workers[wid];
    && WorkerEdge(v.state, w.state)
    && w.maxRooms == v.maxRooms && w.createdAt == v.createdAt && w.lastSequence >= v.lastSequence
    && (v.bootId != "" ==> w.bootId == v.bootId) && |w.bootId| <= 128
    && 0 <= w.playerCount <= 2 * w.maxRooms
    && w.drainAck == v.drainAck
    && (if v.state.Lost? && w.state.Stopping? then !w.draining else w.draining == v.draining)
    && (v.state.Draining? && w.state.Stopping? ==> v.drainAck && Hosted(s.allocations, wid) == {})
    && (w.providerId == v.providerId || (v.providerId.None? && !Unprovided(w.state)))
  }

  /** A key derived from a worker names one that has been created. */
  predicate KeyIssued(key: RequestKey, issued: set<Id>) {
    key.ForWorker? ==> key.worker in issued
  }

  predicate FreshAllocation(s: State, aid: Id, a: Allocation) {
    && aid !in s.issued && a.room !in s.issued && a.room != aid && KeyIssued(a.requestKey, s.issued)
    && a.state.Waiting? && a.worker.None? && a.epoch == 1 && a.revision == 1 && a.notifiedRevision == 0
    && a.sessions == [] && ValidUsers(a.users)
    && (a.preferred.Some? ==> a.preferred.value in s.workers)
    && (forall b | b in s.allocations :: s.allocations[b].requestKey != a.requestKey)
    && (forall b, u | b in s.allocations && u in s.allocations[b].users :: u in a.users ==> Terminal(s.allocations[b].state))
  }

  predicate Undone(cs: map<Id, Command>, cid: Id) {
    cid in cs && !cs[cid].done
  }

  predicate Enabled(c: Config, now: Time, s: State, op: Op) {
    match op
    case SetLease(_, _) => true
    case SetCreation(_, _, _) => true
    case EditWorker(wid, w) => WorkerEdit(s, wid, w)
    case DrainWorker(wid, cid) => wid in s.workers && (s.workers[wid].state.Ready? || s.workers[wid].state.Suspect?) && cid !in s.issued
    case Close(wid, stop) => wid in s.workers && !s.workers[wid].state.Stopped? && !s.workers[wid].state.Failed?
    case AddWorker(wid, _) => wid !in s.issued && |Live(s.workers)| < c.maxInstances
    case AddAllocation(aid, a) => FreshAllocation(s, aid, a)
    case CancelAllocation(aid, _, cid) => aid in s.allocations && cid !in s.issued
    case PlaceAllocation(aid, wid, cid) =>
      && aid in s.allocations && s.allocations[aid].state.Waiting? && wid in s.workers && cid !in s.issued
      && s.workers[wid].state.Ready? && Occupied(s.allocations, wid) < s.workers[wid].maxRooms
    case ReserveSeats(aid, _, _) => aid in s.allocations && s.allocations[aid].state.Prepared? && |s.allocations[aid].users| == 2
    case MarkPrepared(cid) =>
      && Undone(s.commands, cid) && s.commands[cid].kind.PrepareRoom? && s.commands[cid].allocation.Some?
      && s.commands[cid].allocation.value in s.allocations && s.allocations[s.commands[cid].allocation.value].state.Preparing?
    case FinishCancel(cid) =>
      && Undone(s.commands, cid) && s.commands[cid].kind.CancelRoom? && s.commands[cid].allocation.Some?
      && s.commands[cid].allocation.value in s.allocations && s.allocations[s.commands[cid].allocation.value].state.Cancelling?
    case RetryCommand(cid, newCid) => Undone(s.commands, cid) && !s.commands[cid].kind.PrepareRoom? && newCid !in s.issued
    case AckDrain(cid) => Undone(s.commands, cid) && s.commands[cid].kind.Drain? && s.commands[cid].worker in s.workers
    case Complete(aid) => aid in s.allocations && (s.allocations[aid].state.Assigned? || s.allocations[aid].state.Active?)
    case Activate(aid) => aid in s.allocations && s.allocations[aid].state.Assigned?
    case SetSessions(aid, ss) =>
      && aid in s.allocations && (s.allocations[aid].state.Assigned? || s.allocations[aid].state.Active?)
      && |ss| == |s.allocations[aid].sessions|
      && (forall i | 0 <= i < |ss| :: SameSeat(s.allocations[aid].sessions[i], ss[i]))
    case SetNotified(aid) => aid in s.allocations
    case PruneAllocation(aid) => aid in s.allocations && Terminal(s.allocations[aid].state)
    case PruneCommand(cid) => cid in s.commands && s.commands[cid].done
    case PruneWorker(wid) =>
      && wid in s.workers && !Counted(s.workers[wid])
      && (forall a | a in s.allocations && !Terminal(s.allocations[a].state) ::
            s.allocations[a].worker != Some(wid) && s.allocations[a].preferred != Some(wid))
  }

  predicate SameSeat(x: Session, y: Session) {
    x.id == y.id && x.user == y.user && x.seat == y.seat && x.expiresAt == y.expiresAt
  }

  function Apply(c: Config, now: Time, s: State, op: Op): State
    requires Enabled(c, now, s, op)
  {
    match op
    case SetLease(owner, until) => s.(leader := owner, leaseUntil := until)
    case SetCreation(at, blocked, rooms) => s.(nextCreateAt := at, blocked := blocked, rooms := rooms)
    case EditWorker(wid, w) => s.(workers := s.workers[wid := w])
    case DrainWorker(wid, cid) => BeginDrain(s, wid, now, cid)
    case Close(wid, stop) => if stop then StopWorker(s, wid, now) else LoseWorker(s, wid, now)
    case AddWorker(wid, maxRooms) =>
      s.(workers := s.workers[wid := NewWorker(c, now, maxRooms)], issued := s.issued + {wid})
    case AddAllocation(aid, a) =>
      s.(allocations := s.allocations[aid := a], issued := s.issued + {aid, a.room})
    case CancelAllocation(aid, reason, cid) => Cancel(c, s, aid, reason, now, cid)
    case PlaceAllocation(aid, wid, cid) => Place(c, s, aid, wid, now, cid)
    case ReserveSeats(aid, r0, r1) =>
      s.(allocations := s.allocations[aid := Reserve(c, s.allocations[aid], now, r0, r1)])
    case MarkPrepared(cid) =>
      var k := s.commands[cid];
      var a := s.allocations[k.allocation.value];
      s.(commands := s.commands[cid := k.(done := true)],
         allocations := s.allocations[k.allocation.value := a.(state := Prepared, revision := a.revision + 1)])
    case FinishCancel(cid) =>
      var k := s.commands[cid];
      var a := s.allocations[k.allocation.value];
      s.(commands := s.commands[cid := k.(done := true)],
         allocations := s.allocations[k.allocation.value := Finish(a, EndPhase(a.error), a.error, now)])
    case RetryCommand(cid, newCid) =>
      var k := s.commands[cid];
      s.(commands := s.commands[cid := k.(done := true)][newCid := RetryOf(k, now)], issued := s.issued + {newCid})
    case AckDrain(cid) =>
      var k := s.commands[cid];
      s.(commands := s.commands[cid := k.(done := true)],
         workers := s.workers[k.worker := s.workers[k.worker].(drainAck := true)])
    case Complete(aid) =>
      s.(allocations := s.allocations[aid := Finish(s.allocations[aid], Completed, "", now)])
    case Activate(aid) =>
      s.(allocations := s.allocations[aid := s.allocations[aid].(state := Active, revision := s.allocations[aid].revision + 1)])
    case SetSessions(aid, ss) =>
      s.(allocations := s.allocations[aid := s.allocations[aid].(sessions := ss)])
    case SetNotified(aid) =>
      s.(allocations := s.allocations[aid := s.allocations[aid].(notifiedRevision := s.allocations[aid].revision)])
    case PruneAllocation(aid) => s.(allocations := s.allocations - {aid})
    case PruneCommand(cid) => s.(commands := s.commands - {cid})
    case PruneWorker(wid) =>
      s.(workers := s.workers - {wid},
         commands := OtherCommands(s.commands, wid))
  }

  // ---- Transactions as sequences of changes --------------------------------------------

  function Replay(c: Config, now: Time, s: State, ops: seq<Op>): Option<State> {
    if ops == [] then Some(s)
    else
      match Replay(c, now, s, ops[..|ops| - 1])
      case None => None
      case Some(m) =>
        if Enabled(c, now, m, ops[|ops| - 1]) then Some(Apply(c, now, m, ops[|ops| - 1])) else None
  }

  lemma ReplayOne(c: Config, now: Time, s: State, ops: seq<Op>, m: State, op: Op)
    requires Replay(c, now, s, ops) == Some(m) && Enabled(c, now, m, op)
    ensures Replay(c, now, s, ops + [op]) == Some(Apply(c, now, m, op))
  {
    assert (ops + [op])[..|ops + [op]| - 1] == ops;
  }

  lemma {:induction false} ReplayConcat(c: Config, now: Time, s: State, p: seq<Op>, m: State, q: seq<Op>, t: State)
    requires Replay(c, now, s, p) == Some(m) && Replay(c, now, m, q) == Some(t)
    ensures Replay(c, now, s, p + q) == Some(t)
  {
    if q == [] {
      assert p + q == p;
    } else {
      var n := |q| - 1;
      ReplayConcat(c, now, s, p, m, q[..n], Replay(c, now, m, q[..n]).value);
      assert (p + q)[..|p + q| - 1] == p + q[..n];
    }
  }

  lemma Chain(c: Config, now: Time, s: State, ops: seq<Op>, m: State, more: seq<Op>, t: State) returns (all: seq<Op>)
    requires Replay(c, now, s, ops) == Some(m) && Replay(c, now, m, more) == Some(t)
    ensures Replay(c, now, s, all) == Some(t)
  {
    ReplayConcat(c, now, s, ops, m, more, t);
    all := ops + more;
  }
}
