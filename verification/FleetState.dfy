/** The durable control-plane state of the fleet manager, as values, and the pure
    predicates the transactions share (internal/state/state.go and the helpers of
    pkg/fleetmanager). */
module FleetState {
  import opened Basics

  datatype WorkerState =
    | Requested | Starting | Unknown | Launching | Bootstrapping
    | Ready | Suspect | Draining | Stopping | Stopped | Lost | Failed

  datatype AllocationState =
    | Waiting | Preparing | Prepared | Assigned | Active | Cancelling
    | Completed | Cancelled | Expired | Failed

  datatype CommandKind = PrepareRoom | CancelRoom | Drain

  datatype Metrics = Metrics(
    simulationPending: int, simulationActive: int,
    auditPending: int, auditActive: int, pendingResults: int,
    oldestSeconds: real, frameP99: real)

  datatype Worker = Worker(
    state: WorkerState, providerId: Option<Id>, providerReady: bool, providerExpiresAt: Time,
    bootId: string, region: string, buildHash: string, host: string, port: int, maxRooms: nat,
    createdAt: Time, updatedAt: Time, lastHeartbeat: Time, lastSequence: nat,
    nextCheckAt: Time, idleSince: Time,
    ready: bool, draining: bool, drainAck: bool, playerCount: int, metrics: Metrics)

  datatype Session = Session(
    id: Id, user: string, seat: nat, expiresAt: Time,
    connected: bool, everConnected: bool, reconnectUntil: Time)

  /** A request key is caller text, or the key `create:<worker>` that Create derives. */
  datatype RequestKey = Named(text: string) | ForWorker(worker: Id)

  datatype Allocation = Allocation(
    requestKey: RequestKey, room: Id, worker: Option<Id>, preferred: Option<Id>,
    users: seq<string>, state: AllocationState, epoch: int, revision: int,
    createdAt: Time, expiresAt: Time, sessions: seq<Session>, error: string,
    terminalAt: Time, notifiedRevision: int)

  datatype Command = Command(
    kind: CommandKind, worker: Id, room: Id, allocation: Option<Id>, epoch: int,
    users: seq<string>, expiresAt: Time, done: bool, attempts: nat, notBefore: Time)

  /** `issued` holds every identifier drawn so far: freshness is membership in its complement. */
  datatype State = State(
    leader: Option<Id>, leaseUntil: Time, nextCreateAt: Time, blocked: bool, rooms: nat,
    workers: map<Id, Worker>, allocations: map<Id, Allocation>, commands: map<Id, Command>,
    issued: set<Id>)

  datatype Config = Config(
    buildHash: string, region: string, minInstances: nat, maxInstances: nat,
    launchTimeout: int, allocationTimeout: int, prepareTimeout: int, reservationTTL: int,
    reconnectSeconds: int, heartbeatTimeout: int, lostTimeout: int, idleSeconds: int,
    pollSeconds: int, minLifetime: int, maxQueueAge: real)

  predicate ValidConfig(c: Config) {
    && 1 <= c.maxInstances && c.minInstances <= c.maxInstances
    && 1 <= c.prepareTimeout <= 120 && c.reservationTTL == 60 && 1 <= c.reconnectSeconds
    && 1 <= c.launchTimeout && 1 <= c.allocationTimeout && 1 <= c.heartbeatTimeout < c.lostTimeout
    && 1 <= c.idleSeconds && 1 <= c.pollSeconds && 60 <= c.minLifetime
  }

  const EmptyState := State(None, 0, 0, false, 1, map[], map[], map[], {})

  predicate Terminal(p: AllocationState) {
    p.Completed? || p.Cancelled? || p.Expired? || p.Failed?
  }

  /** The order in which an allocation may move; all terminal phases are on top. */
  function Rank(p: AllocationState): nat {
    match p
    case Waiting => 0
    case Preparing => 1
    case Prepared => 2
    case Assigned => 3
    case Active => 4
    case Cancelling => 5
    case _ => 6
  }

  /** The unfinished allocations placed on a worker. */
  function Hosted(rooms: map<Id, Allocation>, wid: Id): set<Id> {
    set a | a in rooms && rooms[a].worker == Some(wid) && !Terminal(rooms[a].state)
  }

  function Occupied(rooms: map<Id, Allocation>, wid: Id): nat {
    |Hosted(rooms, wid)|
  }

  predicate Counted(w: Worker) {
    !w.state.Stopped? && !(w.state.Failed? && w.providerId.None?)
  }

  /** The workers `liveCount` counts. */
  function Live(workers: map<Id, Worker>): set<Id> {
    set w | w in workers && Counted(workers[w])
  }

  predicate Serving(p: WorkerState) {
    p.Ready? || p.Suspect? || p.Draining?
  }

  /** States a game process can be heard from without the manager ending the worker. */
  predicate Running(p: WorkerState) {
    p.Launching? || p.Bootstrapping? || Serving(p)
  }

  /** States in which no provider instance has been recorded. */
  predicate Unprovided(p: WorkerState) {
    p.Requested? || p.Starting? || p.Unknown? || p.Failed?
  }

  /** States that never lead back to a serving one. */
  predicate Closed(p: WorkerState) {
    p.Stopping? || p.Stopped? || p.Lost? || p.Failed?
  }

  predicate ValidUsers(users: seq<string>) {
    && |users| == 2 && users[0] != users[1]
    && 0 < |users[0]| <= 128 && 0 < |users[1]| <= 128
  }

  predicate WorkFinished(m: Metrics) {
    && m.simulationActive == 0 && m.simulationPending == 0
    && m.auditActive == 0 && m.auditPending == 0 && m.pendingResults == 0
  }

  predicate Eligible(c: Config, w: Worker, now: Time) {
    && w.state.Ready? && w.providerReady && w.buildHash == c.buildHash && w.region == c.region
    && !w.draining && w.ready && w.host != "" && w.bootId != ""
    && now - w.lastHeartbeat <= c.heartbeatTimeout
    && w.metrics.oldestSeconds <= c.maxQueueAge && w.metrics.frameP99 <= 100.0
    && (w.providerExpiresAt == 0 || w.providerExpiresAt - now > c.minLifetime)
  }
}
