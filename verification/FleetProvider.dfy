/** The transactions that surround provider calls: the claim and the commits of `start`,
    `reconcileUnknown`, `poll` and `stop`, as functions of the state they find. None of them
    checks everything it relies on; `FleetProtocol` shows that what they find is right. */
module FleetProvider {
  import opened Basics
  import opened FleetState
  import opened FleetOps
  import opened FleetInvariant
  import opened FleetPreserve

  datatype Status = IsLaunching | IsRunning | IsUnhealthy | IsStopped

  /** What the provider tells about an instance; `endpoint` is the UDP port when valid. */
  datatype Instance = Instance(
    id: Id, ttl: int, startedAt: Option<Time>, owned: bool, sameBuild: bool,
    status: Status, endpoint: Option<(string, int)>)

  datatype StartOutcome =
    | Started(instance: Instance)
    | Ambiguous                       // the outcome is unknown
    | Conflict                        // 409
    | Denied(review: bool)            // a definite error; some need operator review

  datatype ReconcileOutcome =
    | Recovered(instance: Instance)
    | Several
    | StillUnknown(review: bool)

  datatype PollOutcome = Found(instance: Instance) | Missing | Mismatch | QueryFailed

  function Edited(s: State, wid: Id, w: Worker): State {
    s.(workers := s.workers[wid := w])
  }

  predicate ShortLived(c: Config, i: Instance) {
    0 < i.ttl <= c.minLifetime + c.launchTimeout
  }

  /** `providerLifetime`: an instance too short-lived for admission is stopped before it serves. */
  function Lifetime(c: Config, w: Worker, i: Instance, at: Time): Worker {
    if i.ttl <= 0 then w
    else
      var start := if i.startedAt.Some? then i.startedAt.value else w.createdAt;
      var v := w.(providerExpiresAt := start + i.ttl);
      if ShortLived(c, i) && (w.state.Launching? || w.state.Bootstrapping?) then v.(state := Stopping, nextCheckAt := at) else v
  }

  // ---- start ---------------------------------------------------------------------------

  predicate Holds(s: State, owner: Id, now: Time) {
    s.leader == Some(owner) && now < s.leaseUntil
  }

  function StartClaim(s: State, wid: Id, now: Time): State
    requires wid in s.workers
  {
    Edited(s, wid, s.workers[wid].(state := Starting, updatedAt := now))
  }

  function StartWorker(c: Config, v: Worker, out: StartOutcome, now: Time, at: Time): Worker {
    var w := v.(updatedAt := at);
    match out
    case Ambiguous => w.(state := Unknown, nextCheckAt := now + 1)
    case Conflict => w.(state := Unknown, nextCheckAt := now + 1)
    case Denied(_) => w.(state := WorkerState.Failed)
    case Started(i) => Lifetime(c, w.(providerId := Some(i.id), state := Launching, nextCheckAt := at), i, at)
  }

  predicate StartBlocks(c: Config, out: StartOutcome) {
    out.Conflict? || (out.Denied? && out.review) || (out.Started? && ShortLived(c, out.instance))
  }

  /** The commit of `start`. It overwrites the worker whatever state it is in. */
  function StartCommit(c: Config, s: State, wid: Id, out: StartOutcome, now: Time, at: Time): State
    requires wid in s.workers
  {
    Edited(s, wid, StartWorker(c, s.workers[wid], out, now, at))
    .(blocked := s.blocked || StartBlocks(c, out), nextCreateAt := if out.Started? then s.nextCreateAt else now + 15)
  }

  // ---- reconcileUnknown ----------------------------------------------------------------

  function ReconcileWorker(c: Config, v: Worker, out: ReconcileOutcome, now: Time, at: Time): Worker {
    match out
    case Recovered(i) => Lifetime(c, v.(providerId := Some(i.id), state := Launching, nextCheckAt := now), i, at)
    case _ => v.(nextCheckAt := now + c.pollSeconds)
  }

  predicate ReconcileBlocks(c: Config, out: ReconcileOutcome) {
    (out.StillUnknown? && out.review) || (out.Recovered? && ShortLived(c, out.instance))
  }

  function ReconcileCommit(c: Config, s: State, wid: Id, out: ReconcileOutcome, now: Time, at: Time): State {
    if wid !in s.workers || !s.workers[wid].state.Unknown? then s
    else
      Edited(s, wid, ReconcileWorker(c, s.workers[wid], out, now, at)).(blocked := s.blocked || ReconcileBlocks(c, out))
  }

  // ---- poll ----------------------------------------------------------------------------

  /** What a poll makes of a worker: an edit, or an edit followed by the end of the worker. */
  datatype Verdict = Keep(worker: Worker) | End(worker: Worker, gone: bool) | Sick(worker: Worker)

  predicate FreshlyReady(c: Config, w: Worker, now: Time) {
    w.ready && w.bootId != "" && now - w.lastHeartbeat <= c.heartbeatTimeout
  }

  /** A worker whose instance is seen running. */
  function SeenRunning(c: Config, w: Worker, i: Instance, now: Time): Worker {
    match i.endpoint
    case None =>
      w.(host := "", port := 0, providerReady := false, state := if w.state.Ready? then Suspect else w.state)
    case Some(e) =>
      w.(host := e.0, port := e.1, providerReady := true,
         state := if FreshlyReady(c, w, now) then (if w.draining then Draining else Ready)
                  else if w.state.Launching? || w.state.Bootstrapping? then Bootstrapping
                  else if !w.draining then Suspect else w.state)
  }

  function SeenIdle(w: Worker): Worker {
    w.(providerReady := false, host := "", port := 0,
       state := if w.state.Ready? || w.state.Suspect? then Suspect else w.state)
  }

  function PollFound(c: Config, w: Worker, i: Instance, now: Time): Verdict {
    if w.state.Stopping? then Keep(w)
    else if i.status.IsUnhealthy? then Sick(w)
    else
      var v := if i.status.IsRunning? then w else SeenIdle(w);
      if i.status.IsStopped? then End(v, true)
      else if v.state.Lost? then Keep(v)
      else if now - v.createdAt >= c.launchTimeout && (v.state.Launching? || v.state.Bootstrapping?) then
        Keep(v.(state := Stopping, nextCheckAt := now))
      else if i.status.IsRunning? then Keep(SeenRunning(c, v, i, now))
      else Keep(v)
  }

  function PollWorker(c: Config, v: Worker, out: PollOutcome, now: Time, at: Time): Verdict {
    var w := v.(nextCheckAt := now + c.pollSeconds);
    match out
    case Missing => End(w, true)
    case Mismatch => End(w, false)
    case QueryFailed => Keep(w)
    case Found(i) =>
      if !i.owned || !i.sameBuild then End(w, false)
      else PollFound(c, Lifetime(c, w, i, at), i, now)
  }

  predicate PollBlocks(c: Config, out: PollOutcome) {
    out.Found? && out.instance.owned && out.instance.sameBuild && ShortLived(c, out.instance)
  }

  function SickWorker(w: Worker, now: Time): Worker {
    w.(state := Stopping, draining := false, nextCheckAt := now)
  }

  function Rule(s: State, wid: Id, v: Verdict, now: Time): State {
    match v
    case Keep(w) => Edited(s, wid, w)
    case End(w, gone) => if gone then StopWorker(Edited(s, wid, w), wid, now) else LoseWorker(Edited(s, wid, w), wid, now)
    case Sick(w) =>
      var t := LoseWorker(Edited(s, wid, w), wid, now);
      Edited(t, wid, SickWorker(t.workers[wid], now))
  }

  function PollCommit(c: Config, s: State, wid: Id, pid: Option<Id>, out: PollOutcome, now: Time, at: Time): State
    requires wid in s.workers
  {
    if s.workers[wid].providerId != pid then s
    else Rule(s, wid, PollWorker(c, s.workers[wid], out, now, at), now).(blocked := s.blocked || PollBlocks(c, out))
  }

  // ---- stop ----------------------------------------------------------------------------

  /** The recheck before a stop is issued. */
  predicate StopAllowed(c: Config, s: State, wid: Id, pid: Option<Id>, now: Time) {
    && wid in s.workers && s.workers[wid].state.Stopping? && s.workers[wid].providerId == pid
    && var w := s.workers[wid];
    (w.draining ==> w.drainAck && Occupied(s.allocations, wid) == 0 && w.playerCount <= 0 && WorkFinished(w.metrics)
                    && now - w.lastHeartbeat <= c.heartbeatTimeout)
  }

  /** After a stop: closed when the instance is confirmed gone, else checked again later. */
  function StopCommit(c: Config, s: State, wid: Id, gone: bool, now: Time): State
    requires wid in s.workers
  {
    var t := Edited(s, wid, s.workers[wid].(nextCheckAt := now + c.pollSeconds));
    if gone then StopWorker(t, wid, now) else t
  }

  // ---- The commits are sequences of elementary changes ---------------------------------

  /** An edit of one record that is a worker edit whatever the rooms are. */
  predicate RecordEdit(v: Worker, w: Worker) {
    && WorkerEdge(v.state, w.state)
    && w.maxRooms == v.maxRooms && w.createdAt == v.createdAt && w.lastSequence == v.lastSequence && w.bootId == v.bootId
    && w.playerCount == v.playerCount && w.drainAck == v.drainAck
    && (if v.state.Lost? && w.state.Stopping? then !w.draining else w.draining == v.draining)
    && !(v.state.Draining? && w.state.Stopping?)
    && (w.providerId == v.providerId || (v.providerId.None? && !Unprovided(w.state)))
  }

  lemma RecordEditEnabled(c: Config, now: Time, s: State, wid: Id, w: Worker)
    requires wid in s.workers && WorkerWell(s.workers[wid]) && RecordEdit(s.workers[wid], w)
    ensures Enabled(c, now, s, EditWorker(wid, w)) && Replay(c, now, s, [EditWorker(wid, w)]) == Some(Edited(s, wid, w))
  {
    ReplayOne(c, now, s, [], s, EditWorker(wid, w));
    assert [] + [EditWorker(wid, w)] == [EditWorker(wid, w)];
  }

  lemma CreationReplays(c: Config, now: Time, s: State, ops: seq<Op>, m: State, at: Time, blocked: bool) returns (all: seq<Op>)
    requires Replay(c, now, s, ops) == Some(m)
    ensures Replay(c, now, s, all) == Some(m.(nextCreateAt := at, blocked := blocked))
  {
    ReplayOne(c, now, s, ops, m, SetCreation(at, blocked, m.rooms));
    all := ops + [SetCreation(at, blocked, m.rooms)];
  }

  lemma ClaimReplays(c: Config, now: Time, s: State, wid: Id) returns (ops: seq<Op>)
    requires Inv(c, s) && wid in s.workers && s.workers[wid].state.Requested?
    ensures Replay(c, now, s, ops) == Some(StartClaim(s, wid, now))
  {
    assert WorkerWell(s.workers[wid]);
    var w := s.workers[wid].(state := Starting, updatedAt := now);
    RecordEditEnabled(c, now, s, wid, w);
    ops := [EditWorker(wid, w)];
  }

  lemma StartFits(c: Config, v: Worker, out: StartOutcome, now: Time, at: Time)
    requires WorkerWell(v) && v.state.Starting?
    ensures RecordEdit(v, StartWorker(c, v, out, now, at))
  {
  }

  lemma ReconcileFits(c: Config, v: Worker, out: ReconcileOutcome, now: Time, at: Time)
    requires WorkerWell(v) && v.state.Unknown?
    ensures RecordEdit(v, ReconcileWorker(c, v, out, now, at))
  {
  }

  lemma StartReplays(c: Config, s: State, wid: Id, out: StartOutcome, now: Time, at: Time) returns (ops: seq<Op>)
    requires Inv(c, s) && wid in s.workers && s.workers[wid].state.Starting?
    ensures Replay(c, now, s, ops) == Some(StartCommit(c, s, wid, out, now, at))
  {
    assert WorkerWell(s.workers[wid]);
    var w := StartWorker(c, s.workers[wid], out, now, at);
    StartFits(c, s.workers[wid], out, now, at);
    RecordEditEnabled(c, now, s, wid, w);
    ops := CreationReplays(c, now, s, [EditWorker(wid, w)], Edited(s, wid, w),
                           if out.Started? then s.nextCreateAt else now + 15, s.blocked || StartBlocks(c, out));
  }

  lemma ReconcileReplays(c: Config, s: State, wid: Id, out: ReconcileOutcome, now: Time, at: Time) returns (ops: seq<Op>)
    requires Inv(c, s)
    ensures Replay(c, now, s, ops) == Some(ReconcileCommit(c, s, wid, out, now, at))
  {
    if wid !in s.workers || !s.workers[wid].state.Unknown? {
      ops := [];
    } else {
      assert WorkerWell(s.workers[wid]);
      var w := ReconcileWorker(c, s.workers[wid], out, now, at);
      ReconcileFits(c, s.workers[wid], out, now, at);
      RecordEditEnabled(c, now, s, wid, w);
      ops := CreationReplays(c, now, s, [EditWorker(wid, w)], Edited(s, wid, w), s.nextCreateAt, s.blocked || ReconcileBlocks(c, out));
    }
  }

  /** The states a polled worker can be in when the answer is committed. */
  predicate Pollable(p: WorkerState) {
    Running(p) || p.Lost?
  }

  lemma LifetimeEdit(c: Config, v: Worker, i: Instance, now: Time, at: Time)
    requires WorkerWell(v) && Pollable(v.state) && v.providerId.Some?
    ensures var w := Lifetime(c, v.(nextCheckAt := now + c.pollSeconds), i, at);
            RecordEdit(v, w) && (w.state == v.state || w.state.Stopping?) && (v.state.Lost? ==> w.state.Lost?)
  {
  }

  /** What a verdict does to a worker is an edit, and a worker it ends is still open. */
  predicate Fits(v: Worker, d: Verdict) {
    RecordEdit(v, d.worker) && (!d.Keep? ==> Pollable(d.worker.state))
  }

  lemma PollFits(c: Config, v: Worker, out: PollOutcome, now: Time, at: Time)
    requires WorkerWell(v) && Pollable(v.state) && v.providerId.Some?
    ensures Fits(v, PollWorker(c, v, out, now, at))
  {
    if out.Found? && out.instance.owned && out.instance.sameBuild {
      var i := out.instance;
      var w := Lifetime(c, v.(nextCheckAt := now + c.pollSeconds), i, at);
      LifetimeEdit(c, v, i, now, at);
      FoundFits(c, v, w, i, now);
      assert PollWorker(c, v, out, now, at) == PollFound(c, w, i, now);
    } else {
      assert PollWorker(c, v, out, now, at).worker == v.(nextCheckAt := now + c.pollSeconds);
    }
  }

  lemma FoundFits(c: Config, v: Worker, w: Worker, i: Instance, now: Time)
    requires WorkerWell(v) && Pollable(v.state) && RecordEdit(v, w) && (w.state == v.state || w.state.Stopping?)
    requires v.providerId.Some? && (v.state.Lost? ==> w.state.Lost?)
    ensures Fits(v, PollFound(c, w, i, now))
  {
  }

  lemma EndReplays(c: Config, now: Time, s: State, wid: Id, w: Worker, gone: bool) returns (ops: seq<Op>)
    requires wid in s.workers && WorkerWell(s.workers[wid]) && RecordEdit(s.workers[wid], w) && Pollable(w.state)
    ensures Replay(c, now, s, ops) == Some(Rule(s, wid, End(w, gone), now))
  {
    RecordEditEnabled(c, now, s, wid, w);
    ops := [EditWorker(wid, w)];
    var m := Edited(s, wid, w);
    ReplayOne(c, now, s, ops, m, Close(wid, gone));
    ops := ops + [Close(wid, gone)];
  }

  lemma RuleReplays(c: Config, now: Time, s: State, wid: Id, v: Verdict) returns (ops: seq<Op>)
    requires Inv(c, s) && wid in s.workers && Fits(s.workers[wid], v)
    ensures Replay(c, now, s, ops) == Some(Rule(s, wid, v, now))
  {
    assert WorkerWell(s.workers[wid]);
    match v
    case Keep(w) =>
      RecordEditEnabled(c, now, s, wid, w);
      ops := [EditWorker(wid, w)];
    case End(w, gone) =>
      ops := EndReplays(c, now, s, wid, w, gone);
    case Sick(w) =>
      ops := EndReplays(c, now, s, wid, w, false);
      var t := Rule(s, wid, End(w, false), now);
      ReplayKeeps(c, now, s, ops, t);
      assert WorkerWell(t.workers[wid]);
      RecordEditEnabled(c, now, t, wid, SickWorker(t.workers[wid], now));
      ops := Chain(c, now, s, ops, t, [EditWorker(wid, SickWorker(t.workers[wid], now))], Rule(s, wid, v, now));
  }

  lemma PollReplays(c: Config, s: State, wid: Id, pid: Option<Id>, out: PollOutcome, now: Time, at: Time) returns (ops: seq<Op>)
    requires Inv(c, s) && wid in s.workers && Pollable(s.workers[wid].state) && pid.Some?
    ensures Replay(c, now, s, ops) == Some(PollCommit(c, s, wid, pid, out, now, at))
  {
    if s.workers[wid].providerId != pid {
      ops := [];
    } else {
      assert WorkerWell(s.workers[wid]);
      PollFits(c, s.workers[wid], out, now, at);
      var v := PollWorker(c, s.workers[wid], out, now, at);
      ops := RuleReplays(c, now, s, wid, v);
      var m := Rule(s, wid, v, now);
      ops := CreationReplays(c, now, s, ops, m, m.nextCreateAt, s.blocked || PollBlocks(c, out));
    }
  }

  lemma StopReplays(c: Config, s: State, wid: Id, gone: bool, now: Time) returns (ops: seq<Op>)
    requires Inv(c, s) && wid in s.workers && s.workers[wid].state.Stopping?
    ensures Replay(c, now, s, ops) == Some(StopCommit(c, s, wid, gone, now))
  {
    assert WorkerWell(s.workers[wid]);
    var w := s.workers[wid].(nextCheckAt := now + c.pollSeconds);
    RecordEditEnabled(c, now, s, wid, w);
    ops := [EditWorker(wid, w)];
    if gone {
      ReplayOne(c, now, s, ops, Edited(s, wid, w), Close(wid, true));
      ops := ops + [Close(wid, true)];
    }
  }
}
