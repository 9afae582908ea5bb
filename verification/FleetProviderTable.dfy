/** What the commits around provider calls leave in the state, as tables over raw fields. None
    is defined through the functions the commits are made of. */
module FleetProviderTable {
  import opened Basics
  import opened FleetState
  import opened FleetOps
  import opened FleetInvariant
  import opened FleetProvider
  import FleetTickTable
  import FleetTickWhole
  import opened FleetRequests
  import opened FleetHeartbeat

  // ---- What a commit leaves alone ---------------------------------------------------------------

  /** The rooms of a worker fail with a reason, its commands are done, and nothing else changes. */
  ghost predicate RoomsEnd(s: State, t: State, wid: Id, reason: string, now: Time) {
    && t.allocations.Keys == s.allocations.Keys && t.commands.Keys == s.commands.Keys
    && (forall a | a in s.allocations ::
          t.allocations[a] == if s.allocations[a].worker == Some(wid) && Rank(s.allocations[a].state) < 6
                              then s.allocations[a].(state := AllocationState.Failed, error := reason, terminalAt := now, revision := s.allocations[a].revision + 1)
                              else s.allocations[a])
    && (forall k | k in s.commands ::
          t.commands[k] == s.commands[k].(done := t.commands[k].done) && t.commands[k].done == (s.commands[k].done || s.commands[k].worker == wid))
  }

  ghost predicate RoomsStay(s: State, t: State) {
    t.allocations == s.allocations && t.commands == s.commands
  }

  /** Only this worker, its rooms and commands, and the creation fields may differ. */
  ghost predicate OthersStay(s: State, t: State, wid: Id) {
    && wid in s.workers && wid in t.workers && t.workers == s.workers[wid := t.workers[wid]]
    && t.leader == s.leader && t.leaseUntil == s.leaseUntil && t.rooms == s.rooms && t.issued == s.issued
  }

  /** A lifetime too short for admission after launch. */
  predicate TooShort(c: Config, i: Instance) {
    0 < i.ttl && i.ttl <= c.minLifetime + c.launchTimeout
  }

  /** When the provider will end the instance: by its lifetime, if it has one. */
  function ExpiryOf(v: Worker, i: Instance): Time {
    if i.ttl > 0 then (if i.startedAt == None then v.createdAt else i.startedAt.value) + i.ttl else v.providerExpiresAt
  }

  predicate Coming(w: Worker) {
    w.state == Launching || w.state == Bootstrapping
  }

  // ---- poll ---------------------------------------------------------------------------------------

  /** The worker after its instance was found, ours and of the right build. */
  predicate FoundOutcome(c: Config, v: Worker, w: Worker, i: Instance, now: Time, at: Time) {
    var u := v.(providerExpiresAt := ExpiryOf(v, i), nextCheckAt := now + c.pollSeconds);
    if Coming(v) && TooShort(c, i) then
      w == u.(state := Stopping, nextCheckAt := at)
    else if i.status == IsUnhealthy then
      w == u.(state := Stopping, ready := false, providerReady := false, draining := false, updatedAt := now, nextCheckAt := now)
    else if i.status == IsStopped then
      w == u.(state := Stopped, ready := false, providerReady := false, host := "", port := 0, updatedAt := now)
    else if v.state == Lost then
      w == if i.status == IsRunning then u else u.(providerReady := false, host := "", port := 0)
    else if Coming(v) && c.launchTimeout <= now - v.createdAt then
      w == (if i.status == IsRunning then u else u.(providerReady := false, host := "", port := 0)).(state := Stopping, nextCheckAt := now)
    else if i.status == IsRunning && i.endpoint != None then
      && w.host == i.endpoint.value.0 && w.port == i.endpoint.value.1 && w.providerReady
      && w == u.(host := w.host, port := w.port, providerReady := true, state := w.state)
      && w.state == (if v.ready && v.bootId != "" && now <= v.lastHeartbeat + c.heartbeatTimeout then (if v.draining then Draining else Ready)
                     else if Coming(v) then Bootstrapping
                     else if v.draining then v.state else Suspect)
    else
      && w.host == "" && w.port == 0 && !w.providerReady
      && w == u.(host := "", port := 0, providerReady := false, state := w.state)
      && w.state == (if v.state == Ready then Suspect else v.state)
  }

  /** Every outcome of a poll. */
  ghost predicate PollOutcomes(c: Config, s: State, t: State, wid: Id, out: PollOutcome, now: Time, at: Time) {
    && OthersStay(s, t, wid) && t.nextCreateAt == s.nextCreateAt
    && var v, w := s.workers[wid], t.workers[wid];
    var ours := out.Found? && out.instance.owned && out.instance.sameBuild;
    && t.blocked == (s.blocked || (ours && TooShort(c, out.instance)))
    && (if out.QueryFailed? then w == v.(nextCheckAt := now + c.pollSeconds) && RoomsStay(s, t)
        else if out.Missing? then
          w == v.(nextCheckAt := now + c.pollSeconds, state := Stopped, ready := false, providerReady := false, updatedAt := now) && RoomsEnd(s, t, wid, "server_stopped", now)
        else if !ours then
          w == v.(nextCheckAt := now + c.pollSeconds, state := Lost, ready := false, providerReady := false, updatedAt := now) && RoomsEnd(s, t, wid, "server_lost", now)
        else
          && FoundOutcome(c, v, w, out.instance, now, at)
          && (if Coming(v) && TooShort(c, out.instance) then RoomsStay(s, t)
              else if out.instance.status == IsUnhealthy then RoomsEnd(s, t, wid, "server_lost", now)
              else if out.instance.status == IsStopped then RoomsEnd(s, t, wid, "server_stopped", now)
              else RoomsStay(s, t)))
  }

  /** What a verdict does to the worker itself. */
  function Ruled(v: Verdict, now: Time): Worker {
    match v
    case Keep(w) => w
    case End(w, gone) => w.(state := if gone then Stopped else Lost, ready := false, providerReady := false, updatedAt := now)
    case Sick(w) => w.(state := Stopping, ready := false, providerReady := false, updatedAt := now, draining := false, nextCheckAt := now)
  }

  lemma ClosingEndsRooms(s: State, wid: Id, phase: WorkerState, reason: string, now: Time)
    requires wid in s.workers
    ensures RoomsEnd(s, CloseWorker(s, wid, phase, reason, now), wid, reason, now)
  {
  }

  /** What a verdict leaves in the state. */
  ghost predicate Obeyed(s: State, t: State, wid: Id, v: Verdict, now: Time) {
    && t == s.(workers := s.workers[wid := Ruled(v, now)], allocations := t.allocations, commands := t.commands)
    && (if v.Keep? then RoomsStay(s, t)
        else RoomsEnd(s, t, wid, if v.End? && v.gone then "server_stopped" else "server_lost", now))
  }

  lemma EndObeyed(s: State, wid: Id, w: Worker, phase: WorkerState, reason: string, now: Time)
    requires wid in s.workers
    ensures var t := CloseWorker(Edited(s, wid, w), wid, phase, reason, now);
            && t == s.(workers := s.workers[wid := w.(state := phase, ready := false, providerReady := false, updatedAt := now)], allocations := t.allocations, commands := t.commands)
            && RoomsEnd(s, t, wid, reason, now)
  {
    var m := Edited(s, wid, w);
    ClosingEndsRooms(m, wid, phase, reason, now);
    assert m.workers[wid := w.(state := phase, ready := false, providerReady := false, updatedAt := now)] ==
           s.workers[wid := w.(state := phase, ready := false, providerReady := false, updatedAt := now)];
  }

  lemma SickObeyed(s: State, wid: Id, w: Worker, now: Time)
    requires wid in s.workers
    ensures Obeyed(s, Rule(s, wid, Sick(w), now), wid, Sick(w), now)
  {
    EndObeyed(s, wid, w, Lost, "server_lost", now);
    var m := LoseWorker(Edited(s, wid, w), wid, now);
    assert m.workers[wid := Ruled(Sick(w), now)] == s.workers[wid := Ruled(Sick(w), now)];
  }

  lemma RuleObeyed(s: State, wid: Id, v: Verdict, now: Time)
    requires wid in s.workers
    ensures Obeyed(s, Rule(s, wid, v, now), wid, v, now)
  {
    match v
    case Keep(w) =>
    case End(w, gone) => EndObeyed(s, wid, w, if gone then Stopped else Lost, if gone then "server_stopped" else "server_lost", now);
    case Sick(w) => SickObeyed(s, wid, w, now);
  }

  predicate CutShort(c: Config, v: Worker, i: Instance) {
    Coming(v) && TooShort(c, i)
  }

  /** The verdict on a found instance is the table's. */
  predicate FoundWell(c: Config, v: Worker, i: Instance, d: Verdict, now: Time, at: Time) {
    && FoundOutcome(c, v, Ruled(d, now), i, now, at)
    && (d.Keep? <==> CutShort(c, v, i) || (i.status != IsUnhealthy && i.status != IsStopped))
    && (d.Sick? <==> !CutShort(c, v, i) && i.status == IsUnhealthy)
    && (d.End? ==> d.gone)
  }

  function Timed(c: Config, v: Worker, i: Instance, now: Time, at: Time): Worker {
    v.(nextCheckAt := if CutShort(c, v, i) then at else now + c.pollSeconds, providerExpiresAt := ExpiryOf(v, i), state := if CutShort(c, v, i) then Stopping else v.state)
  }

  lemma LifetimeAgrees(c: Config, v: Worker, i: Instance, now: Time, at: Time)
    ensures Lifetime(c, v.(nextCheckAt := now + c.pollSeconds), i, at) == Timed(c, v, i, now, at)
  {
    assert CutShort(c, v, i) == (ShortLived(c, i) && (v.state.Launching? || v.state.Bootstrapping?));
  }

  lemma EndingAgrees(c: Config, v: Worker, i: Instance, now: Time, at: Time)
    requires WorkerWell(v) && Pollable(v.state) && (CutShort(c, v, i) || i.status == IsUnhealthy || i.status == IsStopped)
    ensures FoundWell(c, v, i, PollFound(c, Timed(c, v, i, now, at), i, now), now, at)
  {
  }

  lemma LostOrLateAgrees(c: Config, v: Worker, i: Instance, now: Time, at: Time)
    requires WorkerWell(v) && Pollable(v.state) && !CutShort(c, v, i) && i.status != IsUnhealthy && i.status != IsStopped
    requires v.state == Lost || (Coming(v) && c.launchTimeout <= now - v.createdAt)
    ensures FoundWell(c, v, i, PollFound(c, Timed(c, v, i, now, at), i, now), now, at)
  {
  }

  lemma LiveAgrees(c: Config, v: Worker, i: Instance, now: Time, at: Time)
    requires WorkerWell(v) && Pollable(v.state) && !CutShort(c, v, i) && i.status != IsUnhealthy && i.status != IsStopped
    requires v.state != Lost && !(Coming(v) && c.launchTimeout <= now - v.createdAt)
    ensures FoundWell(c, v, i, PollFound(c, Timed(c, v, i, now, at), i, now), now, at)
  {
  }

  lemma FoundAgrees(c: Config, v: Worker, i: Instance, now: Time, at: Time)
    requires WorkerWell(v) && Pollable(v.state) && i.owned && i.sameBuild
    ensures FoundWell(c, v, i, PollWorker(c, v, Found(i), now, at), now, at)
  {
    LifetimeAgrees(c, v, i, now, at);
    assert PollWorker(c, v, Found(i), now, at) == PollFound(c, Timed(c, v, i, now, at), i, now);
    if CutShort(c, v, i) || i.status == IsUnhealthy || i.status == IsStopped {
      EndingAgrees(c, v, i, now, at);
    } else if v.state == Lost || (Coming(v) && c.launchTimeout <= now - v.createdAt) {
      LostOrLateAgrees(c, v, i, now, at);
    } else {
      LiveAgrees(c, v, i, now, at);
    }
  }

  lemma PolledStays(c: Config, s: State, wid: Id, v: Verdict, out: PollOutcome, now: Time, at: Time)
    requires wid in s.workers && v == PollWorker(c, s.workers[wid], out, now, at)
    ensures var t := PollCommit(c, s, wid, s.workers[wid].providerId, out, now, at);
            && t == s.(workers := s.workers[wid := Ruled(v, now)], allocations := t.allocations, commands := t.commands,
                       blocked := s.blocked || (out.Found? && out.instance.owned && out.instance.sameBuild && TooShort(c, out.instance)))
            && (if v.Keep? then RoomsStay(s, t) else RoomsEnd(s, t, wid, if v.End? && v.gone then "server_stopped" else "server_lost", now))
  {
    RuleObeyed(s, wid, v, now);
  }

  lemma FoundPollAgrees(c: Config, s: State, t: State, wid: Id, v: Verdict, i: Instance, now: Time, at: Time)
    requires wid in s.workers && FoundWell(c, s.workers[wid], i, v, now, at) && i.owned && i.sameBuild
    requires t == s.(workers := s.workers[wid := Ruled(v, now)], allocations := t.allocations, commands := t.commands, blocked := s.blocked || TooShort(c, i))
    requires if v.Keep? then RoomsStay(s, t) else RoomsEnd(s, t, wid, if v.End? && v.gone then "server_stopped" else "server_lost", now)
    ensures PollOutcomes(c, s, t, wid, Found(i), now, at)
  {
  }

  lemma OtherPollAgrees(c: Config, s: State, t: State, wid: Id, v: Verdict, out: PollOutcome, now: Time, at: Time)
    requires wid in s.workers && v == PollWorker(c, s.workers[wid], out, now, at) && !(out.Found? && out.instance.owned && out.instance.sameBuild)
    requires t == s.(workers := s.workers[wid := Ruled(v, now)], allocations := t.allocations, commands := t.commands)
    requires if v.Keep? then RoomsStay(s, t) else RoomsEnd(s, t, wid, if v.End? && v.gone then "server_stopped" else "server_lost", now)
    ensures PollOutcomes(c, s, t, wid, out, now, at)
  {
  }

  /** The poll commit agrees with its table, on every worker a poll can find. */
  lemma PollAgrees(c: Config, s: State, wid: Id, pid: Option<Id>, out: PollOutcome, now: Time, at: Time)
    requires wid in s.workers && WorkerWell(s.workers[wid]) && Pollable(s.workers[wid].state) && s.workers[wid].providerId == pid
    ensures PollOutcomes(c, s, PollCommit(c, s, wid, pid, out, now, at), wid, out, now, at)
  {
    var v := PollWorker(c, s.workers[wid], out, now, at);
    var t := PollCommit(c, s, wid, pid, out, now, at);
    PolledStays(c, s, wid, v, out, now, at);
    if out.Found? && out.instance.owned && out.instance.sameBuild {
      assert out == Found(out.instance);
      FoundAgrees(c, s.workers[wid], out.instance, now, at);
      FoundPollAgrees(c, s, t, wid, v, out.instance, now, at);
    } else {
      OtherPollAgrees(c, s, t, wid, v, out, now, at);
    }
  }

  /** A running instance with an endpoint makes a freshly reporting worker fit for rooms. */
  lemma PollAdmits(c: Config, s: State, wid: Id, pid: Option<Id>, i: Instance, now: Time, at: Time)
    requires wid in s.workers && WorkerWell(s.workers[wid]) && Running(s.workers[wid].state) && s.workers[wid].providerId == pid
    requires i.owned && i.sameBuild && i.status == IsRunning && i.endpoint != None && i.endpoint.value.0 != "" && i.ttl <= 0
    requires var v := s.workers[wid];
             && !(Coming(v) && c.launchTimeout <= now - v.createdAt) && !v.draining && v.ready && v.bootId != "" && now <= v.lastHeartbeat + c.heartbeatTimeout
             && v.region == c.region && v.buildHash == c.buildHash && v.metrics.oldestSeconds <= c.maxQueueAge && v.metrics.frameP99 <= 100.0
             && (v.providerExpiresAt == 0 || now + c.minLifetime < v.providerExpiresAt)
    ensures var w := PollCommit(c, s, wid, pid, Found(i), now, at).workers[wid];
            FleetTickTable.Fit(c, w, now) && Eligible(c, w, now) && (w.host, w.port) == i.endpoint.value
  {
    PollAgrees(c, s, wid, pid, Found(i), now, at);
    FleetTickTable.FitIsEligible(c, PollCommit(c, s, wid, pid, Found(i), now, at).workers[wid], now);
  }

  // ---- start --------------------------------------------------------------------------------------

  /** An instance was created or found: the worker launches, unless its lifetime is too short. */
  predicate Launched(c: Config, v: Worker, w: Worker, i: Instance, check: Time, at: Time) {
    w == v.(providerId := Some(i.id), providerExpiresAt := ExpiryOf(v, i),
            state := if TooShort(c, i) then Stopping else Launching, nextCheckAt := if TooShort(c, i) then at else check)
  }

  /** Every outcome of a start, on the worker it was claimed for. */
  ghost predicate StartOutcomes(c: Config, s: State, t: State, wid: Id, out: StartOutcome, now: Time, at: Time) {
    && OthersStay(s, t, wid) && RoomsStay(s, t)
    && var v, w := s.workers[wid].(updatedAt := at), t.workers[wid];
    match out
    case Ambiguous => w == v.(state := Unknown, nextCheckAt := now + 1) && t.blocked == s.blocked && t.nextCreateAt == now + 15
    case Conflict => w == v.(state := Unknown, nextCheckAt := now + 1) && t.blocked && t.nextCreateAt == now + 15
    case Denied(review) => w == v.(state := WorkerState.Failed) && t.blocked == (s.blocked || review) && t.nextCreateAt == now + 15
    case Started(i) => Launched(c, v, w, i, at, at) && t.blocked == (s.blocked || TooShort(c, i)) && t.nextCreateAt == s.nextCreateAt
  }

  lemma LaunchAgrees(c: Config, v: Worker, i: Instance, check: Time, at: Time)
    ensures Launched(c, v, Lifetime(c, v.(providerId := Some(i.id), state := Launching, nextCheckAt := check), i, at), i, check, at)
  {
    assert TooShort(c, i) == ShortLived(c, i);
  }

  lemma StartAgrees(c: Config, s: State, wid: Id, out: StartOutcome, now: Time, at: Time)
    requires wid in s.workers
    ensures StartOutcomes(c, s, StartCommit(c, s, wid, out, now, at), wid, out, now, at)
  {
    if out.Started? {
      LaunchAgrees(c, s.workers[wid].(updatedAt := at), out.instance, at, at);
    }
  }

  // ---- reconcile and stop ---------------------------------------------------------------------------

  ghost predicate ReconcileOutcomes(c: Config, s: State, t: State, wid: Id, out: ReconcileOutcome, now: Time, at: Time) {
    if wid !in s.workers || s.workers[wid].state != Unknown then t == s
    else
      && OthersStay(s, t, wid) && RoomsStay(s, t) && t.nextCreateAt == s.nextCreateAt
      && var v, w := s.workers[wid], t.workers[wid];
      match out
      case Recovered(i) => Launched(c, v, w, i, now, at) && t.blocked == (s.blocked || TooShort(c, i))
      case Several => w == v.(nextCheckAt := now + c.pollSeconds) && t.blocked == s.blocked
      case StillUnknown(review) => w == v.(nextCheckAt := now + c.pollSeconds) && t.blocked == (s.blocked || review)
  }

  lemma ReconcileAgrees(c: Config, s: State, wid: Id, out: ReconcileOutcome, now: Time, at: Time)
    ensures ReconcileOutcomes(c, s, ReconcileCommit(c, s, wid, out, now, at), wid, out, now, at)
  {
    if wid in s.workers && out.Recovered? {
      LaunchAgrees(c, s.workers[wid], out.instance, now, at);
    }
  }

  ghost predicate StopOutcomes(c: Config, s: State, t: State, wid: Id, gone: bool, now: Time) {
    && OthersStay(s, t, wid) && t.blocked == s.blocked && t.nextCreateAt == s.nextCreateAt
    && var v, w := s.workers[wid].(nextCheckAt := now + c.pollSeconds), t.workers[wid];
    if gone then w == v.(state := Stopped, ready := false, providerReady := false, updatedAt := now) && RoomsEnd(s, t, wid, "server_stopped", now)
    else w == v && RoomsStay(s, t)
  }

  lemma StopAgrees(c: Config, s: State, wid: Id, gone: bool, now: Time)
    requires wid in s.workers
    ensures StopOutcomes(c, s, StopCommit(c, s, wid, gone, now), wid, gone, now)
  {
    if gone {
      EndObeyed(s, wid, s.workers[wid].(nextCheckAt := now + c.pollSeconds), Stopped, "server_stopped", now);
    }
  }

  // ---- What blocks creation -------------------------------------------------------------------------

  /** After a conflict no tick and no request creates a worker while the block stands. */
  lemma ConflictHoldsCreationBack(c: Config, s: State, wid: Id, now: Time, at: Time, owner: Id, u: State, later: Time,
                                  maxPlayers: int, users: seq<string>, regions: seq<string>, r: Result<Id>, v: State)
    requires wid in s.workers
    ensures var t := StartCommit(c, s, wid, Conflict, now, at);
            && t.blocked && t.workers[wid].state == Unknown
            && (FleetTickWhole.TickDone(c, owner, t, u, later) ==> u.blocked && forall w | w in u.workers :: w in t.workers)
            && (Creates(c, t, maxPlayers, users, regions, later, r, v) ==> v == t && r.Rejected?)
  {
    StartAgrees(c, s, wid, Conflict, now, at);
  }
}
