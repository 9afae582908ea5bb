/** Heartbeats that arrive duplicated, reordered or late, mixed with any other transactions:
    only the accepted ones matter, they come in order, and no command outcome counts twice. */
module FleetTrace {
  import opened Basics
  import opened FleetState
  import opened FleetOps
  import opened FleetInvariant
  import opened FleetPreserve
  import opened FleetHistory
  import opened FleetHeartbeat

  datatype Message =
    | Beat(now: Time, report: Report, draws: seq<Draw>)
    | Other(now: Time, ops: seq<Op>)

  /** One delivery: a refused report or transaction changes nothing. */
  ghost function Deliver(c: Config, s: State, e: Message): State {
    match e
    case Beat(now, h, ds) =>
      if |ds| != |h.results| then s
      else (match Heartbeat(c, now, s, h, ds) case Refused(_) => s case Committed(t) => t)
    case Other(now, ops) =>
      (match Replay(c, now, s, ops) case None => s case Some(t) => t)
  }

  /** The draws of a committed report are new. */
  ghost predicate Fair(c: Config, s: State, e: Message) {
    e.Beat? ==> |e.draws| == |e.report.results| && ReportDraws(c, e.now, s, e.report, e.draws)
  }

  ghost function Play(c: Config, s: State, es: seq<Message>): State {
    if es == [] then s else Deliver(c, Play(c, s, es[..|es| - 1]), es[|es| - 1])
  }

  ghost predicate AllFair(c: Config, s: State, es: seq<Message>) {
    es == [] || (AllFair(c, s, es[..|es| - 1]) && Fair(c, Play(c, s, es[..|es| - 1]), es[|es| - 1]))
  }

  /** A report that is new and commits. */
  ghost predicate Accepted(c: Config, s: State, e: Message) {
    e.Beat? && |e.draws| == |e.report.results| && Accepts(s, e.report) && Heartbeat(c, e.now, s, e.report, e.draws).Committed?
  }

  /** The trace without the reports that were not accepted. */
  ghost function Kept(c: Config, s: State, es: seq<Message>): seq<Message> {
    if es == [] then []
    else
      var n := |es| - 1;
      Kept(c, s, es[..n]) + if es[n].Other? || Accepted(c, Play(c, s, es[..n]), es[n]) then [es[n]] else []
  }

  lemma UnacceptedChangesNothing(c: Config, s: State, e: Message)
    requires e.Beat? && !Accepted(c, s, e)
    ensures Deliver(c, s, e) == s
  {
  }

  /** Dropping what was not accepted changes nothing. */
  lemma {:induction false} OnlyAcceptedMatters(c: Config, s: State, es: seq<Message>)
    ensures Play(c, s, Kept(c, s, es)) == Play(c, s, es)
  {
    if es != [] {
      var n := |es| - 1;
      var before := es[..n];
      OnlyAcceptedMatters(c, s, before);
      if es[n].Other? || Accepted(c, Play(c, s, before), es[n]) {
        var k := Kept(c, s, es);
        assert k[..|k| - 1] == Kept(c, s, before) && k[|k| - 1] == es[n];
      } else {
        UnacceptedChangesNothing(c, Play(c, s, before), es[n]);
        assert Kept(c, s, es) == Kept(c, s, before);
      }
    }
  }

  lemma DeliverKeeps(c: Config, s: State, e: Message)
    requires Inv(c, s) && Fair(c, s, e)
    ensures Inv(c, Deliver(c, s, e)) && Evolves(s, Deliver(c, s, e))
  {
    var t := Deliver(c, s, e);
    if e.Beat? && Heartbeat(c, e.now, s, e.report, e.draws).Committed? {
      var ops := HeartbeatReplays(c, e.now, s, e.report, e.draws);
      DeliverByOps(c, e.now, s, ops, t);
    } else if e.Other? && Replay(c, e.now, s, e.ops).Some? {
      DeliverByOps(c, e.now, s, e.ops, t);
    } else {
      DeliverByOps(c, 0, s, [], t);
    }
  }

  lemma DeliverByOps(c: Config, now: Time, s: State, ops: seq<Op>, t: State)
    requires Inv(c, s) && Replay(c, now, s, ops) == Some(t)
    ensures Inv(c, t) && Evolves(s, t)
  {
    ReplayKeeps(c, now, s, ops, t);
    ReplayEvolves(c, now, s, ops, t);
  }

  lemma {:induction false} PlayKeeps(c: Config, s: State, es: seq<Message>)
    requires Inv(c, s) && AllFair(c, s, es)
    ensures Inv(c, Play(c, s, es))
  {
    if es != [] {
      PlayKeeps(c, s, es[..|es| - 1]);
      DeliverKeeps(c, Play(c, s, es[..|es| - 1]), es[|es| - 1]);
    }
  }

  // ---- Accepted reports come in order ---------------------------------------------------

  /** The worker of an accepted report remembers its number as long as it exists. */
  ghost predicate Remembers(s: State, h: Report) {
    h.worker in s.issued && (h.worker in s.workers ==> h.sequence <= s.workers[h.worker].lastSequence)
  }

  lemma RemembersOn(s: State, t: State, h: Report)
    requires Remembers(s, h) && Evolves(s, t)
    ensures Remembers(t, h)
  {
    assert h.worker in t.workers && h.worker in s.workers ==> WorkerEvolves(s.workers[h.worker], t.workers[h.worker]);
  }

  lemma AcceptedIsRemembered(c: Config, s: State, e: Message)
    requires Inv(c, s) && Fair(c, s, e) && Accepted(c, s, e)
    ensures Remembers(Deliver(c, s, e), e.report)
  {
    HeartbeatOnly(c, e.now, s, e.report, e.draws);
    DeliverKeeps(c, s, e);
  }

  ghost predicate AllRemembered(s: State, es: seq<Message>) {
    forall i | 0 <= i < |es| && es[i].Beat? :: Remembers(s, es[i].report)
  }

  lemma {:induction false} KeptIsRemembered(c: Config, s: State, es: seq<Message>)
    requires Inv(c, s) && AllFair(c, s, es)
    ensures AllRemembered(Play(c, s, es), Kept(c, s, es))
  {
    if es != [] {
      var n := |es| - 1;
      var m := Play(c, s, es[..n]);
      KeptIsRemembered(c, s, es[..n]);
      PlayKeeps(c, s, es[..n]);
      DeliverKeeps(c, m, es[n]);
      RememberedOn(m, Deliver(c, m, es[n]), Kept(c, s, es[..n]));
      if Accepted(c, m, es[n]) {
        AcceptedIsRemembered(c, m, es[n]);
      }
    }
  }

  lemma RememberedOn(s: State, t: State, es: seq<Message>)
    requires AllRemembered(s, es) && Evolves(s, t)
    ensures AllRemembered(t, es)
  {
    forall i | 0 <= i < |es| && es[i].Beat? ensures Remembers(t, es[i].report) {
      RemembersOn(s, t, es[i].report);
    }
  }

  ghost predicate InOrder(es: seq<Message>) {
    forall i, j | 0 <= i < j < |es| && es[i].Beat? && es[j].Beat? && es[i].report.worker == es[j].report.worker ::
      es[i].report.sequence < es[j].report.sequence
  }

  /** The accepted reports of each worker carry strictly increasing numbers. */
  lemma {:induction false} AcceptedComeInOrder(c: Config, s: State, es: seq<Message>)
    requires Inv(c, s) && AllFair(c, s, es)
    ensures InOrder(Kept(c, s, es))
  {
    if es != [] {
      var n := |es| - 1;
      var m := Play(c, s, es[..n]);
      AcceptedComeInOrder(c, s, es[..n]);
      KeptIsRemembered(c, s, es[..n]);
      var k := Kept(c, s, es[..n]);
      if Accepted(c, m, es[n]) {
        forall i | 0 <= i < |k| && k[i].Beat? && k[i].report.worker == es[n].report.worker
          ensures k[i].report.sequence < es[n].report.sequence
        {
          assert Remembers(m, k[i].report);
        }
      }
    }
  }

  // ---- No outcome counts twice ----------------------------------------------------------

  /** The commands whose outcome a list of results decides, in order. */
  ghost function Decided(c: Config, now: Time, s: State, wid: Id, rs: seq<CommandResult>, ds: seq<Draw>): seq<Id>
    requires |ds| == |rs|
  {
    if rs == [] then []
    else
      var n := |rs| - 1;
      var before := ApplyResults(c, now, s, wid, rs[..n], ds[..n]);
      Decided(c, now, s, wid, rs[..n], ds[..n]) +
        if before.Some? && Undone(before.value.commands, rs[n].command) then [rs[n].command] else []
  }

  ghost function DecidedBy(c: Config, s: State, e: Message): seq<Id> {
    if Accepted(c, s, e) then Decided(c, e.now, Hear(s, e.report, e.now), e.report.worker, e.report.results, e.draws) else []
  }

  ghost function Log(c: Config, s: State, es: seq<Message>): seq<Id> {
    if es == [] then [] else Log(c, s, es[..|es| - 1]) + DecidedBy(c, Play(c, s, es[..|es| - 1]), es[|es| - 1])
  }

  ghost predicate Settled(s: State, log: seq<Id>) {
    forall i | 0 <= i < |log| :: log[i] in s.issued && !Undone(s.commands, log[i])
  }

  lemma SettledOn(s: State, t: State, log: seq<Id>)
    requires Settled(s, log) && s.issued <= t.issued && CommandsEvolve(s, t)
    ensures Settled(t, log)
  {
  }

  lemma ResultSettles(c: Config, now: Time, s: State, wid: Id, r: CommandResult, d: Draw)
    requires s.commands.Keys <= s.issued && d.command !in s.issued && ApplyResult(c, now, s, wid, r, d).Some?
    ensures var t := ApplyResult(c, now, s, wid, r, d).value;
            r.command in t.issued && !Undone(t.commands, r.command)
  {
  }

  lemma SnocDistinct(log: seq<Id>, x: Id)
    requires Distinct(log) && x !in log
    ensures Distinct(log + [x])
  {
  }

  /** The log after one more result. */
  ghost function Logged(m: State, log: seq<Id>, r: CommandResult): seq<Id> {
    log + if Undone(m.commands, r.command) then [r.command] else []
  }

  /** A log without repetition of commands that are settled. */
  ghost predicate LogWell(s: State, log: seq<Id>) {
    Settled(s, log) && Distinct(log)
  }

  lemma LoggedWell(m: State, t: State, log: seq<Id>, r: CommandResult)
    requires LogWell(m, log) && Settled(t, log) && r.command in t.issued && !Undone(t.commands, r.command)
    ensures LogWell(t, Logged(m, log, r))
  {
    if Undone(m.commands, r.command) {
      SnocDistinct(log, r.command);
    } else {
      assert log + [] == log;
    }
  }

  lemma LastDecidesOnce(c: Config, now: Time, m: State, wid: Id, r: CommandResult, d: Draw, log: seq<Id>)
    requires Inv(c, m) && d.command !in m.issued && ApplyResult(c, now, m, wid, r, d).Some? && LogWell(m, log)
    ensures LogWell(ApplyResult(c, now, m, wid, r, d).value, Logged(m, log, r))
  {
    var t := ApplyResult(c, now, m, wid, r, d).value;
    var ops := ResultReplays(c, now, m, wid, r, d);
    ReplayEvolves(c, now, m, ops, t);
    SettledOn(m, t, log);
    ResultSettles(c, now, m, wid, r, d);
    LoggedWell(m, t, log, r);
  }

  lemma ResultsKeep(c: Config, now: Time, s: State, wid: Id, rs: seq<CommandResult>, ds: seq<Draw>)
    requires Inv(c, s) && |ds| == |rs| && wid in s.workers && FreshDraws(c, now, s, wid, rs, ds) && ApplyResults(c, now, s, wid, rs, ds).Some?
    ensures Inv(c, ApplyResults(c, now, s, wid, rs, ds).value)
  {
    var ops := ResultsReplay(c, now, s, wid, rs, ds);
    ReplayKeeps(c, now, s, ops, ApplyResults(c, now, s, wid, rs, ds).value);
  }

  /** Deciding a list of results on top of a log of settled commands. */
  lemma {:induction false} ResultsDecideOnce(c: Config, now: Time, s: State, wid: Id, rs: seq<CommandResult>, ds: seq<Draw>, log: seq<Id>)
    requires Inv(c, s) && |ds| == |rs| && wid in s.workers && FreshDraws(c, now, s, wid, rs, ds) && ApplyResults(c, now, s, wid, rs, ds).Some?
    requires LogWell(s, log)
    ensures LogWell(ApplyResults(c, now, s, wid, rs, ds).value, log + Decided(c, now, s, wid, rs, ds))
  {
    if rs == [] {
      assert log + [] == log;
    } else {
      var n := |rs| - 1;
      var m := ApplyResults(c, now, s, wid, rs[..n], ds[..n]).value;
      var before := Decided(c, now, s, wid, rs[..n], ds[..n]);
      ResultsDecideOnce(c, now, s, wid, rs[..n], ds[..n], log);
      ResultsKeep(c, now, s, wid, rs[..n], ds[..n]);
      LastDecidesOnce(c, now, m, wid, rs[n], ds[n], log + before);
      assert log + Decided(c, now, s, wid, rs, ds) == Logged(m, log + before, rs[n]);
    }
  }

  lemma BeatDecidesOnce(c: Config, s: State, e: Message, log: seq<Id>)
    requires Inv(c, s) && Fair(c, s, e) && Accepted(c, s, e) && LogWell(s, log)
    ensures LogWell(Deliver(c, s, e), log + DecidedBy(c, s, e))
  {
    var h := e.report;
    var r := Hear(s, h, e.now);
    AcceptedSteps(c, e.now, s, h, e.draws);
    var first := HearingReplays(c, e.now, s, h);
    SettledOn(s, r, log);
    ResultsDecideOnce(c, e.now, r, h.worker, h.results, e.draws, log);
    var m := ApplyResults(c, e.now, r, h.worker, h.results, e.draws).value;
    RoomsCountOnly(c, e.now, m, h.worker, h.rooms);
    SettledOn(m, Deliver(c, s, e), log + DecidedBy(c, s, e));
  }

  /** Over any trace, no command is decided twice. */
  lemma {:induction false} OutcomesCountOnce(c: Config, s: State, es: seq<Message>)
    requires Inv(c, s) && AllFair(c, s, es)
    ensures Distinct(Log(c, s, es)) && Settled(Play(c, s, es), Log(c, s, es))
  {
    if es != [] {
      var n := |es| - 1;
      var m := Play(c, s, es[..n]);
      var log := Log(c, s, es[..n]);
      OutcomesCountOnce(c, s, es[..n]);
      PlayKeeps(c, s, es[..n]);
      if Accepted(c, m, es[n]) {
        BeatDecidesOnce(c, m, es[n], log);
      } else {
        DeliverKeeps(c, m, es[n]);
        SettledOn(m, Deliver(c, m, es[n]), log);
        assert log + [] == log;
      }
    }
  }
}
