/** The alert engine of the console: what one evaluation does to one alert key. */
module AlertKey {
  import opened Basics

  datatype Config = Config(enabled: bool, notify: bool, hold: int, cooldown: int)

  predicate ValidConfig(c: Config) {
    15 <= c.hold <= 1800 && 60 <= c.cooldown <= 86400
  }

  /** A sample of the snapshot: absent, present without a trustworthy value, or known. */
  datatype Reading = Missing | Unclear | Known(breached: bool)

  datatype Level = Fresh | Unknown | Pending | Firing | Recovering | Healthy

  datatype Condition = Condition(
    level: Level, since: Time, lastObserved: Time, lastNotified: Time, lastAttempt: Time,
    firing: bool, recoverySince: Time, recoveryPending: bool)

  const NewCondition := Condition(Fresh, 0, 0, 0, 0, false, 0, false)

  function Existing(a: Option<Condition>): Condition {
    if a.Some? then a.value else NewCondition
  }

  function Blurred(a: Condition): Condition {
    a.(level := Unknown, since := if a.firing then a.since else 0, recoverySince := 0)
  }

  predicate Gap(a: Condition, now: Time) {
    a.lastObserved > 0 && now - a.lastObserved > 20
  }

  function BreachSince(a: Condition, now: Time): Time {
    if a.since == 0 || Gap(a, now) then now else a.since
  }

  function CalmSince(a: Condition, now: Time): Time {
    if a.recoverySince == 0 || Gap(a, now) then now else a.recoverySince
  }

  /** A known sample above the threshold. */
  function Breach(c: Config, a: Condition, now: Time): Condition {
    var b := a.(lastObserved := now, recoverySince := 0, recoveryPending := false);
    if a.firing then b.(level := Firing)
    else
      var since := BreachSince(a, now);
      if now - since >= c.hold then b.(since := since, firing := true, level := Firing)
      else b.(since := since, level := Pending)
  }

  /** A known sample within the threshold. */
  function Calm(c: Config, a: Condition, now: Time): Condition {
    var b := a.(lastObserved := now);
    if !a.firing then b.(level := Healthy, since := 0)
    else
      var since := CalmSince(a, now);
      if now - since >= c.hold
      then b.(recoverySince := since, firing := false, level := Healthy, since := 0, recoveryPending := a.lastNotified > 0)
      else b.(recoverySince := since, level := Recovering)
  }

  function Observe(c: Config, a: Condition, breached: bool, now: Time): Condition {
    if breached then Breach(c, a, now) else Calm(c, a, now)
  }

  /** The history entry of an observation: the alert starts firing, or it has recovered. */
  function Turn(a: Condition, b: Condition): Option<bool> {
    if !a.firing && b.firing then Some(true) else if a.firing && !b.firing then Some(false) else None
  }

  predicate FireDue(c: Config, a: Condition, now: Time) {
    a.firing && a.level.Firing? && (a.lastNotified == 0 || now - a.lastNotified >= c.cooldown)
  }

  predicate NoticeDue(c: Config, a: Condition, now: Time) {
    c.notify && (FireDue(c, a, now) || a.recoveryPending) && now - a.lastAttempt >= 30
  }

  predicate Forgettable(a: Condition, now: Time) {
    && (a.level.Healthy? || a.level.Unknown?) && !a.firing && !a.recoveryPending && now - a.lastObserved > 86400
  }

  /** The condition of a key after its sample; `tried` says that a notice goes out. */
  function Judge(c: Config, a: Option<Condition>, r: Reading, tried: bool, now: Time): Option<Condition> {
    match r
    case Missing => if a.None? then None else Some(Blurred(a.value))
    case Unclear => Some(Blurred(Existing(a)))
    case Known(breached) =>
      var b := Observe(c, Existing(a), breached, now);
      Some(if tried then b.(lastAttempt := now) else b)
  }

  function Forget(a: Option<Condition>, now: Time): Option<Condition> {
    if a.Some? && Forgettable(a.value, now) then None else a
  }

  /** The history entry a key adds. */
  function Entry(c: Config, a: Option<Condition>, r: Reading, now: Time): Option<bool> {
    if r.Known? then Turn(Existing(a), Observe(c, Existing(a), r.breached, now)) else None
  }

  /** The condition after a notice about it was recorded as delivered. */
  function Noted(a: Condition, recovery: bool, at: Time): Condition {
    a.(lastNotified := at, recoveryPending := if recovery then false else a.recoveryPending)
  }

  /** The level a key is shown with tells its sample and whether it fires. */
  lemma LevelTellsState(c: Config, a: Option<Condition>, r: Reading, tried: bool, now: Time)
    requires Judge(c, a, r, tried, now).Some?
    ensures var b := Judge(c, a, r, tried, now).value;
            && (b.level == Firing <==> r == Known(true) && b.firing) && (b.level == Pending <==> r == Known(true) && !b.firing)
            && (b.level == Recovering <==> r == Known(false) && b.firing) && (b.level == Healthy <==> r == Known(false) && !b.firing)
            && (!r.Known? ==> b.level == Unknown && b.firing == Existing(a).firing && b.lastObserved == Existing(a).lastObserved)
            && (r.Known? ==> b.lastObserved == now)
  {
  }

  /** A key is forgotten exactly when it has had no trustworthy sample for over a day, does not fire
      and owes no recovery notice. */
  lemma ForgottenExactly(c: Config, a: Option<Condition>, r: Reading, tried: bool, now: Time)
    ensures Forget(Judge(c, a, r, tried, now), now).None? <==>
            || (a == None && r == Missing)
            || (!r.Known? && !Existing(a).firing && !Existing(a).recoveryPending && 86400 < now - Existing(a).lastObserved)
  {
  }

  // ---- The evaluations of one key ---------------------------------------------------------

  /** A committed evaluation as one key saw it. */
  datatype Look = Look(now: Time, reading: Reading, tried: bool)

  predicate Breaching(o: Look) {
    o.reading.Known? && o.reading.breached
  }

  predicate Calming(o: Look) {
    o.reading.Known? && !o.reading.breached
  }

  /** When the present unbroken run of known breaches began: no other sample, no gap over 20 seconds. */
  ghost function BreachRun(log: seq<Look>): Option<Time> {
    if log == [] || !Breaching(log[|log| - 1]) then None
    else Extended(BreachRun(log[..|log| - 1]), log)
  }

  ghost function CalmRun(log: seq<Look>): Option<Time> {
    if log == [] || !Calming(log[|log| - 1]) then None
    else Extended(CalmRun(log[..|log| - 1]), log)
  }

  ghost function Extended(run: Option<Time>, log: seq<Look>): Option<Time>
    requires log != []
  {
    var n := |log| - 1;
    if run.Some? && n > 0 && log[n].now - log[n - 1].now <= 20 then run else Some(log[n].now)
  }

  /** From index `i` on every evaluation is a known breach (or known calm), at most 20 seconds apart. */
  ghost predicate Unbroken(log: seq<Look>, i: nat, breached: bool) {
    && i < |log| && (forall j | i <= j < |log| :: log[j].reading == Known(breached))
    && (forall j | i < j < |log| :: log[j].now - log[j - 1].now <= 20)
  }

  lemma {:induction false} BreachRunIsUnbroken(log: seq<Look>) returns (i: nat)
    requires BreachRun(log).Some?
    ensures Unbroken(log, i, true) && log[i].now == BreachRun(log).value
  {
    var n := |log| - 1;
    if BreachRun(log[..n]).Some? && n > 0 && log[n].now - log[n - 1].now <= 20 {
      i := BreachRunIsUnbroken(log[..n]);
      forall j | i <= j < |log| ensures log[j].reading == Known(true) {
        assert j < n ==> log[..n][j] == log[j];
      }
      forall j | i < j < |log| ensures log[j].now - log[j - 1].now <= 20 {
        assert j < n ==> log[..n][j] == log[j] && log[..n][j - 1] == log[j - 1];
      }
    } else {
      i := n;
    }
  }

  lemma {:induction false} CalmRunIsUnbroken(log: seq<Look>) returns (i: nat)
    requires CalmRun(log).Some?
    ensures Unbroken(log, i, false) && log[i].now == CalmRun(log).value
  {
    var n := |log| - 1;
    if CalmRun(log[..n]).Some? && n > 0 && log[n].now - log[n - 1].now <= 20 {
      i := CalmRunIsUnbroken(log[..n]);
      forall j | i <= j < |log| ensures log[j].reading == Known(false) {
        assert j < n ==> log[..n][j] == log[j];
      }
      forall j | i < j < |log| ensures log[j].now - log[j - 1].now <= 20 {
        assert j < n ==> log[..n][j] == log[j] && log[..n][j - 1] == log[j - 1];
      }
    } else {
      i := n;
    }
  }

  ghost function LastTried(log: seq<Look>): Option<Time> {
    if log == [] then None
    else if log[|log| - 1].tried then Some(log[|log| - 1].now)
    else LastTried(log[..|log| - 1])
  }

  ghost function Clock(log: seq<Look>): Time {
    if log == [] then 0 else log[|log| - 1].now
  }

  /** What the stored condition knows of the evaluations, and of the last recorded notice. */
  ghost predicate Remembers(a: Option<Condition>, log: seq<Look>, noted: Option<Time>) {
    RunsKept(Existing(a), log) && NoticesKept(a, log, noted)
  }

  ghost predicate RunsKept(a: Condition, log: seq<Look>) {
    && 0 <= a.lastObserved <= Clock(log) && (log != [] ==> 0 < Clock(log))
    && (log != [] && log[|log| - 1].reading.Known? ==> a.lastObserved == Clock(log))
    && (!a.firing ==> a.since == (if BreachRun(log).Some? then BreachRun(log).value else 0))
    && (a.firing ==> a.recoverySince == (if CalmRun(log).Some? then CalmRun(log).value else 0))
    && (BreachRun(log).Some? ==> BreachRun(log).value > 0) && (CalmRun(log).Some? ==> CalmRun(log).value > 0)
  }

  /** A notice the condition no longer knows is more than a day old. */
  ghost predicate NoticesKept(a: Option<Condition>, log: seq<Look>, noted: Option<Time>) {
    && Keeps(LastTried(log), Existing(a).lastAttempt, Existing(a).lastObserved, Clock(log))
    && Keeps(noted, Existing(a).lastNotified, Existing(a).lastObserved, Clock(log))
  }

  ghost predicate Keeps(last: Option<Time>, kept: Time, observed: Time, clock: Time) {
    && 0 <= kept <= observed && (last.None? ==> kept == 0)
    && (last.Some? ==> 0 < last.value && (kept == last.value || (kept == 0 && clock - last.value > 86400)))
  }

  // ---- One evaluation keeps what the condition knows --------------------------------------

  lemma RunsAfter(log: seq<Look>, o: Look)
    ensures BreachRun(log + [o]) == if Breaching(o) then Extended(BreachRun(log), log + [o]) else None
    ensures CalmRun(log + [o]) == if Calming(o) then Extended(CalmRun(log), log + [o]) else None
    ensures LastTried(log + [o]) == if o.tried then Some(o.now) else LastTried(log)
    ensures Clock(log + [o]) == o.now
    ensures forall run :: Extended(run, log + [o]) == if run.Some? && log != [] && o.now - Clock(log) <= 20 then run else Some(o.now)
    ensures BreachRun(log).Some? || CalmRun(log).Some? ==> log != [] && log[|log| - 1].reading.Known?
  {
    assert (log + [o])[..|log|] == log;
  }

  lemma ObserveKeepsRuns(c: Config, a: Condition, log: seq<Look>, breached: bool, tried: bool, now: Time)
    requires RunsKept(a, log) && Clock(log) <= now && 0 < now
    ensures RunsKept(Observe(c, a, breached, now), log + [Look(now, Known(breached), tried)])
  {
    RunsAfter(log, Look(now, Known(breached), tried));
  }

  lemma BlurKeepsRuns(a: Condition, log: seq<Look>, r: Reading, now: Time)
    requires RunsKept(a, log) && Clock(log) <= now && 0 < now && !r.Known?
    ensures RunsKept(Blurred(a), log + [Look(now, r, false)])
    ensures RunsKept(NewCondition, log + [Look(now, r, false)])
  {
    RunsAfter(log, Look(now, r, false));
  }

  /** A notice goes out only for a known sample that makes one due. */
  predicate MayTry(c: Config, a: Option<Condition>, r: Reading, now: Time) {
    r.Known? && NoticeDue(c, Observe(c, Existing(a), r.breached, now), now)
  }

  lemma JudgeKeepsRuns(c: Config, a: Option<Condition>, log: seq<Look>, r: Reading, tried: bool, now: Time)
    requires RunsKept(Existing(a), log) && Clock(log) <= now && 0 < now && (tried ==> r.Known?)
    ensures RunsKept(Existing(Forget(Judge(c, a, r, tried, now), now)), log + [Look(now, r, tried)])
  {
    if r.Known? {
      ObserveKeepsRuns(c, Existing(a), log, r.breached, tried, now);
      assert !Forgettable(Judge(c, a, r, tried, now).value, now);
    } else {
      BlurKeepsRuns(Existing(a), log, r, now);
    }
  }

  lemma JudgeKeepsNotices(c: Config, a: Option<Condition>, log: seq<Look>, noted: Option<Time>, r: Reading, tried: bool, now: Time)
    requires NoticesKept(a, log, noted) && Existing(a).lastObserved <= Clock(log) <= now && 0 < now && (tried ==> MayTry(c, a, r, now))
    ensures NoticesKept(Forget(Judge(c, a, r, tried, now), now), log + [Look(now, r, tried)], noted)
  {
    RunsAfter(log, Look(now, r, tried));
  }

  lemma JudgeRemembers(c: Config, a: Option<Condition>, log: seq<Look>, noted: Option<Time>, r: Reading, tried: bool, now: Time)
    requires Remembers(a, log, noted) && Clock(log) <= now && 0 < now && (tried ==> MayTry(c, a, r, now))
    ensures Remembers(Forget(Judge(c, a, r, tried, now), now), log + [Look(now, r, tried)], noted)
  {
    JudgeKeepsRuns(c, a, log, r, tried, now);
    JudgeKeepsNotices(c, a, log, noted, r, tried, now);
  }

  lemma NoteRemembers(a: Condition, log: seq<Look>, noted: Option<Time>, recovery: bool)
    requires Remembers(Some(a), log, noted) && log != [] && log[|log| - 1].reading.Known? && 0 < Clock(log)
    ensures Remembers(Some(Noted(a, recovery, Clock(log))), log, Some(Clock(log)))
  {
  }

  /** An alert starts firing exactly when the present run of breaches has lasted the hold time. */
  lemma FiresExactlyAfterHold(c: Config, a: Option<Condition>, log: seq<Look>, r: Reading, tried: bool, now: Time)
    requires RunsKept(Existing(a), log) && Clock(log) <= now && 0 < now
    ensures Entry(c, a, r, now) == Some(true) <==>
            var run := BreachRun(log + [Look(now, r, tried)]);
            !Existing(a).firing && run.Some? && now - run.value >= c.hold
  {
    RunsAfter(log, Look(now, r, tried));
  }

  /** It recovers exactly when the present run of known healthy samples has lasted the hold time. */
  lemma RecoversExactlyAfterHold(c: Config, a: Option<Condition>, log: seq<Look>, r: Reading, tried: bool, now: Time)
    requires RunsKept(Existing(a), log) && Clock(log) <= now && 0 < now
    ensures Entry(c, a, r, now) == Some(false) <==>
            var run := CalmRun(log + [Look(now, r, tried)]);
            Existing(a).firing && run.Some? && now - run.value >= c.hold
  {
    RunsAfter(log, Look(now, r, tried));
  }

  /** Attempts are at least 30 seconds apart, and a firing notice waits for the cooldown. */
  lemma NoticesKeepTheirDistance(c: Config, a: Option<Condition>, log: seq<Look>, noted: Option<Time>, r: Reading, now: Time)
    requires ValidConfig(c) && Remembers(a, log, noted) && Clock(log) <= now && MayTry(c, a, r, now)
    ensures LastTried(log).Some? ==> now - LastTried(log).value >= 30
    ensures noted.Some? && !Observe(c, Existing(a), r.breached, now).recoveryPending ==> now - noted.value >= c.cooldown
  {
  }

  /** Nothing stands in the way of a notice: no attempt within 30 seconds. */
  ghost predicate Rested(log: seq<Look>, now: Time) {
    30 <= now && (LastTried(log).Some? ==> 30 <= now - LastTried(log).value)
  }

  /** A firing alert that was not noticed within the cooldown must be noticed. */
  lemma FiringMustBeNoticed(c: Config, a: Option<Condition>, log: seq<Look>, noted: Option<Time>, now: Time)
    requires c.notify && Remembers(a, log, noted) && Rested(log, now)
    requires noted.Some? ==> c.cooldown <= now - noted.value
    requires Existing(a).firing || Entry(c, a, Known(true), now) == Some(true)
    ensures MayTry(c, a, Known(true), now)
  {
  }

  /** A recovery from an alert that was noticed within the day must be noticed. */
  lemma RecoveryMustBeNoticed(c: Config, a: Option<Condition>, log: seq<Look>, noted: Option<Time>, now: Time)
    requires c.notify && Remembers(a, log, noted) && Rested(log, now)
    requires noted.Some? && Clock(log) - noted.value <= 86400 && Entry(c, a, Known(false), now) == Some(false)
    ensures MayTry(c, a, Known(false), now) && Observe(c, Existing(a), false, now).recoveryPending
  {
  }

  // ---- The history of one key ---------------------------------------------------------------

  /** Firing and recovered take turns, and the last entry says whether the alert fires now. */
  ghost predicate Alternates(entries: seq<bool>, firing: bool) {
    && (forall i | 0 < i < |entries| :: entries[i] != entries[i - 1])
    && (entries != [] ==> entries[|entries| - 1] == firing)
  }

  function Appended(entries: seq<bool>, e: Option<bool>): seq<bool> {
    if e.Some? then entries + [e.value] else entries
  }

  lemma JudgeAlternates(c: Config, a: Option<Condition>, entries: seq<bool>, r: Reading, tried: bool, now: Time)
    requires Alternates(entries, Existing(a).firing)
    ensures Alternates(Appended(entries, Entry(c, a, r, now)), Existing(Forget(Judge(c, a, r, tried, now), now)).firing)
  {
  }

  lemma SuffixAlternates(entries: seq<bool>, firing: bool, n: nat)
    requires Alternates(entries, firing) && n <= |entries|
    ensures Alternates(entries[n..], firing)
  {
  }
}
