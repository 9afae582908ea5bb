/** Theorems over every run of the alert engine, key by key. */
module AlertHistory {
  import opened Basics
  import opened AlertKey
  import opened AlertEngine

  // ---- What an evaluation means for one key -------------------------------------------------

  /** The history entries of one key. */
  ghost function EntriesOf(history: seq<Event>, k: Key): seq<bool> {
    if history == [] then []
    else
      var n := |history| - 1;
      EntriesOf(history[..n], k) + if history[n].key == k then [history[n].firing] else []
  }

  lemma EntriesAppend(history: seq<Event>, e: Event, k: Key)
    ensures EntriesOf(history + [e], k) == EntriesOf(history, k) + if e.key == k then [e.firing] else []
  {
    assert (history + [e])[..|history|] == history;
  }

  ghost predicate SuffixOf(xs: seq<bool>, ys: seq<bool>) {
    exists m :: 0 <= m <= |ys| && xs == ys[m..]
  }

  lemma SuffixSnoc(xs: seq<bool>, ys: seq<bool>, zs: seq<bool>)
    requires SuffixOf(xs, ys)
    ensures SuffixOf(xs + zs, ys + zs)
  {
    var m :| 0 <= m <= |ys| && xs == ys[m..];
    assert xs + zs == (ys + zs)[m..];
  }

  lemma {:induction false} EntriesDrop(history: seq<Event>, n: nat, k: Key)
    requires n <= |history|
    ensures SuffixOf(EntriesOf(history[n..], k), EntriesOf(history, k))
  {
    if n == |history| {
      var ys := EntriesOf(history, k);
      assert EntriesOf(history[n..], k) == ys[|ys|..];
    } else {
      var l := |history| - 1;
      EntriesDrop(history[..l], n, k);
      assert history[n..][..l - n] == history[..l][n..];
      SuffixSnoc(EntriesOf(history[..l][n..], k), EntriesOf(history[..l], k), if history[l].key == k then [history[l].firing] else []);
    }
  }

  /** The key as the pass found it, and as it leaves it: judged once its turn has come. */
  ghost predicate KeyDone(c: Config, now: Time, p: Pass, q: Pass, k: Key, r: Reading) {
    && Lookup(q.active, k) == Judge(c, Lookup(p.active, k), r, k in q.keys, now)
    && (k in q.keys ==> MayTry(c, Lookup(p.active, k), r, now))
    && (MayTry(c, Lookup(p.active, k), r, now) && k !in q.keys ==> Crowded(q.keys, k))
    && (k in q.recoveries <==> k in q.keys && Observe(c, Existing(Lookup(p.active, k)), r.breached, now).recoveryPending)
    && EntriesOf(q.history, k) == Appended(EntriesOf(p.history, k), Entry(c, Lookup(p.active, k), r, now))
  }

  /** The message is full of keys that come first. */
  predicate Crowded(keys: seq<Key>, k: Key) {
    |keys| == 20 && forall i | 0 <= i < |keys| :: keys[i] < k
  }

  ghost predicate KeyUntouched(p: Pass, q: Pass, k: Key) {
    && Lookup(q.active, k) == Lookup(p.active, k) && k !in q.keys && k !in q.recoveries
    && EntriesOf(q.history, k) == EntriesOf(p.history, k)
  }

  lemma LogAppends(history: seq<Event>, k: Key, e: Option<bool>, now: Time, x: Key)
    ensures EntriesOf(Log1(history, k, e, now), x) == if x == k then Appended(EntriesOf(history, x), e) else EntriesOf(history, x)
  {
    if e.Some? {
      EntriesAppend(history, Event(now, k, e.value), x);
      assert EntriesOf(history, x) + [] == EntriesOf(history, x);
    }
  }

  lemma JudgeOneKey(c: Config, now: Time, p: Pass, q: Pass, k: Key, r: Reading)
    requires KeyUntouched(p, q, k) && !r.Missing? && |q.keys| <= 20 && forall i | 0 <= i < |q.keys| :: q.keys[i] < k
    ensures KeyDone(c, now, p, JudgeOne(c, now, q, k, r), k, r)
  {
    var a := Existing(Lookup(q.active, k));
    if r.Known? {
      LogAppends(q.history, k, Turn(a, Observe(c, a, r.breached, now)), now, k);
    }
  }

  lemma JudgeOneOther(c: Config, now: Time, q: Pass, k: Key, r: Reading, x: Key)
    requires x != k
    ensures var t := JudgeOne(c, now, q, k, r);
            && Lookup(t.active, x) == Lookup(q.active, x) && (x in t.keys <==> x in q.keys) && (x in t.recoveries <==> x in q.recoveries)
            && EntriesOf(t.history, x) == EntriesOf(q.history, x) && (Crowded(q.keys, x) ==> Crowded(t.keys, x))
  {
    if r.Known? {
      var a := Existing(Lookup(q.active, k));
      LogAppends(q.history, k, Turn(a, Observe(c, a, r.breached, now)), now, x);
    }
  }

  /** The keys of the message come from the list, at most 20. */
  lemma {:induction false} KeysComeFromList(c: Config, now: Time, samples: Samples, order: seq<Key>, p: Pass)
    requires p.keys == []
    ensures var q := JudgeAll(c, now, samples, order, p);
            |q.keys| <= 20 && forall i | 0 <= i < |q.keys| :: q.keys[i] in order
  {
    if order != [] {
      var n := |order| - 1;
      KeysComeFromList(c, now, samples, order[..n], p);
      assert order[n] in order && forall x | x in order[..n] :: x in order;
    }
  }

  lemma {:induction false} JudgeAllKey(c: Config, now: Time, samples: Samples, order: seq<Key>, p: Pass, k: Key)
    requires ValidSamples(samples) && Sorted(order) && (forall x | x in order :: x in samples) && p.keys == [] && p.recoveries == {}
    ensures var q := JudgeAll(c, now, samples, order, p);
            if k in order then KeyDone(c, now, p, q, k, ReadingOf(samples, k)) else KeyUntouched(p, q, k)
  {
    if order != [] {
      var n := |order| - 1;
      var q := JudgeAll(c, now, samples, order[..n], p);
      JudgeAllKey(c, now, samples, order[..n], p, k);
      if k == order[n] {
        assert k !in order[..n];
        assert k in order;
        KeysComeFromList(c, now, samples, order[..n], p);
        JudgeOneKey(c, now, p, q, k, ReadingOf(samples, k));
      } else {
        assert k in order <==> k in order[..n];
        JudgeOneOther(c, now, q, order[n], ReadingOf(samples, order[n]), k);
      }
    }
  }

  /** One evaluation seen by one key. */
  ghost predicate KeyEvaluated(c: Config, now: Time, s: Engine, p: Pass, k: Key, r: Reading) {
    var a := Lookup(s.active, k);
    && Lookup(p.active, k) == Forget(Judge(c, a, r, k in p.keys, now), now)
    && (k in p.keys ==> MayTry(c, a, r, now))
    && (MayTry(c, a, r, now) && k !in p.keys ==> Crowded(p.keys, k))
    && (k in p.recoveries <==> k in p.keys && Observe(c, Existing(a), r.breached, now).recoveryPending)
    && SuffixOf(EntriesOf(p.history, k), Appended(EntriesOf(s.history, k), Entry(c, a, r, now)))
  }

  lemma ForgetLookup(active: Active, now: Time, k: Key)
    ensures Lookup(ForgetOld(active, now), k) == Forget(Lookup(active, k), now)
  {
  }

  lemma BlurLookup(active: Active, samples: Samples, k: Key)
    ensures Lookup(BlurMissing(active, samples), k) == if k in samples || k !in active then Lookup(active, k) else Some(Blurred(active[k]))
  {
  }

  lemma EvaluationOfKey(s: Engine, now: Time, samples: Samples, order: seq<Key>, k: Key)
    requires ValidSamples(samples) && Lists(order, samples)
    ensures KeyEvaluated(s.config, now, s, Evaluation(s, now, samples, order), k, ReadingOf(samples, k))
  {
    var first := Pass(BlurMissing(s.active, samples), s.history, [], {});
    var q := JudgeAll(s.config, now, samples, order, first);
    JudgeAllKey(s.config, now, samples, order, first, k);
    BlurLookup(s.active, samples, k);
    ForgetLookup(q.active, now, k);
    RecentEntries(q.history, k);
    if k in samples {
      KeyIsEvaluated(s, now, first, q, k, samples[k]);
    } else {
      UnsampledKey(s, now, first, q, k);
    }
  }

  lemma KeyIsEvaluated(s: Engine, now: Time, first: Pass, q: Pass, k: Key, r: Reading)
    requires KeyDone(s.config, now, first, q, k, r) && Lookup(first.active, k) == Lookup(s.active, k) && first.history == s.history
    requires Lookup(ForgetOld(q.active, now), k) == Forget(Lookup(q.active, k), now) && SuffixOf(EntriesOf(Recent(q.history), k), EntriesOf(q.history, k))
    ensures KeyEvaluated(s.config, now, s, q.(active := ForgetOld(q.active, now), history := Recent(q.history)), k, r)
  {
  }

  lemma UnsampledKey(s: Engine, now: Time, first: Pass, q: Pass, k: Key)
    requires KeyUntouched(first, q, k) && first.history == s.history
    requires Lookup(first.active, k) == if k in s.active then Some(Blurred(s.active[k])) else None
    requires Lookup(ForgetOld(q.active, now), k) == Forget(Lookup(q.active, k), now) && SuffixOf(EntriesOf(Recent(q.history), k), EntriesOf(q.history, k))
    ensures KeyEvaluated(s.config, now, s, q.(active := ForgetOld(q.active, now), history := Recent(q.history)), k, Missing)
  {
  }

  lemma RecentEntries(history: seq<Event>, k: Key)
    ensures SuffixOf(EntriesOf(Recent(history), k), EntriesOf(history, k))
  {
    var drop := if |history| > 200 then |history| - 200 else 0;
    EntriesDrop(history, drop, k);
    assert history[drop..] == Recent(history);
  }

  lemma {:induction false} HistoryGrows(c: Config, now: Time, samples: Samples, order: seq<Key>, p: Pass)
    ensures var q := JudgeAll(c, now, samples, order, p);
            |p.history| <= |q.history| <= |p.history| + |order| && q.history[..|p.history|] == p.history
  {
    if order != [] {
      HistoryGrows(c, now, samples, order[..|order| - 1], p);
    }
  }

  /** The history after an evaluation is the last 200 entries of the old one followed by one entry
      for each key that turned, and by nothing else. */
  lemma HistoryIsKept(s: Engine, now: Time, samples: Samples, order: seq<Key>, k: Key) returns (all: seq<Event>)
    requires ValidSamples(samples) && Lists(order, samples)
    ensures var h := Evaluation(s, now, samples, order).history;
            && |s.history| <= |all| <= |s.history| + |order| && all[..|s.history|] == s.history
            && |h| == (if |all| < 200 then |all| else 200) && h == all[|all| - |h|..]
            && EntriesOf(all, k) == Appended(EntriesOf(s.history, k), Entry(s.config, Lookup(s.active, k), ReadingOf(samples, k), now))
  {
    var first := Pass(BlurMissing(s.active, samples), s.history, [], {});
    all := JudgeAll(s.config, now, samples, order, first).history;
    HistoryGrows(s.config, now, samples, order, first);
    JudgeAllKey(s.config, now, samples, order, first, k);
  }

  // ---- Runs -----------------------------------------------------------------------------------

  datatype Act =
    | Evaluate(now: Time, samples: Samples, order: seq<Key>, save: Save)
    | Finish(ok: bool, recorded: Save)
    | Change(update: Update, saved: Save)
    | Crash

  ghost predicate Possible(a: Act) {
    a.Evaluate? ==> ValidSamples(a.samples) && Lists(a.order, a.samples) && 0 < a.now
  }

  ghost function Perform(s: Engine, a: Act): Engine {
    match a
    case Evaluate(now, samples, order, save) => Evaluated(s, now, samples, order, save)
    case Finish(ok, save) => Finished(s, ok, save)
    case Change(u, save) => Updated(s, u, save)
    case Crash => s.(batch := None)
  }

  /** What an observer of one key keeps: the committed evaluations and the last recorded notice. */
  datatype View = View(log: seq<Look>, noted: Option<Time>)

  ghost predicate Committed(s: Engine, a: Act) {
    a.Evaluate? && Commits(s, Evaluation(s, a.now, a.samples, a.order), a.save)
  }

  ghost function Seen(s: Engine, a: Act, k: Key): Look
    requires a.Evaluate?
  {
    Look(a.now, ReadingOf(a.samples, k), k in Evaluation(s, a.now, a.samples, a.order).keys)
  }

  ghost function Watch(v: View, s: Engine, a: Act, k: Key): View {
    if Committed(s, a) then v.(log := v.log + [Seen(s, a, k)])
    else if a.Finish? && Records(s, a.ok, a.recorded) && k in s.batch.value.keys then v.(noted := Some(s.batch.value.at))
    else v
  }

  /** A message in flight is about the last evaluation, and its keys still have their conditions. */
  ghost predicate BatchKnown(s: Engine, v: View, k: Key) {
    s.batch.Some? && k in s.batch.value.keys ==>
      && k in s.active && v.log != [] && v.log[|v.log| - 1].reading.Known? && s.batch.value.at == Clock(v.log) && 0 < Clock(v.log)
  }

  /** What the engine knows of a key, against what an observer has seen of it. */
  ghost predicate Tracks(s: Engine, v: View, k: Key) {
    && ValidConfig(s.config)
    && Remembers(Lookup(s.active, k), v.log, v.noted) && BatchKnown(s, v, k)
    && Alternates(EntriesOf(s.history, k), Existing(Lookup(s.active, k)).firing)
  }

  lemma EvaluateTracks(s: Engine, v: View, a: Act, k: Key)
    requires Tracks(s, v, k) && Possible(a) && a.Evaluate? && Committed(s, a) && Clock(v.log) <= a.now
    ensures Tracks(Perform(s, a), Watch(v, s, a, k), k)
  {
    var p := Evaluation(s, a.now, a.samples, a.order);
    var r := ReadingOf(a.samples, k);
    var c := Lookup(s.active, k);
    EvaluationOfKey(s, a.now, a.samples, a.order, k);
    JudgeRemembers(s.config, c, v.log, v.noted, r, k in p.keys, a.now);
    JudgeAlternates(s.config, c, EntriesOf(s.history, k), r, k in p.keys, a.now);
    var entries := Appended(EntriesOf(s.history, k), Entry(s.config, c, r, a.now));
    var m :| 0 <= m <= |entries| && EntriesOf(p.history, k) == entries[m..];
    SuffixAlternates(entries, Existing(Lookup(p.active, k)).firing, m);
  }

  lemma FinishTracks(s: Engine, v: View, a: Act, k: Key)
    requires Tracks(s, v, k) && a.Finish?
    ensures Tracks(Perform(s, a), Watch(v, s, a, k), k)
  {
    if Records(s, a.ok, a.recorded) && k in s.batch.value.keys {
      NoteRemembers(s.active[k], v.log, v.noted, k in s.batch.value.recoveries);
    }
  }

  lemma PerformTracks(s: Engine, v: View, a: Act, k: Key)
    requires Tracks(s, v, k) && Possible(a) && (Committed(s, a) ==> Clock(v.log) <= a.now)
    ensures Tracks(Perform(s, a), Watch(v, s, a, k), k)
  {
    if Committed(s, a) {
      EvaluateTracks(s, v, a, k);
    } else if a.Finish? {
      FinishTracks(s, v, a, k);
    }
  }

  // ---- What every run guarantees ------------------------------------------------------------

  ghost function Run(s: Engine, acts: seq<Act>): Engine {
    if acts == [] then s else Perform(Run(s, acts[..|acts| - 1]), acts[|acts| - 1])
  }

  ghost function Watched(s: Engine, acts: seq<Act>, k: Key): View {
    if acts == [] then View([], None)
    else Watch(Watched(s, acts[..|acts| - 1], k), Run(s, acts[..|acts| - 1]), acts[|acts| - 1], k)
  }

  /** The clock never goes back. */
  ghost predicate InTime(acts: seq<Act>) {
    && (forall i | 0 <= i < |acts| :: Possible(acts[i]))
    && (forall i, j | 0 <= i < j < |acts| && acts[i].Evaluate? && acts[j].Evaluate? :: acts[i].now <= acts[j].now)
  }

  ghost predicate Start(s: Engine) {
    ValidConfig(s.config) && s.active == map[] && s.history == [] && s.batch.None?
  }

  lemma {:induction false} WatchedClock(s: Engine, acts: seq<Act>, k: Key, now: Time)
    requires forall i | 0 <= i < |acts| && acts[i].Evaluate? :: acts[i].now <= now
    requires 0 <= now
    ensures Clock(Watched(s, acts, k).log) <= now
  {
    if acts != [] {
      WatchedClock(s, acts[..|acts| - 1], k, now);
    }
  }

  lemma {:induction false} RunTracks(s: Engine, acts: seq<Act>, k: Key)
    requires Start(s) && InTime(acts)
    ensures Tracks(Run(s, acts), Watched(s, acts, k), k)
  {
    if acts != [] {
      var n := |acts| - 1;
      RunTracks(s, acts[..n], k);
      if acts[n].Evaluate? {
        WatchedClock(s, acts[..n], k, acts[n].now);
      }
      PerformTracks(Run(s, acts[..n]), Watched(s, acts[..n], k), acts[n], k);
    }
  }

  /** The history entry the last act of a run adds for a key. */
  ghost function EntryOf(s: Engine, a: Act, k: Key): Option<bool>
    requires a.Evaluate?
  {
    Entry(s.config, Lookup(s.active, k), ReadingOf(a.samples, k), a.now)
  }

  /** Over every run, an alert starts firing exactly at the end of an unbroken run of committed,
      known, breached evaluations that spans the hold time. */
  lemma FiringNeedsAnUnbrokenBreach(s: Engine, acts: seq<Act>, a: Act, k: Key) returns (i: nat)
    requires Start(s) && InTime(acts + [a]) && Committed(Run(s, acts), a)
    ensures var m := Run(s, acts); var log := Watched(s, acts, k).log + [Seen(m, a, k)];
            && (EntryOf(m, a, k) == Some(true) <==>
                  !Existing(Lookup(m.active, k)).firing && BreachRun(log).Some? && a.now - BreachRun(log).value >= m.config.hold)
            && (EntryOf(m, a, k) == Some(true) ==> Unbroken(log, i, true) && a.now - log[i].now >= m.config.hold)
  {
    var m := Run(s, acts);
    var v := Watched(s, acts, k);
    Before(s, acts, a, k);
    FiresExactlyAfterHold(m.config, Lookup(m.active, k), v.log, ReadingOf(a.samples, k), Seen(m, a, k).tried, a.now);
    i := 0;
    if EntryOf(m, a, k) == Some(true) {
      i := BreachRunIsUnbroken(v.log + [Seen(m, a, k)]);
    }
  }

  /** It recovers exactly at the end of such a run of known healthy samples; unknown or missing
      samples never clear it. */
  lemma RecoveryNeedsAnUnbrokenCalm(s: Engine, acts: seq<Act>, a: Act, k: Key) returns (i: nat)
    requires Start(s) && InTime(acts + [a]) && Committed(Run(s, acts), a)
    ensures var m := Run(s, acts); var log := Watched(s, acts, k).log + [Seen(m, a, k)];
            && (EntryOf(m, a, k) == Some(false) <==>
                  Existing(Lookup(m.active, k)).firing && CalmRun(log).Some? && a.now - CalmRun(log).value >= m.config.hold)
            && (EntryOf(m, a, k) == Some(false) ==> Unbroken(log, i, false) && a.now - log[i].now >= m.config.hold)
            && (EntryOf(m, a, k) != Some(false) && Existing(Lookup(m.active, k)).firing ==> Existing(Lookup(Perform(m, a).active, k)).firing)
  {
    var m := Run(s, acts);
    var v := Watched(s, acts, k);
    Before(s, acts, a, k);
    RecoversExactlyAfterHold(m.config, Lookup(m.active, k), v.log, ReadingOf(a.samples, k), Seen(m, a, k).tried, a.now);
    i := 0;
    if EntryOf(m, a, k) == Some(false) {
      i := CalmRunIsUnbroken(v.log + [Seen(m, a, k)]);
    }
    EvaluationOfKey(m, a.now, a.samples, a.order, k);
  }

  lemma Before(s: Engine, acts: seq<Act>, a: Act, k: Key)
    requires Start(s) && InTime(acts + [a]) && a.Evaluate?
    ensures Tracks(Run(s, acts), Watched(s, acts, k), k) && Clock(Watched(s, acts, k).log) <= a.now && 0 < a.now && Possible(a)
  {
    var all := acts + [a];
    assert all[|acts|] == a && Possible(all[|acts|]);
    forall i | 0 <= i < |acts| ensures Possible(acts[i]) && (acts[i].Evaluate? ==> acts[i].now <= a.now) {
      assert all[i] == acts[i];
    }
    forall i, j | 0 <= i < j < |acts| && acts[i].Evaluate? && acts[j].Evaluate? ensures acts[i].now <= acts[j].now {
      assert all[i] == acts[i] && all[j] == acts[j];
    }
    RunTracks(s, acts, k);
    WatchedClock(s, acts, k, a.now);
  }

  /** Attempts about a key are at least 30 seconds apart; a firing notice comes no sooner than the
      cooldown after the last recorded notice, whatever was deleted, failed or changed in between. */
  lemma NoticesAreSpaced(s: Engine, acts: seq<Act>, a: Act, k: Key)
    requires Start(s) && InTime(acts + [a]) && Committed(Run(s, acts), a)
    requires k in Evaluation(Run(s, acts), a.now, a.samples, a.order).keys
    ensures var m := Run(s, acts); var v := Watched(s, acts, k); var p := Evaluation(m, a.now, a.samples, a.order);
            && (LastTried(v.log).Some? ==> a.now - LastTried(v.log).value >= 30)
            && (v.noted.Some? && k !in p.recoveries ==> a.now - v.noted.value >= m.config.cooldown)
  {
    var m := Run(s, acts);
    Before(s, acts, a, k);
    EvaluationOfKey(m, a.now, a.samples, a.order, k);
    NoticesKeepTheirDistance(m.config, Lookup(m.active, k), Watched(s, acts, k).log, Watched(s, acts, k).noted, ReadingOf(a.samples, k), a.now);
  }

  /** What a notice that is due comes to: it is in the message that goes out, unless twenty keys
      before it fill the message. */
  ghost predicate GoesOut(s: Engine, a: Act, k: Key)
    requires a.Evaluate?
  {
    var p := Evaluation(s, a.now, a.samples, a.order);
    || Crowded(p.keys, k)
    || (k in p.keys && (a.save == Saved && s.webhook && s.config.notify ==> Perform(s, a).batch.Some? && k in Perform(s, a).batch.value.keys))
  }

  /** A breached sample of an alert that fires, without a recorded notice within the cooldown. */
  ghost predicate FiresUnnoticed(m: Engine, v: View, a: Act, k: Key)
    requires a.Evaluate?
  {
    && ReadingOf(a.samples, k) == Known(true) && (Existing(Lookup(m.active, k)).firing || EntryOf(m, a, k) == Some(true))
    && (v.noted.Some? ==> m.config.cooldown <= a.now - v.noted.value)
  }

  /** Over every run: an alert that fires on a breached sample, was not noticed within the cooldown
      and saw no attempt within 30 seconds is noticed; so is a recovery, as a recovery, when the
      alert had been noticed within the day. */
  lemma NoticesGoOut(s: Engine, acts: seq<Act>, a: Act, k: Key)
    requires Start(s) && InTime(acts + [a]) && Committed(Run(s, acts), a) && Run(s, acts).config.notify
    requires Rested(Watched(s, acts, k).log, a.now)
    ensures var m := Run(s, acts); var v := Watched(s, acts, k);
            && (FiresUnnoticed(m, v, a, k) ==> GoesOut(m, a, k))
            && (EntryOf(m, a, k) == Some(false) && v.noted.Some? && Clock(v.log) - v.noted.value <= 86400 ==>
                  GoesOut(m, a, k) && (k in Evaluation(m, a.now, a.samples, a.order).keys ==> k in Evaluation(m, a.now, a.samples, a.order).recoveries))
  {
    var m := Run(s, acts);
    var v := Watched(s, acts, k);
    var r := ReadingOf(a.samples, k);
    Before(s, acts, a, k);
    EvaluationOfKey(m, a.now, a.samples, a.order, k);
    if FiresUnnoticed(m, v, a, k) {
      FiringMustBeNoticed(m.config, Lookup(m.active, k), v.log, v.noted, a.now);
    }
    if EntryOf(m, a, k) == Some(false) && v.noted.Some? && Clock(v.log) - v.noted.value <= 86400 {
      assert r == Known(false);
      RecoveryMustBeNoticed(m.config, Lookup(m.active, k), v.log, v.noted, a.now);
    }
  }

  /** In every reachable state the entries of a key alternate, and the last one is its present state. */
  lemma HistoryAlternates(s: Engine, acts: seq<Act>, k: Key)
    requires Start(s) && InTime(acts)
    ensures Alternates(EntriesOf(Run(s, acts).history, k), Existing(Lookup(Run(s, acts).active, k)).firing)
  {
    RunTracks(s, acts, k);
  }

  ghost predicate Spaced(log: seq<Look>) {
    && (forall i, j | 0 <= i < j < |log| && log[i].tried && log[j].tried :: log[j].now - log[i].now >= 30)
    && (forall i | 0 <= i < |log| && log[i].tried :: LastTried(log).Some? && log[i].now <= LastTried(log).value)
  }

  lemma SpacedOn(log: seq<Look>, o: Look)
    requires Spaced(log) && (o.tried && LastTried(log).Some? ==> o.now - LastTried(log).value >= 30)
    ensures Spaced(log + [o])
  {
    RunsAfter(log, o);
    var all := log + [o];
    forall i | 0 <= i < |all| && all[i].tried ensures LastTried(all).Some? && all[i].now <= LastTried(all).value {
      if i < |log| {
        assert log[i].tried;
      }
    }
  }

  /** Any two attempts of a run about the same key are at least 30 seconds apart. */
  lemma {:induction false} AttemptsAreSpaced(s: Engine, acts: seq<Act>, k: Key)
    requires Start(s) && InTime(acts)
    ensures Spaced(Watched(s, acts, k).log)
  {
    if acts != [] {
      var n := |acts| - 1;
      var m := Run(s, acts[..n]);
      AttemptsAreSpaced(s, acts[..n], k);
      if Committed(m, acts[n]) {
        assert acts[..n] + [acts[n]] == acts;
        if Seen(m, acts[n], k).tried {
          NoticesAreSpaced(s, acts[..n], acts[n], k);
        }
        SpacedOn(Watched(s, acts[..n], k).log, Seen(m, acts[n], k));
      }
    }
  }
}
