/** The whole alert engine: an evaluation over all keys, saved before it is sent, the second
    save after the unlocked send, and configuration changes in between. */
module AlertEngine {
  import opened Basics
  import opened AlertKey

  /** Keys are numbered in the order of their texts. */
  type Key = nat

  datatype Event = Event(at: Time, key: Key, firing: bool)

  /** A message that went out: what it was about and under which configuration. */
  datatype Batch = Batch(at: Time, keys: seq<Key>, recoveries: set<Key>, revision: int)

  datatype Engine = Engine(
    config: Config, revision: int, webhook: bool,
    active: map<Key, Condition>, history: seq<Event>, batch: Option<Batch>)

  /** Saving fails, or succeeds and may still report an error afterwards. */
  datatype Save = NotSaved | SavedWithError | Saved

  type Active = map<Key, Condition>
  type Samples = map<Key, Reading>

  predicate ValidSamples(samples: Samples) {
    forall k | k in samples :: !samples[k].Missing?
  }

  function Lookup(active: Active, k: Key): Option<Condition> {
    if k in active then Some(active[k]) else None
  }

  function ReadingOf(samples: Samples, k: Key): Reading {
    if k in samples then samples[k] else Missing
  }

  // ---- An evaluation as a function ----------------------------------------------------------

  datatype Pass = Pass(active: Active, history: seq<Event>, keys: seq<Key>, recoveries: set<Key>)

  function BlurMissing(active: Active, samples: Samples): Active {
    map k | k in active :: if k in samples then active[k] else Blurred(active[k])
  }

  function Log1(history: seq<Event>, k: Key, e: Option<bool>, now: Time): seq<Event> {
    if e.Some? then history + [Event(now, k, e.value)] else history
  }

  /** One key of the sorted list: its condition, its history entry, its place in the message. */
  function JudgeOne(c: Config, now: Time, p: Pass, k: Key, r: Reading): Pass {
    var a := Existing(Lookup(p.active, k));
    if !r.Known? then p.(active := p.active[k := Blurred(a)])
    else
      var b := Observe(c, a, r.breached, now);
      var tried := NoticeDue(c, b, now) && |p.keys| < 20;
      Pass(p.active[k := if tried then b.(lastAttempt := now) else b],
           Log1(p.history, k, Turn(a, b), now),
           if tried then p.keys + [k] else p.keys,
           if tried && b.recoveryPending then p.recoveries + {k} else p.recoveries)
  }

  function JudgeAll(c: Config, now: Time, samples: Samples, order: seq<Key>, p: Pass): Pass {
    if order == [] then p
    else
      var n := |order| - 1;
      JudgeOne(c, now, JudgeAll(c, now, samples, order[..n], p), order[n], ReadingOf(samples, order[n]))
  }

  function ForgetOld(active: Active, now: Time): Active {
    map k | k in active && !Forgettable(active[k], now) :: active[k]
  }

  function Recent(history: seq<Event>): seq<Event> {
    if |history| > 200 then history[|history| - 200..] else history
  }

  function Evaluation(s: Engine, now: Time, samples: Samples, order: seq<Key>): Pass {
    var p := JudgeAll(s.config, now, samples, order, Pass(BlurMissing(s.active, samples), s.history, [], {}));
    p.(active := ForgetOld(p.active, now), history := Recent(p.history))
  }

  predicate Commits(s: Engine, p: Pass, save: Save) {
    s.config.enabled && |p.active| <= 5000 && !save.NotSaved?
  }

  function SendOf(s: Engine, p: Pass, save: Save, now: Time): Option<Batch> {
    if save.Saved? && p.keys != [] && s.webhook && s.config.notify then Some(Batch(now, p.keys, p.recoveries, s.revision)) else None
  }

  function Evaluated(s: Engine, now: Time, samples: Samples, order: seq<Key>, save: Save): Engine {
    var p := Evaluation(s, now, samples, order);
    if Commits(s, p, save) then s.(active := p.active, history := p.history, batch := SendOf(s, p, save, now))
    else s.(batch := None)
  }

  /** An evaluation takes effect exactly when alerts are enabled, it is saved and it is not too
      large; a message goes out exactly when there is something to say and somewhere to say it. */
  predicate Took(s: Engine, t: Engine, p: Pass, save: Save, now: Time) {
    && t.config == s.config && t.revision == s.revision && t.webhook == s.webhook
    && (if s.config.enabled && save != NotSaved && |p.active| <= 5000 then
          && t.active == p.active && t.history == p.history
          && t.batch == (if save == Saved && |p.keys| > 0 && s.webhook && s.config.notify then Some(Batch(now, p.keys, p.recoveries, s.revision)) else None)
        else t.active == s.active && t.history == s.history && t.batch == None)
  }

  lemma EvaluatedTook(s: Engine, now: Time, samples: Samples, order: seq<Key>, save: Save)
    ensures Took(s, Evaluated(s, now, samples, order, save), Evaluation(s, now, samples, order), save, now)
  {
  }

  function NoteAll(active: Active, b: Batch): Active {
    map k | k in active :: if k in b.keys then Noted(active[k], k in b.recoveries, b.at) else active[k]
  }

  /** The message was recorded as delivered. */
  predicate Records(s: Engine, ok: bool, save: Save) {
    s.batch.Some? && s.batch.value.revision == s.revision && ok && !save.NotSaved?
  }

  function Finished(s: Engine, ok: bool, save: Save): Engine {
    if Records(s, ok, save) then s.(active := NoteAll(s.active, s.batch.value), batch := None) else s.(batch := None)
  }

  datatype Update = Update(expected: int, config: Config, webhook: Option<bool>)

  predicate Accepts(s: Engine, u: Update) {
    && ValidConfig(u.config) && u.expected == s.revision
    && (u.config.notify ==> if u.webhook.Some? then u.webhook.value else s.webhook)
  }

  function Updated(s: Engine, u: Update, save: Save): Engine {
    if !Accepts(s, u) || save.NotSaved? then s
    else s.(config := u.config, revision := s.revision + 1, webhook := if u.webhook.Some? then u.webhook.value else s.webhook)
  }

  predicate Sorted(order: seq<Key>) {
    forall i, j | 0 <= i < j < |order| :: order[i] < order[j]
  }

  ghost predicate Lists(order: seq<Key>, samples: Samples) {
    Sorted(order) && forall k :: k in order <==> k in samples
  }

  // ---- The engine itself --------------------------------------------------------------------

  method SortKeys(samples: Samples) returns (order: seq<Key>)
    ensures Lists(order, samples)
  {
    order := [];
    var todo := samples.Keys;
    while todo != {}
      invariant todo <= samples.Keys && Sorted(order)
      invariant forall k :: k in order <==> k in samples && k !in todo
      invariant forall i, k | 0 <= i < |order| && k in todo :: order[i] < k
    {
      var k :| k in todo;
      var rest := todo - {k};
      while rest != {}
        invariant rest <= todo && k in todo && forall x | x in todo && x !in rest :: k <= x
      {
        var x :| x in rest;
        rest := rest - {x};
        if x < k {
          k := x;
        }
      }
      todo := todo - {k};
      order := order + [k];
    }
  }

  method Blur(active: Active, samples: Samples) returns (after: Active)
    ensures after == BlurMissing(active, samples)
  {
    after := active;
    var todo := active.Keys;
    while todo != {}
      invariant todo <= active.Keys == after.Keys
      invariant forall k | k in after :: after[k] == if k in todo then active[k] else BlurMissing(active, samples)[k]
    {
      var k :| k in todo;
      todo := todo - {k};
      if k !in samples {
        after := after[k := Blurred(after[k])];
      }
    }
    assert after == BlurMissing(active, samples);
  }

  method Prune(active: Active, now: Time) returns (after: Active)
    ensures after == ForgetOld(active, now)
  {
    after := active;
    var todo := active.Keys;
    while todo != {}
      invariant todo <= after.Keys <= active.Keys
      invariant forall k | k in after :: after[k] == active[k]
      invariant forall k | k in active && k !in todo :: k in after <==> !Forgettable(active[k], now)
    {
      var k :| k in todo;
      todo := todo - {k};
      if Forgettable(after[k], now) {
        after := after - {k};
      }
    }
    assert after == ForgetOld(active, now);
  }

  /** One key: its sample, its history entry, and its place in the message. */
  method JudgeKey(c: Config, now: Time, p: Pass, k: Key, r: Reading) returns (q: Pass)
    ensures q == JudgeOne(c, now, p, k, r)
  {
    var a := if k in p.active then p.active[k] else NewCondition;
    if !r.Known? {
      return p.(active := p.active[k := Blurred(a)]);
    }
    var b := Observe(c, a, r.breached, now);
    q := p;
    if Turn(a, b).Some? {
      q := q.(history := q.history + [Event(now, k, b.firing)]);
    }
    if NoticeDue(c, b, now) && |q.keys| < 20 {
      q := q.(keys := q.keys + [k]);
      if b.recoveryPending {
        q := q.(recoveries := q.recoveries + {k});
      }
      b := b.(lastAttempt := now);
    }
    q := q.(active := q.active[k := b]);
  }

  method Decide(s: Engine, samples: Samples, order: seq<Key>, now: Time) returns (p: Pass)
    requires Lists(order, samples)
    ensures p == Evaluation(s, now, samples, order)
  {
    var active := Blur(s.active, samples);
    var first := Pass(active, s.history, [], {});
    p := first;
    for i := 0 to |order|
      invariant p == JudgeAll(s.config, now, samples, order[..i], first)
    {
      p := JudgeKey(s.config, now, p, order[i], samples[order[i]]);
      assert order[..i + 1][..i] == order[..i];
    }
    assert order[..|order|] == order;
    active := Prune(p.active, now);
    var history := p.history;
    if |history| > 200 {
      history := history[|history| - 200..];
    }
    p := p.(active := active, history := history);
  }

  class Operations {
    var state: Engine

    constructor (config: Config)
      ensures state == Engine(config, 0, false, map[], [], None)
    {
      state := Engine(config, 0, false, map[], [], None);
    }

    /** The locked part of `evaluate`: decide, save, and say what to send. */
    method Evaluate(samples: Samples, now: Time, save: Save) returns (send: Option<Batch>)
      requires ValidSamples(samples)
      modifies this
      ensures exists order :: Lists(order, samples) && state == Evaluated(old(state), now, samples, order, save) && Took(old(state), state, Evaluation(old(state), now, samples, order), save, now)
      ensures send == state.batch
    {
      var order := SortKeys(samples);
      EvaluatedTook(state, now, samples, order, save);
      var s := state;
      state := state.(batch := None);
      send := None;
      if !s.config.enabled {
        return;
      }
      var p := Decide(s, samples, order, now);
      if |p.active| > 5000 || save.NotSaved? {
        return;
      }
      state := state.(active := p.active, history := p.history);
      if save.SavedWithError? || p.keys == [] || !s.webhook || !s.config.notify {
        return;
      }
      send := Some(Batch(now, p.keys, p.recoveries, s.revision));
      state := state.(batch := send);
    }

    /** The part of `evaluate` after the unlocked send. */
    method Finish(ok: bool, save: Save)
      modifies this
      ensures state == Finished(old(state), ok, save)
      ensures var b := old(state).batch;
              if b.Some? && b.value.revision == old(state).revision && ok && save != NotSaved then
                && state.active.Keys == old(state).active.Keys
                && forall k | k in state.active ::
                     if k in b.value.keys then state.active[k] == old(state).active[k].(lastNotified := b.value.at, recoveryPending := old(state).active[k].recoveryPending && k !in b.value.recoveries)
                     else state.active[k] == old(state).active[k]
              else state == old(state).(batch := None)
    {
      var batch := state.batch;
      state := state.(batch := None);
      if batch.None? || state.revision != batch.value.revision || !ok || save.NotSaved? {
        return;
      }
      var b := batch.value;
      var active := state.active;
      for i := 0 to |b.keys|
        invariant active.Keys == state.active.Keys && state == old(state).(batch := None)
        invariant forall k | k in active ::
                    active[k] == if k in b.keys[..i] then Noted(state.active[k], k in b.recoveries, b.at) else state.active[k]
      {
        var k := b.keys[i];
        if k in active {
          var a := active[k].(lastNotified := b.at);
          if k in b.recoveries {
            a := a.(recoveryPending := false);
          }
          active := active[k := a];
        }
      }
      assert b.keys[..|b.keys|] == b.keys;
      assert active == NoteAll(state.active, b);
      state := state.(active := active);
    }

    method Change(u: Update, save: Save)
      modifies this
      ensures state == Updated(old(state), u, save)
      ensures var webhook := if u.webhook == None then old(state).webhook else u.webhook.value;
              if ValidConfig(u.config) && u.expected == old(state).revision && (u.config.notify ==> webhook) && save != NotSaved then
                state == old(state).(config := u.config, revision := old(state).revision + 1, webhook := webhook)
              else state == old(state)
    {
      if !ValidConfig(u.config) || u.expected != state.revision {
        return;
      }
      var webhook := if u.webhook.Some? then u.webhook.value else state.webhook;
      if u.config.notify && !webhook {
        return;
      }
      if save.NotSaved? {
        return;
      }
      state := state.(config := u.config, revision := state.revision + 1, webhook := webhook);
    }
  }
}
