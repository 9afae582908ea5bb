/** Placement of waiting allocations inside `Tick`: the order of the queue, the choice of a
    worker, and what the whole pass leaves behind, for every iteration order of the maps. */
module FleetPlacement {
  import opened Basics
  import opened FleetState
  import opened FleetOps
  import opened FleetInvariant
  import opened FleetPreserve

  // ---- The queue -----------------------------------------------------------------------

  /** Preferred placements first, then the oldest, then the least identifier. */
  predicate Before(rooms: Allocations, a: Id, b: Id)
    requires a in rooms && b in rooms
  {
    var x, y := rooms[a], rooms[b];
    if x.preferred.Some? != y.preferred.Some? then x.preferred.Some?
    else if x.createdAt == y.createdAt then a < b
    else x.createdAt < y.createdAt
  }

  function WaitingSet(rooms: Allocations): set<Id> {
    set a | a in rooms && rooms[a].state.Waiting?
  }

  predicate Sorted(rooms: Allocations, queue: seq<Id>) {
    && (forall a | a in queue :: a in rooms)
    && (forall i, j | 0 <= i < j < |queue| :: Before(rooms, queue[i], queue[j]))
  }

  lemma BeforeIsTotal(rooms: Allocations, a: Id, b: Id, d: Id)
    requires a in rooms && b in rooms && d in rooms
    ensures a != b ==> (Before(rooms, a, b) <==> !Before(rooms, b, a))
    ensures !Before(rooms, a, a)
    ensures Before(rooms, a, b) && Before(rooms, b, d) ==> Before(rooms, a, d)
  {
  }

  /** The queue is a function of the allocations: any two sorted enumerations agree. */
  lemma {:induction false} QueueUnique(rooms: Allocations, p: seq<Id>, q: seq<Id>)
    requires Sorted(rooms, p) && Sorted(rooms, q) && forall a :: a in p <==> a in q
    ensures p == q
  {
    if p == [] {
      assert forall i | 0 <= i < |q| :: q[i] in q;
    } else {
      assert p[0] in q && q[0] in p;
      BeforeIsTotal(rooms, p[0], q[0], p[0]);
      assert p[0] == q[0];
      forall a ensures a in p[1..] <==> a in q[1..] {
        assert a in p <==> a == p[0] || a in p[1..];
        assert a in q <==> a == q[0] || a in q[1..];
        assert p[0] !in p[1..] && q[0] !in q[1..];
      }
      QueueUnique(rooms, p[1..], q[1..]);
      assert p == [p[0]] + p[1..] && q == [q[0]] + q[1..];
    }
  }

  method LeastWaiting(rooms: Allocations, todo: set<Id>) returns (least: Id)
    requires todo != {} && todo <= rooms.Keys
    ensures least in todo && forall a | a in todo && a != least :: Before(rooms, least, a)
  {
    least :| least in todo;
    var rest := todo - {least};
    while rest != {}
      invariant rest < todo && least in todo - rest
      invariant forall a | a in todo && a !in rest && a != least :: Before(rooms, least, a)
    {
      var a :| a in rest;
      forall b | b in todo {
        BeforeIsTotal(rooms, a, least, b);
      }
      if Before(rooms, a, least) {
        least := a;
      }
      rest := rest - {a};
    }
  }

  method SortWaiting(rooms: Allocations) returns (queue: seq<Id>)
    ensures Sorted(rooms, queue) && forall a :: a in queue <==> a in WaitingSet(rooms)
    ensures forall i, j | 0 <= i < j < |queue| ::
              var x, y := rooms[queue[i]], rooms[queue[j]];
              || (x.preferred != None && y.preferred == None)
              || ((x.preferred == None) == (y.preferred == None) && (x.createdAt < y.createdAt || (x.createdAt == y.createdAt && queue[i] < queue[j])))
  {
    queue := [];
    var todo := WaitingSet(rooms);
    while todo != {}
      invariant todo <= WaitingSet(rooms) && Sorted(rooms, queue)
      invariant forall a :: a in queue <==> a in WaitingSet(rooms) && a !in todo
      invariant forall a, b | a in queue && b in todo :: Before(rooms, a, b)
    {
      var a := LeastWaiting(rooms, todo);
      queue := queue + [a];
      todo := todo - {a};
    }
  }

  // ---- The choice ----------------------------------------------------------------------

  predicate Candidate(c: Config, s: State, aid: Id, now: Time, w: Id) {
    && aid in s.allocations && w in s.workers && Eligible(c, s.workers[w], now)
    && (s.allocations[aid].preferred.None? || s.allocations[aid].preferred == Some(w))
    && Occupied(s.allocations, w) < s.workers[w].maxRooms
  }

  /** Most rooms first, least identifier on ties. */
  predicate Fuller(s: State, w: Id, v: Id) {
    || Occupied(s.allocations, w) > Occupied(s.allocations, v)
    || (Occupied(s.allocations, w) == Occupied(s.allocations, v) && w <= v)
  }

  ghost predicate Best(c: Config, s: State, aid: Id, now: Time, w: Id) {
    Candidate(c, s, aid, now, w) && forall v | Candidate(c, s, aid, now, v) :: Fuller(s, w, v)
  }

  ghost function Choice(c: Config, s: State, aid: Id, now: Time): Option<Id> {
    if exists w :: Best(c, s, aid, now, w) then
      var w :| Best(c, s, aid, now, w);
      Some(w)
    else None
  }

  lemma BestIsChoice(c: Config, s: State, aid: Id, now: Time, w: Id)
    requires Best(c, s, aid, now, w)
    ensures Choice(c, s, aid, now) == Some(w)
  {
    var v := Choice(c, s, aid, now).value;
    assert Fuller(s, w, v) && Fuller(s, v, w);
  }

  method CountOccupied(rooms: Allocations, wid: Id) returns (n: nat)
    ensures n == Occupied(rooms, wid)
  {
    n := 0;
    var todo := rooms.Keys;
    ghost var seen: set<Id> := {};
    while todo != {}
      invariant todo <= rooms.Keys && todo !! seen && todo + seen == rooms.Keys
      invariant n == |seen * Hosted(rooms, wid)|
    {
      var a :| a in todo;
      if rooms[a].worker == Some(wid) && !Terminal(rooms[a].state) {
        n := n + 1;
        assert (seen + {a}) * Hosted(rooms, wid) == seen * Hosted(rooms, wid) + {a};
      } else {
        assert (seen + {a}) * Hosted(rooms, wid) == seen * Hosted(rooms, wid);
      }
      todo, seen := todo - {a}, seen + {a};
    }
    assert seen * Hosted(rooms, wid) == Hosted(rooms, wid);
  }

  /** The scan of `Tick` over the workers, in any order. */
  method ChooseWorker(c: Config, s: State, aid: Id, now: Time) returns (chosen: Option<Id>)
    requires aid in s.allocations
    ensures chosen == Choice(c, s, aid, now)
    ensures chosen.None? ==> forall w :: !Candidate(c, s, aid, now, w)
    ensures chosen.Some? ==> Best(c, s, aid, now, chosen.value)
    ensures chosen.Some? ==> forall v | Candidate(c, s, aid, now, v) && v != chosen.value ::
              || Occupied(s.allocations, chosen.value) > Occupied(s.allocations, v)
              || (Occupied(s.allocations, chosen.value) == Occupied(s.allocations, v) && chosen.value < v)
  {
    chosen := None;
    var best := -1;
    var todo := s.workers.Keys;
    while todo != {}
      invariant todo <= s.workers.Keys
      invariant chosen.None? ==> best == -1 && forall w | w in s.workers.Keys - todo :: !Candidate(c, s, aid, now, w)
      invariant chosen.Some? ==>
                  && chosen.value in s.workers.Keys - todo && Candidate(c, s, aid, now, chosen.value)
                  && best == Occupied(s.allocations, chosen.value)
                  && forall w | w in s.workers.Keys - todo && Candidate(c, s, aid, now, w) :: Fuller(s, chosen.value, w)
    {
      var w :| w in todo;
      todo := todo - {w};
      var preferred := s.allocations[aid].preferred;
      if Eligible(c, s.workers[w], now) && (preferred.None? || preferred == Some(w)) {
        var n := CountOccupied(s.allocations, w);
        if n < s.workers[w].maxRooms && (n > best || (n == best && (chosen.None? || w < chosen.value))) {
          chosen, best := Some(w), n;
        }
      }
    }
    if chosen.Some? {
      BestIsChoice(c, s, aid, now, chosen.value);
    }
  }

  // ---- The pass ------------------------------------------------------------------------

  ghost function PlaceOne(c: Config, s: State, aid: Id, now: Time, cid: Id): State {
    match Choice(c, s, aid, now)
    case None => s
    case Some(w) => Place(c, s, aid, w, now, cid)
  }

  /** Serve the queue from the front; `ids[i]` is the identifier drawn for the i-th command. */
  ghost function PlaceQueue(c: Config, s: State, queue: seq<Id>, now: Time, ids: seq<Id>): State
    requires |ids| == |queue|
  {
    if queue == [] then s
    else
      var n := |queue| - 1;
      PlaceOne(c, PlaceQueue(c, s, queue[..n], now, ids[..n]), queue[n], now, ids[n])
  }

  /** What placing leaves alone. */
  ghost predicate PlacementOnly(c: Config, now: Time, s: State, t: State) {
    && t.workers.Keys == s.workers.Keys && t.allocations.Keys == s.allocations.Keys
    && (forall w | w in s.workers :: t.workers[w] == s.workers[w] || t.workers[w] == s.workers[w].(idleSince := 0))
    && (forall a | a in s.allocations :: t.allocations[a] == s.allocations[a] || PlacedNow(c, now, s.allocations[a], t.allocations[a]))
    && t.leader == s.leader && t.leaseUntil == s.leaseUntil && t.nextCreateAt == s.nextCreateAt
    && t.blocked == s.blocked && t.rooms == s.rooms
  }

  ghost predicate PlacedNow(c: Config, now: Time, a: Allocation, b: Allocation) {
    && a.state.Waiting? && b.worker.Some?
    && b == a.(worker := b.worker, state := Preparing, expiresAt := now + c.prepareTimeout, revision := a.revision + 1)
  }

  lemma PlaceOneOnly(c: Config, s: State, aid: Id, now: Time, cid: Id)
    requires aid in s.allocations && s.allocations[aid].state.Waiting?
    ensures PlacementOnly(c, now, s, PlaceOne(c, s, aid, now, cid))
    ensures forall a | a in s.allocations && a != aid :: PlaceOne(c, s, aid, now, cid).allocations[a] == s.allocations[a]
    ensures PlaceOne(c, s, aid, now, cid).issued <= s.issued + {cid}
  {
    match Choice(c, s, aid, now)
    case None =>
    case Some(w) => PlaceIsPlacement(c, s, aid, w, now, cid);
  }

  lemma PlaceIsPlacement(c: Config, s: State, aid: Id, w: Id, now: Time, cid: Id)
    requires aid in s.allocations && s.allocations[aid].state.Waiting? && w in s.workers
    ensures PlacementOnly(c, now, s, Place(c, s, aid, w, now, cid))
  {
  }

  /** No eligible worker has a free room. */
  ghost predicate AllFull(c: Config, s: State, now: Time) {
    forall w | w in s.workers && Eligible(c, s.workers[w], now) :: Occupied(s.allocations, w) >= s.workers[w].maxRooms
  }

  lemma FullMeansNoChoice(c: Config, s: State, aid: Id, now: Time, cid: Id)
    requires AllFull(c, s, now)
    ensures PlaceOne(c, s, aid, now, cid) == s
  {
    assert forall w :: !Candidate(c, s, aid, now, w);
  }

  /** If the choice fails for an allocation without preference, every eligible worker is full. */
  lemma NoChoiceMeansFull(c: Config, s: State, aid: Id, now: Time)
    requires aid in s.allocations && s.allocations[aid].preferred.None? && Choice(c, s, aid, now).None?
    ensures AllFull(c, s, now)
  {
    forall w | w in s.workers && Eligible(c, s.workers[w], now)
      ensures Occupied(s.allocations, w) >= s.workers[w].maxRooms
    {
      if Occupied(s.allocations, w) < s.workers[w].maxRooms {
        assert Candidate(c, s, aid, now, w);
        CandidateMeansBest(c, s, aid, now, s.workers.Keys, w);
      }
    }
  }

  lemma {:induction false} CandidateMeansBest(c: Config, s: State, aid: Id, now: Time, pool: set<Id>, w: Id)
    requires w in pool && Candidate(c, s, aid, now, w)
    requires forall v | Candidate(c, s, aid, now, v) && v !in pool :: Fuller(s, w, v)
    ensures exists u :: Best(c, s, aid, now, u)
    decreases pool
  {
    if u :| u in pool && Candidate(c, s, aid, now, u) && !Fuller(s, w, u) {
      CandidateMeansBest(c, s, aid, now, pool - {w}, u);
    } else {
      assert Best(c, s, aid, now, w);
    }
  }

  /** Distinct waiting allocations, and distinct fresh identifiers for their commands. */
  ghost predicate QueueReady(s: State, queue: seq<Id>, ids: seq<Id>) {
    && |ids| == |queue|
    && (forall a | a in queue :: a in s.allocations && s.allocations[a].state.Waiting?)
    && (forall i, j | 0 <= i < j < |queue| :: queue[i] != queue[j])
    && (forall i, j | 0 <= i < j < |queue| :: ids[i] != ids[j])
    && (forall i | 0 <= i < |ids| :: ids[i] !in s.issued)
  }

  lemma QueueReadyPrefix(s: State, queue: seq<Id>, ids: seq<Id>, n: nat)
    requires QueueReady(s, queue, ids) && n <= |queue|
    ensures QueueReady(s, queue[..n], ids[..n])
    ensures forall i | n <= i < |queue| :: queue[i] !in queue[..n] && ids[i] !in ids[..n]
  {
  }

  /** The pass touches nothing but the queue. */
  lemma {:induction false} QueueOnly(c: Config, now: Time, s: State, queue: seq<Id>, ids: seq<Id>)
    requires QueueReady(s, queue, ids)
    ensures PlacementOnly(c, now, s, PlaceQueue(c, s, queue, now, ids))
    ensures forall a | a in s.allocations && a !in queue :: PlaceQueue(c, s, queue, now, ids).allocations[a] == s.allocations[a]
    ensures forall x | x in PlaceQueue(c, s, queue, now, ids).issued :: x in s.issued || x in ids
  {
    if queue != [] {
      var n := |queue| - 1;
      QueueReadyPrefix(s, queue, ids, n);
      QueueOnly(c, now, s, queue[..n], ids[..n]);
      var m := PlaceQueue(c, s, queue[..n], now, ids[..n]);
      PlaceOneOnly(c, m, queue[n], now, ids[n]);
      PlacementOnlyTransitive(c, now, s, m, PlaceOne(c, m, queue[n], now, ids[n]));
    }
  }

  lemma PlacementOnlyTransitive(c: Config, now: Time, s: State, m: State, t: State)
    requires PlacementOnly(c, now, s, m) && PlacementOnly(c, now, m, t)
    ensures PlacementOnly(c, now, s, t)
  {
  }

  /** The pass is a run of placements. */
  lemma {:induction false} QueueReplays(c: Config, now: Time, s: State, queue: seq<Id>, ids: seq<Id>)
    returns (ops: seq<Op>)
    requires QueueReady(s, queue, ids)
    ensures Replay(c, now, s, ops) == Some(PlaceQueue(c, s, queue, now, ids))
  {
    ops := [];
    if queue != [] {
      var n := |queue| - 1;
      QueueReadyPrefix(s, queue, ids, n);
      ops := QueueReplays(c, now, s, queue[..n], ids[..n]);
      QueueOnly(c, now, s, queue[..n], ids[..n]);
      var m := PlaceQueue(c, s, queue[..n], now, ids[..n]);
      ops := PlaceOneReplays(c, now, s, ops, m, queue[n], ids[n]);
    }
  }

  lemma PlaceOneReplays(c: Config, now: Time, s: State, ops: seq<Op>, m: State, aid: Id, cid: Id) returns (more: seq<Op>)
    requires Replay(c, now, s, ops) == Some(m) && aid in m.allocations && m.allocations[aid].state.Waiting? && cid !in m.issued
    ensures Replay(c, now, s, more) == Some(PlaceOne(c, m, aid, now, cid))
  {
    more := ops;
    if Choice(c, m, aid, now).Some? {
      var w := Choice(c, m, aid, now).value;
      assert Candidate(c, m, aid, now, w);
      ReplayOne(c, now, s, ops, m, PlaceAllocation(aid, w, cid));
      more := ops + [PlaceAllocation(aid, w, cid)];
    }
  }

  /** From the first allocation without preference that finds no room on, nothing is placed. */
  lemma {:induction false} StuckQueue(c: Config, now: Time, s: State, queue: seq<Id>, ids: seq<Id>, i: nat, j: nat)
    requires |ids| == |queue| && i <= j <= |queue|
    requires AllFull(c, PlaceQueue(c, s, queue[..i], now, ids[..i]), now)
    ensures PlaceQueue(c, s, queue[..j], now, ids[..j]) == PlaceQueue(c, s, queue[..i], now, ids[..i])
  {
    if i < j {
      StuckQueue(c, now, s, queue, ids, i, j - 1);
      assert queue[..j][..j - 1] == queue[..j - 1] && ids[..j][..j - 1] == ids[..j - 1];
      FullMeansNoChoice(c, PlaceQueue(c, s, queue[..i], now, ids[..i]), queue[j - 1], now, ids[j - 1]);
    }
  }

  /** An allocation without preference that is still waiting after the pass: all eligible
      workers are full, and nothing behind it in the queue was placed. */
  lemma WaitingMeansFull(c: Config, now: Time, s: State, queue: seq<Id>, ids: seq<Id>, i: nat)
    requires QueueReady(s, queue, ids) && i < |queue| && s.allocations[queue[i]].preferred.None?
    requires queue[i] in PlaceQueue(c, s, queue, now, ids).allocations
    requires PlaceQueue(c, s, queue, now, ids).allocations[queue[i]].state.Waiting?
    ensures AllFull(c, PlaceQueue(c, s, queue, now, ids), now)
    ensures forall j | i <= j < |queue| ::
              queue[j] in PlaceQueue(c, s, queue, now, ids).allocations && PlaceQueue(c, s, queue, now, ids).allocations[queue[j]].state.Waiting?
  {
    var m := PlaceQueue(c, s, queue[..i], now, ids[..i]);
    QueueReadyPrefix(s, queue, ids, i);
    QueueOnly(c, now, s, queue[..i], ids[..i]);
    assert queue[..|queue|] == queue && ids[..|ids|] == ids;
    assert Choice(c, m, queue[i], now).None? by {
      if Choice(c, m, queue[i], now).Some? {
        PlacedStays(c, now, s, queue, ids, i, |queue|);
      }
    }
    NoChoiceMeansFull(c, m, queue[i], now);
    StuckQueue(c, now, s, queue, ids, i, |queue|);
  }

  lemma {:induction false} PlacedStays(c: Config, now: Time, s: State, queue: seq<Id>, ids: seq<Id>, i: nat, j: nat)
    requires |ids| == |queue| && i < j <= |queue| && queue[i] in s.allocations
    requires forall i, j | 0 <= i < j < |queue| :: queue[i] != queue[j]
    requires Choice(c, PlaceQueue(c, s, queue[..i], now, ids[..i]), queue[i], now).Some?
    ensures queue[i] in PlaceQueue(c, s, queue[..j], now, ids[..j]).allocations
    ensures !PlaceQueue(c, s, queue[..j], now, ids[..j]).allocations[queue[i]].state.Waiting?
  {
    assert queue[..j][..j - 1] == queue[..j - 1] && ids[..j][..j - 1] == ids[..j - 1];
    if i + 1 < j {
      PlacedStays(c, now, s, queue, ids, i, j - 1);
    }
  }

  /** First come, first served: what was placed without preference came before what still waits. */
  lemma PlacementFifo(c: Config, now: Time, s: State, queue: seq<Id>, ids: seq<Id>, a: Id, b: Id)
    requires QueueReady(s, queue, ids) && Sorted(s.allocations, queue) && a in queue && b in queue
    requires s.allocations[a].preferred.None? && a in PlaceQueue(c, s, queue, now, ids).allocations && PlaceQueue(c, s, queue, now, ids).allocations[a].state.Waiting?
    requires b in PlaceQueue(c, s, queue, now, ids).allocations && !PlaceQueue(c, s, queue, now, ids).allocations[b].state.Waiting?
    ensures Before(s.allocations, b, a)
  {
    var i :| 0 <= i < |queue| && queue[i] == a;
    WaitingMeansFull(c, now, s, queue, ids, i);
    var j :| 0 <= j < |queue| && queue[j] == b;
    assert j < i;
  }

  /** A host was given: eligible, and the preferred one if there is a preference. */
  ghost predicate WellHosted(c: Config, now: Time, s: State, a: Allocation) {
    && a.worker.Some? && a.worker.value in s.workers && Eligible(c, s.workers[a.worker.value], now)
    && (a.preferred.None? || a.preferred == a.worker)
  }

  lemma PlaceOneHosts(c: Config, now: Time, s: State, m: State, aid: Id, cid: Id)
    requires PlacementOnly(c, now, s, m) && aid in m.allocations
    ensures var t := PlaceOne(c, m, aid, now, cid);
            aid in t.allocations && (t.allocations[aid] == m.allocations[aid] || WellHosted(c, now, s, t.allocations[aid]))
  {
    var chosen := Choice(c, m, aid, now);
    if chosen.Some? {
      assert Candidate(c, m, aid, now, chosen.value);
      EligibleUnlessIdle(c, now, s.workers[chosen.value], m.workers[chosen.value]);
    }
  }

  lemma EligibleUnlessIdle(c: Config, now: Time, v: Worker, w: Worker)
    requires w == v || w == v.(idleSince := 0)
    ensures Eligible(c, v, now) == Eligible(c, w, now) && v.maxRooms == w.maxRooms
  {
  }

  /** Every allocation that the pass placed has an eligible host, and the one it prefers. */
  lemma {:induction false} PlacedWellHosted(c: Config, now: Time, s: State, queue: seq<Id>, ids: seq<Id>, a: Id)
    requires QueueReady(s, queue, ids) && a in s.allocations
    ensures a in PlaceQueue(c, s, queue, now, ids).allocations
    ensures var b := PlaceQueue(c, s, queue, now, ids).allocations[a];
            b == s.allocations[a] || WellHosted(c, now, s, b)
  {
    if queue != [] {
      var n := |queue| - 1;
      QueueReadyPrefix(s, queue, ids, n);
      QueueOnly(c, now, s, queue[..n], ids[..n]);
      PlacedWellHosted(c, now, s, queue[..n], ids[..n], a);
      var m := PlaceQueue(c, s, queue[..n], now, ids[..n]);
      if a == queue[n] {
        PlaceOneHosts(c, now, s, m, a, ids[n]);
      } else {
        PlaceOneOnly(c, m, queue[n], now, ids[n]);
      }
    }
  }

  /** Waiting allocations have no host. */
  ghost predicate WaitingUnhosted(rooms: Allocations) {
    forall a | a in rooms && rooms[a].state.Waiting? :: rooms[a].worker.None?
  }

  lemma PlaceOneGrows(c: Config, now: Time, m: State, aid: Id, cid: Id, w: Id)
    requires aid in m.allocations && m.allocations[aid].state.Waiting? && m.allocations[aid].worker.None?
    ensures Hosted(m.allocations, w) <= Hosted(PlaceOne(c, m, aid, now, cid).allocations, w)
  {
  }

  /** Serving more of the queue never frees a room. */
  lemma {:induction false} PlacementGrows(c: Config, now: Time, s: State, queue: seq<Id>, ids: seq<Id>, i: nat, j: nat, w: Id)
    requires QueueReady(s, queue, ids) && i <= j <= |queue| && WaitingUnhosted(s.allocations)
    ensures Hosted(PlaceQueue(c, s, queue[..i], now, ids[..i]).allocations, w) <= Hosted(PlaceQueue(c, s, queue[..j], now, ids[..j]).allocations, w)
  {
    if i < j {
      PlacementGrows(c, now, s, queue, ids, i, j - 1, w);
      QueueReadyPrefix(s, queue, ids, j - 1);
      QueueOnly(c, now, s, queue[..j - 1], ids[..j - 1]);
      assert queue[..j][..j - 1] == queue[..j - 1] && ids[..j][..j - 1] == ids[..j - 1];
      PlaceOneGrows(c, now, PlaceQueue(c, s, queue[..j - 1], now, ids[..j - 1]), queue[j - 1], ids[j - 1], w);
    }
  }

  /** Only the idle clocks of workers that host something were cleared. */
  ghost predicate ClearedHost(before: Workers, after: Workers, rooms: Allocations) {
    forall w | w in before && w in after && after[w] != before[w] :: Hosted(rooms, w) != {}
  }

  lemma PlaceOneClears(c: Config, now: Time, s: State, m: State, aid: Id, cid: Id)
    requires ClearedHost(s.workers, m.workers, m.allocations) && m.workers.Keys == s.workers.Keys
    requires aid in m.allocations && m.allocations[aid].state.Waiting? && m.allocations[aid].worker.None?
    ensures var t := PlaceOne(c, m, aid, now, cid); ClearedHost(s.workers, t.workers, t.allocations)
  {
    var t := PlaceOne(c, m, aid, now, cid);
    forall w | w in s.workers && w in t.workers && t.workers[w] != s.workers[w] ensures Hosted(t.allocations, w) != {} {
      PlaceOneGrows(c, now, m, aid, cid, w);
      if m.workers[w] == s.workers[w] {
        ClearedIsChosen(c, now, m, aid, cid, w);
      }
    }
  }

  lemma ClearedIsChosen(c: Config, now: Time, m: State, aid: Id, cid: Id, w: Id)
    requires aid in m.allocations && m.allocations[aid].state.Waiting? && w in m.workers
    requires w in PlaceOne(c, m, aid, now, cid).workers && PlaceOne(c, m, aid, now, cid).workers[w] != m.workers[w]
    ensures aid in Hosted(PlaceOne(c, m, aid, now, cid).allocations, w)
  {
  }

  lemma {:induction false} PlacementClears(c: Config, now: Time, s: State, queue: seq<Id>, ids: seq<Id>)
    requires QueueReady(s, queue, ids) && WaitingUnhosted(s.allocations)
    ensures var t := PlaceQueue(c, s, queue, now, ids); ClearedHost(s.workers, t.workers, t.allocations)
  {
    if queue != [] {
      var n := |queue| - 1;
      QueueReadyPrefix(s, queue, ids, n);
      QueueOnly(c, now, s, queue[..n], ids[..n]);
      PlacementClears(c, now, s, queue[..n], ids[..n]);
      PlaceOneClears(c, now, s, PlaceQueue(c, s, queue[..n], now, ids[..n]), queue[n], ids[n]);
    }
  }

  /** An allocation that still waits for a worker it prefers: that worker is full or not eligible. */
  lemma WaitingForFullServer(c: Config, now: Time, s: State, queue: seq<Id>, ids: seq<Id>, i: nat, w: Id)
    requires QueueReady(s, queue, ids) && i < |queue| && s.allocations[queue[i]].preferred == Some(w) && WaitingUnhosted(s.allocations)
    requires queue[i] in PlaceQueue(c, s, queue, now, ids).allocations
    requires PlaceQueue(c, s, queue, now, ids).allocations[queue[i]].state.Waiting?
    requires w in s.workers && Eligible(c, s.workers[w], now)
    ensures Occupied(PlaceQueue(c, s, queue, now, ids).allocations, w) >= s.workers[w].maxRooms
  {
    var m := PlaceQueue(c, s, queue[..i], now, ids[..i]);
    QueueReadyPrefix(s, queue, ids, i);
    QueueOnly(c, now, s, queue[..i], ids[..i]);
    assert queue[..|queue|] == queue && ids[..|ids|] == ids;
    assert Choice(c, m, queue[i], now).None? by {
      if Choice(c, m, queue[i], now).Some? {
        PlacedStays(c, now, s, queue, ids, i, |queue|);
      }
    }
    EligibleUnlessIdle(c, now, s.workers[w], m.workers[w]);
    NoChoiceMeansServerFull(c, m, queue[i], now, w);
    PlacementGrows(c, now, s, queue, ids, i, |queue|, w);
    SubsetSize(Hosted(m.allocations, w), Hosted(PlaceQueue(c, s, queue, now, ids).allocations, w));
  }

  lemma NoChoiceMeansServerFull(c: Config, m: State, aid: Id, now: Time, w: Id)
    requires aid in m.allocations && m.allocations[aid].preferred == Some(w) && Choice(c, m, aid, now).None?
    requires w in m.workers && Eligible(c, m.workers[w], now)
    ensures Occupied(m.allocations, w) >= m.workers[w].maxRooms
  {
    if Occupied(m.allocations, w) < m.workers[w].maxRooms {
      assert Candidate(c, m, aid, now, w);
      CandidateMeansBest(c, m, aid, now, m.workers.Keys, w);
    }
  }

  /** Two passes over the same state with the same identifiers agree, whatever the map order. */
  lemma PlacementIsDeterministic(c: Config, now: Time, s: State, p: seq<Id>, q: seq<Id>, ids: seq<Id>)
    requires Sorted(s.allocations, p) && Sorted(s.allocations, q) && |ids| == |p| == |q|
    requires forall a :: a in p <==> a in WaitingSet(s.allocations)
    requires forall a :: a in q <==> a in WaitingSet(s.allocations)
    ensures PlaceQueue(c, s, p, now, ids) == PlaceQueue(c, s, q, now, ids)
  {
    QueueUnique(s.allocations, p, q);
  }
}
