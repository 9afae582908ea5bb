/** What the invariant says in the terms of the protocol: phases and open commands match one
    to one, capacity holds, references resolve, revisions count. */
module FleetCoherence {
  import opened Basics
  import opened FleetState
  import opened FleetOps
  import opened FleetInvariant
  import opened FleetPreserve

  /** The open commands of one kind for one allocation; for one worker; and all of a worker's. */
  ghost function RoomOrders(cs: Commands, kind: CommandKind, aid: Id): set<Id> {
    set k | k in cs && !cs[k].done && cs[k].kind == kind && cs[k].allocation == Some(aid)
  }

  ghost function DrainOrders(cs: Commands, wid: Id): set<Id> {
    set k | k in cs && !cs[k].done && cs[k].kind.Drain? && cs[k].worker == wid
  }

  ghost function OpenOrders(cs: Commands, wid: Id): set<Id> {
    set k | k in cs && !cs[k].done && cs[k].worker == wid
  }

  function PhaseOf(kind: CommandKind): AllocationState
    requires !kind.Drain?
  {
    if kind.PrepareRoom? then Preparing else Cancelling
  }

  lemma AtMostOne<T>(xs: set<T>, x: T)
    requires x in xs && forall y | y in xs :: y == x
    ensures |xs| == 1
  {
    assert xs == {x};
  }

  /** An allocation has exactly one open preparation (cancellation) while it is preparing
      (cancelling), and none otherwise. */
  lemma RoomOrdersMatchPhase(c: Config, s: State, kind: CommandKind, aid: Id)
    requires Inv(c, s) && aid in s.allocations && !kind.Drain?
    ensures |RoomOrders(s.commands, kind, aid)| == if s.allocations[aid].state == PhaseOf(kind) then 1 else 0
  {
    var orders := RoomOrders(s.commands, kind, aid);
    var a := s.allocations[aid];
    forall k | k in orders ensures a.state == PhaseOf(kind) && a.worker == Some(s.commands[k].worker) {
      assert Undone(s.commands, k) && CommandSound(s.allocations, s.workers, s.commands[k]);
    }
    if a.state == PhaseOf(kind) {
      assert PlacedOne(a, s.workers);
      assert RoomCommanded(aid, a, s.commands);
      var k :| Pending(s.commands, kind, Some(aid), a.worker.value, k);
      forall j | j in orders ensures j == k {
        assert SameTarget(s.commands[j], s.commands[k]);
      }
      AtMostOne(orders, k);
    } else if k :| k in orders {
      assert false;
    }
  }

  /** A worker has exactly one open drain while it is draining without acknowledgement, and none otherwise. */
  lemma DrainOrdersMatchPhase(c: Config, s: State, wid: Id)
    requires Inv(c, s) && wid in s.workers
    ensures |DrainOrders(s.commands, wid)| == if AwaitsDrain(s.workers[wid]) then 1 else 0
  {
    var orders := DrainOrders(s.commands, wid);
    forall k | k in orders ensures AwaitsDrain(s.workers[wid]) && s.commands[k].allocation.None? {
      assert Undone(s.commands, k) && CommandSound(s.allocations, s.workers, s.commands[k]);
    }
    if AwaitsDrain(s.workers[wid]) {
      assert HasPending(s.commands, Drain, None, wid);
      var k :| Pending(s.commands, Drain, None, wid, k);
      forall j | j in orders ensures j == k {
        assert SameTarget(s.commands[j], s.commands[k]);
      }
      AtMostOne(orders, k);
    } else if k :| k in orders {
      assert false;
    }
  }

  lemma {:induction false} InjectiveImage<A, B>(xs: set<A>, f: map<A, B>, ys: set<B>)
    requires xs <= f.Keys && (forall x | x in xs :: f[x] in ys)
    requires forall x, y | x in xs && y in xs && x != y :: f[x] != f[y]
    ensures |xs| <= |ys|
  {
    if xs != {} {
      var x :| x in xs;
      InjectiveImage(xs - {x}, f, ys - {f[x]});
    }
  }

  function Targets(rooms: set<Id>): set<Option<Id>> {
    (set a | a in rooms :: Some(a)) + {None}
  }

  lemma {:induction false} TargetCount(rooms: set<Id>)
    ensures |Targets(rooms)| == |rooms| + 1
  {
    if rooms == {} {
      assert Targets(rooms) == {None};
    } else {
      var a :| a in rooms;
      TargetCount(rooms - {a});
      assert Targets(rooms) == Targets(rooms - {a}) + {Some(a)};
    }
  }

  /** A worker never has more open commands than rooms and one. */
  lemma OpenOrdersAreBounded(c: Config, s: State, wid: Id)
    requires Inv(c, s) && wid in s.workers
    ensures |OpenOrders(s.commands, wid)| <= s.workers[wid].maxRooms + 1
  {
    var orders := OpenOrders(s.commands, wid);
    var target := map k | k in orders :: s.commands[k].allocation;
    forall k | k in orders ensures target[k] in Targets(Hosted(s.allocations, wid)) {
      OrderHasTarget(s, wid, k);
    }
    forall k, j | k in orders && j in orders && k != j ensures target[k] != target[j] {
      OrdersDiffer(s, k, j);
    }
    CountOrders(s.allocations, wid, orders, target);
    assert Occupied(s.allocations, wid) <= s.workers[wid].maxRooms;
  }

  lemma CountOrders(rooms: Allocations, wid: Id, orders: set<Id>, target: map<Id, Option<Id>>)
    requires orders <= target.Keys && (forall k | k in orders :: target[k] in Targets(Hosted(rooms, wid)))
    requires forall k, j | k in orders && j in orders && k != j :: target[k] != target[j]
    ensures |orders| <= Occupied(rooms, wid) + 1
  {
    InjectiveImage(orders, target, Targets(Hosted(rooms, wid)));
    TargetCount(Hosted(rooms, wid));
  }

  lemma OrderHasTarget(s: State, wid: Id, k: Id)
    requires CommandsSound(s.allocations, s.workers, s.commands) && k in OpenOrders(s.commands, wid)
    ensures s.commands[k].allocation in Targets(Hosted(s.allocations, wid))
  {
    assert Undone(s.commands, k) && CommandSound(s.allocations, s.workers, s.commands[k]);
  }

  lemma OrdersDiffer(s: State, k: Id, j: Id)
    requires CommandInv(s) && Undone(s.commands, k) && Undone(s.commands, j) && k != j && s.commands[k].worker == s.commands[j].worker
    ensures s.commands[k].allocation != s.commands[j].allocation
  {
    assert CommandSound(s.allocations, s.workers, s.commands[k]) && CommandSound(s.allocations, s.workers, s.commands[j]);
    assert !SameTarget(s.commands[k], s.commands[j]);
  }

  /** Capacity, references and revisions. */
  lemma EveryRecordIsBounded(c: Config, s: State)
    requires Inv(c, s)
    ensures |Live(s.workers)| <= c.maxInstances
    ensures forall w | w in s.workers :: Occupied(s.allocations, w) <= s.workers[w].maxRooms && 0 <= s.workers[w].playerCount <= 2 * s.workers[w].maxRooms
    ensures forall a | a in s.allocations :: 0 <= s.allocations[a].notifiedRevision <= s.allocations[a].revision <= 7
    ensures forall a | a in s.allocations && !Terminal(s.allocations[a].state) && s.allocations[a].worker.Some? :: s.allocations[a].worker.value in s.workers
    ensures forall k | k in s.commands :: s.commands[k].worker in s.workers
  {
    forall w | w in s.workers ensures 0 <= s.workers[w].playerCount <= 2 * s.workers[w].maxRooms {
      assert WorkerWell(s.workers[w]);
    }
    forall a | a in s.allocations ensures 0 <= s.allocations[a].notifiedRevision <= s.allocations[a].revision <= 7 {
      assert AllocationWell(s.allocations[a]);
    }
    forall a | a in s.allocations && !Terminal(s.allocations[a].state) && s.allocations[a].worker.Some?
      ensures s.allocations[a].worker.value in s.workers
    {
      assert PlacedOne(s.allocations[a], s.workers);
    }
  }
}
