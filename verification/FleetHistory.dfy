/** How states follow each other: allocations only climb their rank, closed workers stay
    closed, and identifiers never come back. */
module FleetHistory {
  import opened Basics
  import opened FleetState
  import opened FleetOps
  import opened FleetInvariant
  import opened FleetPreserve

  /** One allocation later in time: higher or unchanged, and its revision counts the changes. */
  ghost predicate AllocationEvolves(a: Allocation, b: Allocation) {
    && b.requestKey == a.requestKey && b.room == a.room && b.users == a.users
    && b.preferred == a.preferred && b.createdAt == a.createdAt
    && Rank(a.state) <= Rank(b.state)
    && (Rank(a.state) == Rank(b.state) ==> b.state == a.state)
    && (b.state == a.state <==> b.revision == a.revision)
    && 0 <= b.revision - a.revision <= Rank(b.state) - Rank(a.state)
    && (Terminal(a.state) ==> b == a.(notifiedRevision := b.notifiedRevision))
    && (a.worker.Some? ==> b.worker == a.worker)
    && (b.state == a.state ==> b.error == a.error)
    && (a.state.Cancelling? && Terminal(b.state) ==> b.state.Failed? || b.state == if a.error == "cancelled" then Cancelled else Expired)
  }

  ghost predicate WorkerEvolves(v: Worker, w: Worker) {
    && w.maxRooms == v.maxRooms && w.createdAt == v.createdAt && w.lastSequence >= v.lastSequence
    && (v.bootId != "" ==> w.bootId == v.bootId)
    && (v.providerId.Some? ==> w.providerId == v.providerId)
    && (Closed(v.state) ==> Closed(w.state))
    && (!Counted(v) ==> !Counted(w))
    && (w.state.Requested? ==> v.state.Requested?)
  }

  /** A command that was settled or forgotten never comes back. */
  ghost predicate CommandsEvolve(s: State, t: State) {
    forall k | k in s.issued && !Undone(s.commands, k) :: !Undone(t.commands, k)
  }

  ghost predicate WorkersEvolve(s: State, t: State) {
    forall w | w in t.workers ::
      if w in s.workers then WorkerEvolves(s.workers[w], t.workers[w]) else w !in s.issued
  }

  ghost predicate AllocationsEvolve(s: State, t: State) {
    forall a | a in t.allocations ::
      if a in s.allocations then AllocationEvolves(s.allocations[a], t.allocations[a]) else a !in s.issued
  }

  ghost predicate Evolves(s: State, t: State) {
    s.issued <= t.issued && WorkersEvolve(s, t) && AllocationsEvolve(s, t) && CommandsEvolve(s, t)
  }

  lemma EvolvesTransitive(r: State, s: State, t: State)
    requires IdsIssued(r) && Evolves(r, s) && Evolves(s, t)
    ensures Evolves(r, t)
  {
    assert WorkersEvolve(r, t);
    AllocationsEvolveTransitive(r, s, t);
  }

  lemma AllocationsEvolveTransitive(r: State, s: State, t: State)
    requires IdsIssued(r) && r.issued <= s.issued && AllocationsEvolve(r, s) && AllocationsEvolve(s, t)
    ensures AllocationsEvolve(r, t)
  {
    forall a | a in t.allocations
      ensures if a in r.allocations then AllocationEvolves(r.allocations[a], t.allocations[a]) else a !in r.issued
    {
      if a in r.allocations {
        assert a in s.allocations;
        assert AllocationEvolves(r.allocations[a], s.allocations[a]) && AllocationEvolves(s.allocations[a], t.allocations[a]);
      }
    }
  }

  lemma ApplyEvolves(c: Config, now: Time, s: State, op: Op)
    requires Inv(c, s) && Enabled(c, now, s, op)
    ensures Evolves(s, Apply(c, now, s, op))
  {
    ApplyWorkersEvolve(c, now, s, op);
    ApplyAllocationsEvolve(c, now, s, op);
    ApplyCommandsEvolve(c, now, s, op);
  }

  lemma ApplyCommandsEvolve(c: Config, now: Time, s: State, op: Op)
    requires Enabled(c, now, s, op)
    ensures CommandsEvolve(s, Apply(c, now, s, op))
  {
    forall k | k in s.issued && !Undone(s.commands, k) ensures !Undone(Apply(c, now, s, op).commands, k) {
    }
  }

  lemma ApplyWorkersEvolve(c: Config, now: Time, s: State, op: Op)
    requires IdsIssued(s) && Enabled(c, now, s, op)
    ensures s.issued <= Apply(c, now, s, op).issued && WorkersEvolve(s, Apply(c, now, s, op))
  {
    if op.EditWorker? || op.DrainWorker? || op.Close? || op.AddWorker? {
      WorkerOpsEvolve(c, now, s, op);
    } else if ChangesOneAllocation(op) {
      RoomOpsKeepWorkers(c, now, s, op);
    } else {
      OtherOpsKeepWorkers(c, now, s, op);
    }
  }

  lemma WorkerOpsEvolve(c: Config, now: Time, s: State, op: Op)
    requires IdsIssued(s) && Enabled(c, now, s, op) && (op.EditWorker? || op.DrainWorker? || op.Close? || op.AddWorker?)
    ensures s.issued <= Apply(c, now, s, op).issued && WorkersEvolve(s, Apply(c, now, s, op))
  {
  }

  lemma RoomOpsKeepWorkers(c: Config, now: Time, s: State, op: Op)
    requires Enabled(c, now, s, op) && ChangesOneAllocation(op)
    ensures s.issued <= Apply(c, now, s, op).issued && WorkersEvolve(s, Apply(c, now, s, op))
  {
  }

  lemma OtherOpsKeepWorkers(c: Config, now: Time, s: State, op: Op)
    requires Enabled(c, now, s, op) && !ChangesOneAllocation(op) && !(op.EditWorker? || op.DrainWorker? || op.Close? || op.AddWorker?)
    ensures s.issued <= Apply(c, now, s, op).issued && WorkersEvolve(s, Apply(c, now, s, op))
  {
  }

  lemma ApplyAllocationsEvolve(c: Config, now: Time, s: State, op: Op)
    requires Inv(c, s) && Enabled(c, now, s, op)
    ensures AllocationsEvolve(s, Apply(c, now, s, op))
  {
    if ChangesOneAllocation(op) {
      var aid := if op.MarkPrepared? || op.FinishCancel? then s.commands[op.cid].allocation.value else op.aid;
      assert AllocationWell(s.allocations[aid]);
      assert !Terminal(s.allocations[aid].state) ==> PlacedOne(s.allocations[aid], s.workers);
      OneAllocationEvolves(c, now, s, op, aid);
    } else {
      OtherAllocationsEvolve(c, now, s, op);
    }
  }

  predicate ChangesOneAllocation(op: Op) {
    EditOp(op) || op.MarkPrepared? || op.FinishCancel? || op.CancelAllocation? || op.PlaceAllocation?
  }

  lemma OtherAllocationsEvolve(c: Config, now: Time, s: State, op: Op)
    requires IdsIssued(s) && Enabled(c, now, s, op) && !ChangesOneAllocation(op)
    ensures AllocationsEvolve(s, Apply(c, now, s, op))
  {
    if op.Close? {
      CloseEvolves(s, Apply(c, now, s, op), op.wid, if op.stop then "server_stopped" else "server_lost", now);
    } else if op.AddAllocation? || op.PruneAllocation? {
    } else {
      assert Apply(c, now, s, op).allocations == s.allocations;
    }
  }

  lemma CloseEvolves(s: State, t: State, wid: Id, reason: string, now: Time)
    requires t.allocations == FinishHosted(s.allocations, wid, reason, now)
    ensures AllocationsEvolve(s, t)
  {
  }

  lemma OneAllocationEvolves(c: Config, now: Time, s: State, op: Op, aid: Id)
    requires Enabled(c, now, s, op) && ChangesOneAllocation(op)
    requires aid == (if op.MarkPrepared? || op.FinishCancel? then s.commands[op.cid].allocation.value else op.aid)
    requires !Terminal(s.allocations[aid].state) && s.allocations[aid].state.Waiting? ==> s.allocations[aid].worker.None?
    ensures AllocationsEvolve(s, Apply(c, now, s, op))
  {
    var t := Apply(c, now, s, op);
    assert t.allocations == s.allocations[aid := t.allocations[aid]];
    OneEvolves(c, now, s, op, aid);
  }

  lemma OneEvolves(c: Config, now: Time, s: State, op: Op, aid: Id)
    requires Enabled(c, now, s, op) && ChangesOneAllocation(op)
    requires aid == (if op.MarkPrepared? || op.FinishCancel? then s.commands[op.cid].allocation.value else op.aid)
    requires !Terminal(s.allocations[aid].state) && s.allocations[aid].state.Waiting? ==> s.allocations[aid].worker.None?
    ensures AllocationEvolves(s.allocations[aid], Apply(c, now, s, op).allocations[aid])
  {
    if EditOp(op) {
      EditEvolves(c, now, s, op, aid);
    }
  }

  lemma EditEvolves(c: Config, now: Time, s: State, op: Op, aid: Id)
    requires Enabled(c, now, s, op) && EditOp(op) && aid == op.aid
    ensures AllocationEvolves(s.allocations[aid], Apply(c, now, s, op).allocations[aid])
  {
  }

  lemma {:induction false} ReplayEvolves(c: Config, now: Time, s: State, ops: seq<Op>, t: State)
    requires Inv(c, s) && Replay(c, now, s, ops) == Some(t)
    ensures Evolves(s, t)
  {
    if ops != [] {
      var n := |ops| - 1;
      var m := Replay(c, now, s, ops[..n]).value;
      ReplayEvolves(c, now, s, ops[..n], m);
      ReplayKeeps(c, now, s, ops[..n], m);
      ApplyEvolves(c, now, m, ops[n]);
      EvolvesTransitive(s, m, t);
    }
  }

  // ---- Revisions count the changes of phase --------------------------------------------

  /** One change: the revision moves exactly when the phase does, and by one. */
  ghost predicate RevisionCounts(s: State, t: State) {
    forall a | a in s.allocations && a in t.allocations ::
      t.allocations[a].revision == s.allocations[a].revision + if t.allocations[a].state == s.allocations[a].state then 0 else 1
  }

  lemma ApplyCounts(c: Config, now: Time, s: State, op: Op)
    requires IdsIssued(s) && Enabled(c, now, s, op)
    ensures RevisionCounts(s, Apply(c, now, s, op))
  {
    if ChangesOneAllocation(op) {
      ChangeCounts(c, now, s, op);
    } else if op.Close? {
      assert RevisionCounts(s, Apply(c, now, s, op));
    } else {
      OtherOpsCount(c, now, s, op);
    }
  }

  lemma ChangeCounts(c: Config, now: Time, s: State, op: Op)
    requires Enabled(c, now, s, op) && ChangesOneAllocation(op)
    ensures RevisionCounts(s, Apply(c, now, s, op))
  {
    if EditOp(op) {
      EditCounts(c, now, s, op);
    }
  }

  lemma EditCounts(c: Config, now: Time, s: State, op: Op)
    requires Enabled(c, now, s, op) && EditOp(op)
    ensures RevisionCounts(s, Apply(c, now, s, op))
  {
  }

  lemma OtherOpsCount(c: Config, now: Time, s: State, op: Op)
    requires IdsIssued(s) && Enabled(c, now, s, op) && !ChangesOneAllocation(op) && !op.Close?
    ensures RevisionCounts(s, Apply(c, now, s, op))
  {
  }

  /** How often the phase of an allocation changes along a sequence of changes. */
  ghost function PhaseChanges(c: Config, now: Time, s: State, ops: seq<Op>, aid: Id): nat
    requires Replay(c, now, s, ops).Some?
  {
    if ops == [] then 0
    else
      var n := |ops| - 1;
      var m, t := Replay(c, now, s, ops[..n]).value, Replay(c, now, s, ops).value;
      PhaseChanges(c, now, s, ops[..n], aid) +
        if aid in m.allocations && aid in t.allocations && m.allocations[aid].state != t.allocations[aid].state then 1 else 0
  }

  lemma {:induction false} RevisionIsTheNumberOfChanges(c: Config, now: Time, s: State, ops: seq<Op>, t: State, aid: Id)
    requires Inv(c, s) && Replay(c, now, s, ops) == Some(t) && aid in s.allocations && aid in t.allocations
    ensures t.allocations[aid].revision == s.allocations[aid].revision + PhaseChanges(c, now, s, ops, aid)
  {
    if ops != [] {
      var n := |ops| - 1;
      var m := Replay(c, now, s, ops[..n]).value;
      ReplayKeeps(c, now, s, ops[..n], m);
      ReplayEvolves(c, now, s, ops[..n], m);
      ApplyEvolves(c, now, m, ops[n]);
      assert aid in m.allocations;
      RevisionIsTheNumberOfChanges(c, now, s, ops[..n], m, aid);
      ApplyCounts(c, now, m, ops[n]);
    }
  }
}
