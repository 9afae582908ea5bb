/** `Assignment`: which allocation a player is told about, and the ticket it carries. */
module FleetAssignment {
  import opened Basics
  import opened FleetState
  import opened FleetOps
  import opened FleetInvariant
  import opened FleetPreserve
  import opened FleetHeartbeat
  import T = TicketText
  import K = Tickets

  // ---- Which allocation -------------------------------------------------------------------------

  /** The order in which a player's allocations are preferred: unfinished first, then the newest. */
  predicate Outranks(b: Allocation, a: Allocation) {
    || (Terminal(a.state) && !Terminal(b.state))
    || (Terminal(a.state) == Terminal(b.state) && b.createdAt > a.createdAt)
  }

  method FindAssignment(rooms: Allocations, user: string) returns (found: Option<Id>)
    ensures found.Some? ==> found.value in rooms && user in rooms[found.value].users
    ensures found.Some? ==> forall b | b in rooms && user in rooms[b].users :: !Outranks(rooms[b], rooms[found.value])
    ensures found.None? ==> forall b | b in rooms :: user !in rooms[b].users
    ensures found.Some? && Rank(rooms[found.value].state) == 6 ==>
              forall b | b in rooms && user in rooms[b].users :: Rank(rooms[b].state) == 6 && rooms[b].createdAt <= rooms[found.value].createdAt
  {
    found := None;
    var todo := rooms.Keys;
    while todo != {}
      invariant todo <= rooms.Keys
      invariant found.Some? ==> found.value in rooms && user in rooms[found.value].users
      invariant found.Some? ==> forall b | b in rooms && b !in todo && user in rooms[b].users :: !Outranks(rooms[b], rooms[found.value])
      invariant found.None? ==> forall b | b in rooms && b !in todo :: user !in rooms[b].users
    {
      var b :| b in todo;
      todo := todo - {b};
      if user in rooms[b].users && (found.None? || Outranks(rooms[b], rooms[found.value])) {
        found := Some(b);
      }
    }
  }

  /** A player's unfinished allocation is the one found, whatever the order of the scan. */
  lemma TheUnfinishedOneIsFound(c: Config, s: State, user: string, aid: Id, found: Id)
    requires Inv(c, s) && aid in s.allocations && user in s.allocations[aid].users && !Terminal(s.allocations[aid].state)
    requires found in s.allocations && user in s.allocations[found].users && !Outranks(s.allocations[aid], s.allocations[found])
    ensures found == aid
  {
    assert found != aid ==> Disjoint(s.allocations[found].users, s.allocations[aid].users);
  }

  // ---- The ticket -------------------------------------------------------------------------------

  /** Texts are byte strings, one character a byte. */
  predicate ByteText(s: string) {
    forall i | 0 <= i < |s| :: s[i] as int < 256
  }

  function BytesOf(s: string): (b: T.Bytes)
    requires ByteText(s)
    ensures |b| == |s|
  {
    seq(|s|, i requires 0 <= i < |s| => s[i] as int)
  }

  /** An identifier as fixed-width hexadecimal text. */
  function Hex(n: nat, width: nat): (b: T.Bytes)
    ensures |b| == width
  {
    if width == 0 then [] else Hex(n / 16, width - 1) + [T.HexDigit(n % 16)]
  }

  function IdText(id: Id): (b: T.Bytes)
    ensures |b| == 32
  {
    Hex(id, 32)
  }

  datatype Answer = Denied(error: Error) | Status | Ticket(claims: K.Claims)

  predicate Reachable(c: Config, w: Worker, resume: bool, now: Time) {
    && w.providerReady && (w.ready || (resume && w.draining && w.state.Draining?)) && w.bootId != "" && w.host != ""
    && now - w.lastHeartbeat <= c.heartbeatTimeout && (w.state.Ready? || w.state.Draining?)
  }

  /** The first seat of a user. */
  function SeatOf(sessions: seq<Session>, user: string): (i: nat)
    ensures i <= |sessions| && (i < |sessions| ==> sessions[i].user == user)
    ensures forall j | 0 <= j < i :: sessions[j].user != user
  {
    if sessions == [] || sessions[0].user == user then 0 else 1 + SeatOf(sessions[1..], user)
  }

  /** Until when a ticket for a seat is good; none when the seat cannot be taken any more. */
  function Expiry(x: Session, resume: bool, now: Time): Option<Time> {
    if resume then
      if !x.everConnected || 0 < x.reconnectUntil <= now then None
      else if 0 < x.reconnectUntil < now + 45 then Some(x.reconnectUntil)
      else Some(now + 45)
    else if x.expiresAt <= now then None
    else Some(x.expiresAt)
  }

  function ClaimsOf(w: Worker, wid: Id, a: Allocation, aid: Id, x: Session, user: string, resume: bool, exp: Time, nonce: Id): K.Claims
    requires ByteText(user) && ByteText(w.bootId)
  {
    K.Claims(1, BytesOf(user), IdText(wid), BytesOf(w.bootId), IdText(a.room), IdText(aid), IdText(x.id),
             x.seat, a.epoch, exp, IdText(nonce), resume)
  }

  /** `Assignment` for one allocation. */
  function Assignment(c: Config, s: State, user: string, aid: Id, resume: bool, now: Time, nonce: Id): Answer
    requires ByteText(user) && forall w | w in s.workers :: ByteText(s.workers[w].bootId)
  {
    if aid !in s.allocations then Denied(NotFound)
    else
      var a := s.allocations[aid];
      if user !in a.users then Denied(Forbidden)
      else if !a.state.Assigned? && !a.state.Active? then Status
      else if a.worker.None? || a.worker.value !in s.workers || !Reachable(c, s.workers[a.worker.value], resume, now) then Denied(Busy)
      else
        var i := SeatOf(a.sessions, user);
        if i == |a.sessions| then Denied(Forbidden)
        else
          match Expiry(a.sessions[i], resume, now)
          case None => Denied(Busy)
          case Some(exp) => Ticket(ClaimsOf(s.workers[a.worker.value], a.worker.value, a, aid, a.sessions[i], user, resume, exp, nonce))
  }

  // ---- Seats never outlive their reservation ----------------------------------------------------

  ghost predicate SeatsInTime(rooms: Allocations, clock: Time) {
    forall a, i | a in rooms && 0 <= i < |rooms[a].sessions| :: rooms[a].sessions[i].expiresAt <= clock + 60
  }

  lemma ApplySeats(c: Config, now: Time, s: State, op: Op, clock: Time)
    requires c.reservationTTL == 60 && SeatsInTime(s.allocations, clock) && now <= clock && Enabled(c, now, s, op)
    requires op.AddAllocation? ==> op.allocation.sessions == []
    ensures SeatsInTime(Apply(c, now, s, op).allocations, clock)
  {
    var t := Apply(c, now, s, op);
    forall a, i | a in t.allocations && 0 <= i < |t.allocations[a].sessions| ensures t.allocations[a].sessions[i].expiresAt <= clock + 60 {
      if a in s.allocations && t.allocations[a].sessions == s.allocations[a].sessions {
        assert s.allocations[a].sessions[i].expiresAt <= clock + 60;
      } else if op.SetSessions? {
        assert SameSeat(s.allocations[op.aid].sessions[i], op.sessions[i]);
      }
    }
  }

  lemma {:induction false} ReplaySeats(c: Config, now: Time, s: State, ops: seq<Op>, t: State, clock: Time)
    requires c.reservationTTL == 60 && SeatsInTime(s.allocations, clock) && now <= clock && Replay(c, now, s, ops) == Some(t)
    ensures SeatsInTime(t.allocations, clock)
  {
    if ops != [] {
      var n := |ops| - 1;
      var m := Replay(c, now, s, ops[..n]).value;
      ReplaySeats(c, now, s, ops[..n], m, clock);
      ApplySeats(c, now, m, ops[n], clock);
    }
  }

  // ---- What a ticket promises -------------------------------------------------------------------

  lemma SeatIsRosterIndex(a: Allocation, user: string)
    requires AllocationWell(a) && user in a.users && SeatOf(a.sessions, user) < |a.sessions|
    ensures var x := a.sessions[SeatOf(a.sessions, user)];
            x.seat == SeatOf(a.sessions, user) && x.seat < |a.users| && a.users[x.seat] == user
  {
  }

  /** The seat of a ticket is the user's place in the roster; its lifetime starts now and ends
      within a minute, on a resume within 45 seconds and the reconnection deadline. */
  lemma TicketIsSound(c: Config, s: State, user: string, aid: Id, resume: bool, now: Time, nonce: Id)
    requires ValidConfig(c) && Inv(c, s) && SeatsInTime(s.allocations, now) && 0 <= now < T.Power10(18)
    requires ByteText(user) && (forall w | w in s.workers :: ByteText(s.workers[w].bootId))
    requires Assignment(c, s, user, aid, resume, now, nonce).Ticket?
    ensures var k := Assignment(c, s, user, aid, resume, now, nonce).claims; var a := s.allocations[aid];
            && 0 <= k.seat < |a.users| && a.users[k.seat] == user && k.user == BytesOf(user)
            && now < k.exp <= now + 60
            && (if resume then k.exp <= now + 45 else k.exp == a.sessions[k.seat].expiresAt)
            && (resume && a.sessions[k.seat].reconnectUntil > 0 ==> k.exp <= a.sessions[k.seat].reconnectUntil)
            && K.Issuable(k) && K.Admissible(k, now) && NamesRecords(s, k, user, aid, resume, nonce)
  {
    var a := s.allocations[aid];
    Powers();
    assert AllocationWell(a);
    SeatIsRosterIndex(a, user);
    assert WorkerWell(s.workers[a.worker.value]);
    UsersFit(a, user);
  }

  /** Every claim names the record it is about. */
  predicate NamesRecords(s: State, k: K.Claims, user: string, aid: Id, resume: bool, nonce: Id) {
    && aid in s.allocations && ByteText(user)
    && var a := s.allocations[aid];
    && a.worker.Some? && a.worker.value in s.workers && ByteText(s.workers[a.worker.value].bootId) && 0 <= k.seat < |a.sessions|
    && k.schema == 1 && k.user == BytesOf(user) && k.worker == IdText(a.worker.value) && k.boot == BytesOf(s.workers[a.worker.value].bootId)
    && k.room == IdText(a.room) && k.allocation == IdText(aid) && k.reservation == IdText(a.sessions[k.seat].id) && a.sessions[k.seat].user == user
    && k.epoch == a.epoch && k.nonce == IdText(nonce) && k.resume == resume
  }

  function Power16(width: nat): nat {
    if width == 0 then 1 else 16 * Power16(width - 1)
  }

  /** The text of an identifier names that identifier only. */
  lemma {:induction false} HexNamesOne(x: nat, y: nat, width: nat)
    requires x < Power16(width) && y < Power16(width) && Hex(x, width) == Hex(y, width)
    ensures x == y
  {
    if width > 0 {
      var p, q := Hex(x, width), Hex(y, width);
      assert p[..width - 1] == Hex(x / 16, width - 1) && q[..width - 1] == Hex(y / 16, width - 1);
      assert p[width - 1] == T.HexDigit(x % 16) && q[width - 1] == T.HexDigit(y % 16);
      T.HexRoundTrip(x % 16);
      T.HexRoundTrip(y % 16);
      HexNamesOne(x / 16, y / 16, width - 1);
    }
  }

  /** Who gets a ticket: a member of an assigned or active room on a reachable host, whose seat can
      still be taken, or resumed within its reconnection time. */
  ghost predicate MayEnter(c: Config, s: State, user: string, aid: Id, resume: bool, now: Time) {
    && aid in s.allocations
    && var a := s.allocations[aid];
    && (a.state == Assigned || a.state == Active) && a.worker.Some? && a.worker.value in s.workers
    && var w := s.workers[a.worker.value];
    && (w.state == Ready || w.state == Draining) && w.providerReady && (w.ready || (resume && w.state == Draining && w.draining))
    && w.bootId != "" && w.host != "" && now <= w.lastHeartbeat + c.heartbeatTimeout
    && exists i :: 0 <= i < |a.users| && i < |a.sessions| && a.users[i] == user &&
         (if resume then a.sessions[i].everConnected && (a.sessions[i].reconnectUntil <= 0 || now < a.sessions[i].reconnectUntil)
          else now < a.sessions[i].expiresAt)
  }

  lemma SeatOfMember(a: Allocation, user: string, i: nat)
    requires AllocationWell(a) && i < |a.users| && i < |a.sessions| && a.users[i] == user
    ensures SeatOf(a.sessions, user) == i
  {
  }

  lemma TicketIssuedExactly(c: Config, s: State, user: string, aid: Id, resume: bool, now: Time, nonce: Id)
    requires Inv(c, s) && ByteText(user) && (forall w | w in s.workers :: ByteText(s.workers[w].bootId))
    ensures Assignment(c, s, user, aid, resume, now, nonce).Ticket? <==> MayEnter(c, s, user, aid, resume, now)
  {
    if aid in s.allocations {
      var a := s.allocations[aid];
      assert AllocationWell(a);
      if user in a.users && SeatOf(a.sessions, user) < |a.sessions| {
        SeatIsRosterIndex(a, user);
      }
      if MayEnter(c, s, user, aid, resume, now) {
        var i :| 0 <= i < |a.users| && i < |a.sessions| && a.users[i] == user &&
         (if resume then a.sessions[i].everConnected && (a.sessions[i].reconnectUntil <= 0 || now < a.sessions[i].reconnectUntil)
          else now < a.sessions[i].expiresAt);
        SeatOfMember(a, user, i);
      }
    }
  }

  lemma UsersFit(a: Allocation, user: string)
    requires ValidUsers(a.users) && user in a.users
    ensures 0 < |user| <= 128
  {
  }

  lemma Powers()
    ensures T.Power10(18) > 60 && T.Power10(19) == 10 * T.Power10(18)
  {
    assert T.Power10(2) == 100;
    PowerGrows(2, 18);
  }

  lemma {:induction false} PowerGrows(i: nat, j: nat)
    requires i <= j
    ensures T.Power10(i) <= T.Power10(j)
  {
    if i < j {
      PowerGrows(i, j - 1);
    }
  }

  /** Every ticket decodes to exactly the issued claims from its issue until its expiry, and never after. */
  lemma TicketWorksUntilItExpires(mac: K.Mac, key: T.Bytes, c: Config, s: State, user: string, aid: Id, resume: bool, now: Time, nonce: Id, at: Time)
    requires ValidConfig(c) && Inv(c, s) && SeatsInTime(s.allocations, now) && 0 <= now < T.Power10(18) && now <= at
    requires ByteText(user) && (forall w | w in s.workers :: ByteText(s.workers[w].bootId))
    requires Assignment(c, s, user, aid, resume, now, nonce).Ticket?
    requires forall m :: |mac(key, m)| == 32
    ensures var k := Assignment(c, s, user, aid, resume, now, nonce).claims;
            K.VerifyAdmission(mac, key, K.Sign(mac, key, k), at) == if at < k.exp then K.Admitted(k) else K.Refused
  {
    TicketIsSound(c, s, user, aid, resume, now, nonce);
    var k := Assignment(c, s, user, aid, resume, now, nonce).claims;
    K.TicketVerdict(mac, key, k, at);
  }
}
