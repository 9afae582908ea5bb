/** The reconnection lease of a seat over the reports of its room: it starts with the first
    report that misses a connected player, is not extended by further misses, and ends with the
    player's return. */
module FleetSeats {
  import opened Basics
  import opened FleetState
  import opened FleetHeartbeat

  /** A report of who is connected. */
  datatype Sighting = Sighting(now: Time, users: seq<string>)

  ghost function SeatAfter(c: Config, x: Session, log: seq<Sighting>): Session {
    if log == [] then x
    else SeatReported(c, SeatAfter(c, x, log[..|log| - 1]), log[|log| - 1].users, log[|log| - 1].now)
  }

  predicate Present(user: string, o: Sighting) {
    user in o.users
  }

  ghost predicate EverPresent(user: string, log: seq<Sighting>) {
    exists i :: 0 <= i < |log| && Present(user, log[i])
  }

  /** Since when a player who had been connected has been missing without a break. */
  ghost function MissingSince(user: string, log: seq<Sighting>): Option<Time> {
    if log == [] || Present(user, log[|log| - 1]) then None
    else
      var n := |log| - 1;
      var before := MissingSince(user, log[..n]);
      if before.Some? then before
      else if EverPresent(user, log[..n]) then Some(log[n].now)
      else None
  }

  lemma EverPresentSnoc(user: string, log: seq<Sighting>)
    requires log != []
    ensures EverPresent(user, log) <==> EverPresent(user, log[..|log| - 1]) || Present(user, log[|log| - 1])
  {
    var n := |log| - 1;
    if i :| 0 <= i < |log| && Present(user, log[i]) {
      assert i < n ==> log[..n][i] == log[i];
    }
    if i :| 0 <= i < n && Present(user, log[..n][i]) {
      assert log[i] == log[..n][i];
    }
  }

  /** A seat that was just reserved. */
  predicate Untouched(x: Session) {
    !x.connected && !x.everConnected && x.reconnectUntil == 0
  }

  /** What a seat remembers of the reports. */
  lemma {:induction false} SeatRemembers(c: Config, x: Session, log: seq<Sighting>)
    requires ValidConfig(c) && Untouched(x) && forall i | 0 <= i < |log| :: 0 < log[i].now
    ensures var y := SeatAfter(c, x, log);
            && y.user == x.user && y.seat == x.seat && y.expiresAt == x.expiresAt
            && y.connected == (log != [] && Present(x.user, log[|log| - 1]))
            && y.everConnected == EverPresent(x.user, log)
            && y.reconnectUntil == (if MissingSince(x.user, log).Some? then MissingSince(x.user, log).value + c.reconnectSeconds else 0)
            && (MissingSince(x.user, log).Some? ==> MissingSince(x.user, log).value > 0)
            && (EverPresent(x.user, log) && !y.connected ==> MissingSince(x.user, log).Some?)
  {
    if log != [] {
      SeatRemembers(c, x, log[..|log| - 1]);
      EverPresentSnoc(x.user, log);
    }
  }

  /** The reconnection deadline has passed exactly when the player has been missing without a
      break for the reconnection time. */
  lemma DeadlinePassesExactly(c: Config, x: Session, log: seq<Sighting>, now: Time)
    requires ValidConfig(c) && Untouched(x) && forall i | 0 <= i < |log| :: 0 < log[i].now
    ensures 0 < SeatAfter(c, x, log).reconnectUntil <= now <==>
            MissingSince(x.user, log).Some? && now - MissingSince(x.user, log).value >= c.reconnectSeconds
  {
    SeatRemembers(c, x, log);
  }
}
