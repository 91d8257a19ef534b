/** What the presence calls of a driver bring about, in terms of the keys alone. */
module Presence {
  import opened Wrappers
  import opened Types
  import opened Lifecycle
  import opened Steps
  import opened Invariants
  import opened Runs

  /** The ride the driver is on, whichever key one asks. */
  ghost predicate IsOn(s: State, d: DriverId, ride: Option<RideId>) {
    forall r: RideId :: Driving(s.rides, r, d) <==> ride == Some(r)
  }

  /** Nothing but the driver's own keys has changed. */
  ghost predicate OnlyDriverWritten(s: State, t: State, d: DriverId) {
    && t.rides == s.rides && t.responses == s.responses && t.notified == s.notified && t.pending == s.pending && t.log == s.log
    && t.cooldowns == s.cooldowns && t.customerRide == s.customerRide && t.activeRides == s.activeRides && t.inflight == s.inflight
    && (forall e :: e != d ==>
          && (e in t.drivers <==> e in s.drivers) && (e in s.drivers ==> t.drivers[e] == s.drivers[e])
          && (e in t.activeKey <==> e in s.activeKey) && (e in s.activeKey ==> t.activeKey[e] == s.activeKey[e])
          && (e in t.reservations <==> e in s.reservations) && (e in s.reservations ==> t.reservations[e] == s.reservations[e])
          && (e in t.online <==> e in s.online) && (e in t.available <==> e in s.available) && (e in t.geo <==> e in s.geo)
          && (e in t.busy <==> e in s.busy) && (e in t.heartbeats <==> e in s.heartbeats))
  }

  /** The driver is present, on `ride` or free, with these coordinates: hash, key, heartbeat and pools say so. */
  ghost predicate IsPresent(s: State, t: State, d: DriverId, ride: Option<RideId>, located: bool) {
    && d in t.drivers && t.drivers[d] == Driver(if ride.Some? then Busy else Online, ride, located)
    && (if ride.Some? then d in t.activeKey && t.activeKey[d] == ride.value else d !in t.activeKey)
    && d in t.heartbeats && d in t.online
    && (d in t.available <==> ride.None?) && (d in t.busy <==> ride.Some?)
    && (d in t.geo <==> ride.None? && (located || d in s.geo))
    && (d in t.reservations <==> d in s.reservations) && (d in s.reservations ==> t.reservations[d] == s.reservations[d])
  }

  lemma PersistPresents(s: State, d: DriverId, ride: Option<RideId>, located: bool)
    ensures var t := Persist(s, d, Driver(if ride.Some? then Busy else Online, ride, located));
            IsPresent(s, t, d, ride, located) && OnlyDriverWritten(s, t, d)
  {
  }

  lemma OnAsHashSays(s: State, d: DriverId)
    requires Inv(s)
    ensures IsOn(s, d, ActiveRideOf(s, d))
    ensures d in s.drivers ==> IsOn(s, d, s.drivers[d].activeRide)
    ensures d in s.drivers && s.drivers[d].status != Offline ==> (s.drivers[d].status == Busy <==> s.drivers[d].activeRide.Some?)
  {
    if d in s.activeKey {
      assert Driving(s.rides, s.activeKey[d], d);
    }
  }

  /** Coming online: whoever is on a ride is BUSY with it again, whoever is not is ONLINE and can be found. */
  lemma OnlineCall(c: Config, s: State, d: DriverId, located: bool) returns (ride: Option<RideId>)
    requires Reachable(c, s)
    ensures var t := Apply(c, s, ComesOnline(d, located));
            IsOn(s, d, ride) && IsPresent(s, t, d, ride, located) && OnlyDriverWritten(s, t, d)
  {
    ReachableKeeps(c, s);
    OnAsHashSays(s, d);
    ride := ActiveRideOf(s, d);
    OnlinePresents(s, d, located, ride);
  }

  lemma OnlinePresents(s: State, d: DriverId, located: bool, ride: Option<RideId>)
    requires ride == ActiveRideOf(s, d)
    ensures var t := GoOnline(s, d, located); IsPresent(s, t, d, ride, located) && OnlyDriverWritten(s, t, d)
  {
    PersistPresents(s, d, ride, located);
  }

  /** A refresh of the driver's presence, if it is not OFFLINE: it stays on its ride or free. Of anybody else, nothing. */
  ghost predicate Refreshes(s: State, t: State, d: DriverId, ride: Option<RideId>, located: bool) {
    if d !in s.drivers || s.drivers[d].status == Offline then t == s
    else IsOn(s, d, ride) && IsPresent(s, t, d, ride, located) && OnlyDriverWritten(s, t, d)
  }

  /** A heartbeat refreshes the driver's presence, with the coordinates it brings. */
  lemma BeatCall(c: Config, s: State, d: DriverId, located: bool) returns (ride: Option<RideId>)
    requires Reachable(c, s)
    ensures Refreshes(s, Apply(c, s, Beats(d, located)), d, ride, located)
  {
    ReachableKeeps(c, s);
    ride := BeatRefreshes(s, d, located);
  }

  /** A reconnection refreshes the driver's presence too. */
  lemma ReconnectCall(c: Config, s: State, d: DriverId) returns (ride: Option<RideId>)
    requires Reachable(c, s)
    ensures Refreshes(s, Apply(c, s, Reconnects(d)), d, ride, true)
  {
    ReachableKeeps(c, s);
    ride := BeatRefreshes(s, d, true);
  }

  lemma BeatRefreshes(s: State, d: DriverId, located: bool) returns (ride: Option<RideId>)
    requires Inv(s)
    ensures Refreshes(s, Heartbeat(s, d, located), d, ride, located)
    ensures located ==> Refreshes(s, RestoreSession(s, d), d, ride, located)
  {
    OnAsHashSays(s, d);
    ride := if d in s.drivers then s.drivers[d].activeRide else None;
    if d in s.drivers && s.drivers[d].status != Offline {
      PersistPresents(s, d, ride, located);
      assert s.drivers[d].(located := located) == Driver(if ride.Some? then Busy else Online, ride, located);
    }
  }

  /**
   * Going offline: out of every pool, without heartbeat and reservation, and still on the ride the driver was on. The
   * coordinates of a driver on record count as present from then on.
   */
  lemma OfflineCall(c: Config, s: State, d: DriverId) returns (ride: Option<RideId>)
    requires Reachable(c, s)
    ensures var t := Apply(c, s, Leaves(d));
            && IsOn(s, d, ride) && OnlyDriverWritten(s, t, d) && t.activeKey == s.activeKey
            && d in t.drivers && t.drivers[d] == Driver(Offline, ride, d in s.drivers)
            && d !in t.online && d !in t.available && d !in t.busy && d !in t.geo && d !in t.heartbeats && d !in t.reservations
  {
    ReachableKeeps(c, s);
    OnAsHashSays(s, d);
    ride := ActiveRideOf(s, d);
    OfflineWritesOnlyDriver(s, d);
  }

  lemma OfflineWritesOnlyDriver(s: State, d: DriverId)
    ensures OnlyDriverWritten(s, GoOffline(s, d), d)
  {
  }
}
