/** What the guarantees do not cover: concrete schedules on which a stronger statement fails. */
module Limits {
  import opened Wrappers
  import opened Types
  import opened Steps
  import opened Invariants
  import opened Preservation
  import opened Runs
  import opened Evolution
  import opened Guarantees
  import opened Publishing
  import opened Sweep

  lemma RunOn(c: Config, ss: seq<State>, steps: seq<Step>, step: Step) returns (longer: seq<State>, more: seq<Step>)
    requires IsRun(c, ss, steps) && Enabled(ss[|steps|], step)
    ensures IsRun(c, longer, more) && longer == ss + [Apply(c, ss[|steps|], step)] && more == steps + [step]
  {
    longer, more := ss + [Apply(c, ss[|steps|], step)], steps + [step];
    forall i | 0 <= i < |more| ensures Enabled(longer[i], more[i]) && longer[i + 1] == Apply(c, longer[i], more[i]) {
      if i < |steps| {
        assert longer[i] == ss[i] && longer[i + 1] == ss[i + 1] && more[i] == steps[i];
      }
    }
  }

  lemma FilterOne(p: DriverId -> bool, d: DriverId)
    ensures Filter(p, [d]) == if p(d) then [d] else []
  {
    assert [d][1..] == [];
  }

  // ----- one driver, two rides, and an offer of the first -----

  /** Two rides are requested and driver 0 comes online. */
  function Opened(c: Config): State {
    GoOnline(RequestRide(c, RequestRide(c, EmptyState(0), 0), 1), 0, true)
  }

  /** Driver 0 has been offered ride 0 and has not answered; ride 1 has not been dispatched. */
  ghost predicate OfferMade(s: State) {
    && 0 in s.rides && s.rides[0].status == Dispatching && s.rides[0].driver.None? && s.rides[0].batch.Some?
    && s.rides[0].batch.value.drivers == [0] && s.rides[0].batch.value.expiresAt >= s.now
    && 1 in s.rides && s.rides[1].status == Requested && s.rides[1].driver.None? && s.rides[1].batch.None?
    && Offer(0, 0) in s.notified && Offer(0, 0) in s.pending && IsPending(s.responses, Offer(0, 0), s.rides[0].batch.value.id)
    && 0 in s.reservations && s.reservations[0] == Token(0, s.rides[0].batch.value.id)
    && 0 in s.drivers && s.drivers[0] == Driver(Online, None, true) && 0 !in s.activeKey && 0 in s.geo && 0 in s.heartbeats
    && Offer(0, 1) !in s.notified && s.inflight == map[]
  }

  lemma SearchOffers(c: Config, s: State, r: RideId, round: nat, radius: real, d: DriverId)
    requires r in s.rides && Reservable(s, d) && Offer(d, r) !in s.notified && c.batchSize > 0
    ensures Search(c, s, r, round, radius, [d]) == SendBatch(c, s, r, [d])
  {
    FilterOne((e: DriverId) => Offer(e, r) !in s.notified || round > 1, d);
    FilterOne((e: DriverId) => Reservable(s, e), d);
    assert Eligible(s, r, round, [d]) == [d] && Pick(s, [d], c.batchSize) == [d];
    assert GhostsScanned(s, [d], c.batchSize) == {};
    assert RemoveGhosts(s, {}) == s;
  }

  lemma FirstDispatch(c: Config)
    requires c.batchSize > 0
    ensures var s := Opened(c); Dispatch(c, s, 0, [0]) == SendBatch(c, StartIfRequested(c, s, 0), 0, [0])
  {
    var s := Opened(c);
    SearchOffers(c, StartIfRequested(c, s, 0), 0, 0, EntryRadius(c, s.rides[0]), 0);
  }

  lemma FirstOffer(c: Config) returns (ss: seq<State>, steps: seq<Step>)
    requires c.batchSize > 0
    ensures IsRun(c, ss, steps) && |steps| == 4 && OfferMade(ss[4])
  {
    ss, steps := OpeningRun(c);
    FirstDispatch(c);
    OfferFacts(c);
    ss, steps := RunOn(c, ss, steps, Dispatches(0, [0]));
  }

  lemma OpeningRun(c: Config) returns (ss: seq<State>, steps: seq<Step>)
    ensures IsRun(c, ss, steps) && |steps| == 3 && ss[3] == Opened(c)
  {
    ss, steps := [EmptyState(0)], [];
    ss, steps := RunOn(c, ss, steps, Requests(0));
    ss, steps := RunOn(c, ss, steps, Requests(1));
    ss, steps := RunOn(c, ss, steps, ComesOnline(0, true));
  }

  lemma OfferFacts(c: Config)
    requires c.batchSize > 0
    ensures var s := Opened(c); OfferMade(SendBatch(c, StartIfRequested(c, s, 0), 0, [0])) && Candidates(s, [0])
  {
  }

  // ----- a driver the sweep passes over -----

  /** A dispatch that meets nobody but a driver without heartbeat takes the driver out of the pools and leaves its hash alone. */
  lemma DispatchHidesGhost(c: Config, s: State, r: RideId, d: DriverId)
    requires r in s.rides && s.rides[r].status == Requested && s.rides[r].batch.None? && s.rides[r].driver.None?
    requires d !in s.heartbeats && Offer(d, r) !in s.notified && c.batchSize > 0
    ensures var t := Dispatch(c, s, r, [d]); t.drivers == s.drivers && d !in t.online && d !in t.heartbeats
  {
    var u := StartIfRequested(c, s, r);
    SearchHidesGhost(c, u, r, s.rides[r].round, EntryRadius(c, s.rides[r]), d);
  }

  lemma SearchHidesGhost(c: Config, s: State, r: RideId, round: nat, radius: real, d: DriverId)
    requires r in s.rides && s.rides[r].driver.None? && d !in s.heartbeats && Offer(d, r) !in s.notified && c.batchSize > 0
    ensures var t := Search(c, s, r, round, radius, [d]); t.drivers == s.drivers && d !in t.online && d !in t.heartbeats
  {
    FilterOne((e: DriverId) => Offer(e, r) !in s.notified || round > 1, d);
    FilterOne((e: DriverId) => Reservable(s, e), d);
    assert Eligible(s, r, round, [d]) == [d] && Pick(s, [d], c.batchSize) == [];
    assert Scanned(s, [d], c.batchSize) == 1;
    assert d in [d][..1];
  }

  /**
   * A run after which driver 0 is ONLINE by its hash, without heartbeat and in no pool, with an offer it has not answered: no
   * sweep will take it offline or clear the offer.
   */
  lemma GhostKeepsStatusAndOffer(c: Config) returns (ss: seq<State>, steps: seq<Step>)
    requires c.batchSize > 0
    ensures IsRun(c, ss, steps) && |steps| == 6
    ensures var s := ss[6];
            && 0 in s.drivers && s.drivers[0].status == Online && 0 !in s.heartbeats && 0 !in s.online && Offer(0, 0) in s.pending
            && forall drops :: CoversStale(s, drops) && CandidatesAtEach(c, AllOffline(s, StaleDrivers(s)), drops) ==>
                 var t := SweepWith(c, s, drops); 0 in t.drivers && t.drivers[0].status == Online && Offer(0, 0) in t.pending
  {
    ss, steps := FirstOffer(c);
    ss, steps := RunOn(c, ss, steps, HeartbeatExpires(0));
    var quiet := ss[5];
    ss, steps := RunOn(c, ss, steps, Dispatches(1, [0]));
    var s := ss[6];
    RunKeeps(c, ss, steps, 5);
    DispatchHidesGhost(c, quiet, 1, 0);
    DispatchLeavesOffer(c, quiet, 1, [0], Offer(0, 0));
    DispatchFlight(c, quiet, 1, [0]);
    forall drops | CoversStale(s, drops) && CandidatesAtEach(c, AllOffline(s, StaleDrivers(s)), drops)
      ensures var t := SweepWith(c, s, drops); 0 in t.drivers && t.drivers[0].status == Online && Offer(0, 0) in t.pending
    {
      assert IsRun(c, ss, steps) && ss[|steps|] == s;
      SweepSkipsGhosts(c, s, 0, drops);
      OfferOutlivesSweep(c, s, Offer(0, 0), drops);
    }
  }

  // ----- an acceptance nobody hears of -----

  lemma InterruptedRun(c: Config) returns (ss: seq<State>, steps: seq<Step>)
    requires c.batchSize > 0
    ensures IsRun(c, ss, steps) && |steps| == 6 && steps[4].ScriptRuns? && Wins(ss[4], steps[4], 0)
    ensures 0 in ss[5].rides && ss[5].rides[0].status == Accepted
    ensures 0 in ss[6].rides && ss[6].rides[0].version != ss[5].rides[0].version && !steps[5].AcceptReads?
  {
    ss, steps := FirstOffer(c);
    var s := ss[4];
    ss, steps := RunOn(c, ss, steps, ScriptRuns(0, 0, s.rides[0].batch, s.now));
    WinnerIsRecorded(c, s, steps[4], 0);
    TransitionHash(ss[5], 0, Cancelled);
    ss, steps := RunOn(c, ss, steps, Cancels(0));
  }

  /** Ride 0 is accepted in two halves and cancelled in between: nothing published carries the version of the acceptance. */
  lemma InterruptedAcceptanceUnpublished(c: Config) returns (ss: seq<State>, steps: seq<Step>)
    requires c.batchSize > 0
    ensures IsRun(c, ss, steps) && |steps| == 8 && steps[4].ScriptRuns? && Wins(ss[4], steps[4], 0)
    ensures 0 in ss[5].rides && ss[5].rides[0].status == Accepted
    ensures forall e :: e in Published(ss[8].log) ==> KeyOf(e) != StatusKey(0, ss[5].rides[0].version)
  {
    ss, steps := InterruptedRun(c);
    ss, steps := RunOn(c, ss, steps, AcceptReads(0));
    ss, steps := RunOn(c, ss, steps, AcceptFinishes(0));
    AcceptancePublishedIff(c, ss, steps, 4, 6, 7, 0);
  }

  // ----- a heartbeat that is not atomic -----

  /**
   * A heartbeat that reads the driver hash at one time and writes it back later keeps the invariant exactly when the ride it
   * read is the one the driver has when it writes.
   */
  lemma LateHeartbeatKeepsIff(s: State, t: State, d: DriverId, located: bool)
    requires Inv(s) && Inv(t) && d in s.drivers && s.drivers[d].status != Offline
    ensures Inv(Persist(t, d, s.drivers[d].(located := located))) <==> s.drivers[d].activeRide == ActiveRideOf(t, d)
  {
    var x := s.drivers[d].(located := located);
    if x.activeRide == ActiveRideOf(t, d) {
      PersistKeeps(t, d, x);
    } else if Inv(Persist(t, d, x)) {
      LateHeartbeatTearsApart(t, d, x);
    }
  }

  lemma LateHeartbeatTearsApart(t: State, d: DriverId, x: Driver)
    requires Inv(t) && x.activeRide != ActiveRideOf(t, d)
    ensures !Bound(Persist(t, d, x).rides, Persist(t, d, x).drivers, Persist(t, d, x).activeKey)
  {
    OneRideKey(t.rides, t.drivers, t.activeKey, d, x, if x.activeRide.Some? then t.activeKey[d := x.activeRide.value] else t.activeKey - {d});
  }

  lemma OneRideKey(rides: map<RideId, Ride>, drivers: map<DriverId, Driver>, activeKey: map<DriverId, RideId>, d: DriverId, x: Driver,
                   written: map<DriverId, RideId>)
    requires Bound(rides, drivers, activeKey)
    requires x.activeRide != if d in activeKey then Some(activeKey[d]) else if d in drivers then drivers[d].activeRide else None
    requires written == if x.activeRide.Some? then activeKey[d := x.activeRide.value] else activeKey - {d}
    ensures !Bound(rides, drivers[d := x], written)
  {
    if d in activeKey {
      var r := activeKey[d];
      assert Driving(rides, r, d);
      assert !(d in written && written[d] == r);
    } else {
      assert d in written && !Driving(rides, written[d], d);
    }
  }

  /** A heartbeat of driver 0 that reads before the driver accepts ride 0 and writes afterwards unbinds the driver from the ride. */
  lemma StaleHeartbeatUnbinds(c: Config, located: bool) returns (ss: seq<State>, steps: seq<Step>)
    requires c.batchSize > 0
    ensures IsRun(c, ss, steps) && |steps| == 5 && steps[4] == Accepts(0, 0) && Wins(ss[4], steps[4], 0)
    ensures 0 in ss[4].drivers && ss[4].drivers[0].status == Online
    ensures var t := Persist(ss[5], 0, ss[4].drivers[0].(located := located));
            Driving(t.rides, 0, 0) && t.drivers[0].status == Online && 0 !in t.activeKey && !Inv(t)
  {
    ss, steps := FirstOffer(c);
    var s := ss[4];
    ss, steps := RunOn(c, ss, steps, Accepts(0, 0));
    AcceptBinds(s);
    RunKeeps(c, ss, steps, 4);
    RunKeeps(c, ss, steps, 5);
    LateHeartbeatKeepsIff(s, ss[5], 0, located);
  }

  // ----- presence calls that are not atomic -----

  /** `goOffline` with the driver's ride read in state `s` and the writes made in state `t`. */
  function LateOffline(s: State, t: State, d: DriverId): State {
    GoOffline(t, d).(drivers := t.drivers[d := Driver(Offline, ActiveRideOf(s, d), d in s.drivers)])
  }

  /** `goOnline` likewise. */
  function LateOnline(s: State, t: State, d: DriverId, located: bool): State {
    var active := ActiveRideOf(s, d);
    Persist(t, d, Driver(if active.Some? then Busy else Online, active, located))
  }

  /** They too keep the invariant exactly when the ride they read is the one the driver has when they write. */
  lemma LatePresenceKeepsIff(s: State, t: State, d: DriverId, located: bool)
    requires Inv(s) && Inv(t)
    ensures Inv(LateOffline(s, t, d)) <==> ActiveRideOf(s, d) == ActiveRideOf(t, d)
    ensures Inv(LateOnline(s, t, d, located)) <==> ActiveRideOf(s, d) == ActiveRideOf(t, d)
  {
    LateOfflineKeepsIff(s, t, d);
    LateOnlineKeepsIff(s, t, d, located);
  }

  lemma LateOfflineKeepsIff(s: State, t: State, d: DriverId)
    requires Inv(t)
    ensures Inv(LateOffline(s, t, d)) <==> ActiveRideOf(s, d) == ActiveRideOf(t, d)
  {
    if ActiveRideOf(s, d) == ActiveRideOf(t, d) {
      OfflineKeeps(t, d);
      LateOfflineIsOffline(s, t, d);
      BlankDoesNotMatter(GoOffline(t, d), d, d in s.drivers);
    } else {
      OfflineHashTornApart(t.rides, t.drivers, t.activeKey, d, Driver(Offline, ActiveRideOf(s, d), d in s.drivers));
    }
  }

  lemma LateOfflineIsOffline(s: State, t: State, d: DriverId)
    requires ActiveRideOf(s, d) == ActiveRideOf(t, d)
    ensures LateOffline(s, t, d) == WithBlank(GoOffline(t, d), d, d in s.drivers)
  {
    var x := Driver(Offline, ActiveRideOf(s, d), d in s.drivers);
    assert GoOffline(t, d).drivers[d].(located := d in s.drivers) == x;
    assert GoOffline(t, d).drivers[d := x] == t.drivers[d := x];
  }

  /** The same state, but for whether the driver's coordinates are blank. */
  function WithBlank(s: State, d: DriverId, located: bool): State
    requires d in s.drivers
  {
    s.(drivers := s.drivers[d := s.drivers[d].(located := located)])
  }

  lemma BlankDoesNotMatter(s: State, d: DriverId, located: bool)
    requires Inv(s) && d in s.drivers
    ensures Inv(WithBlank(s, d, located))
  {
    var drivers := WithBlank(s, d, located).drivers;
    assert forall e :: e in drivers <==> e in s.drivers;
    assert forall e :: e in drivers ==> drivers[e].status == s.drivers[e].status && drivers[e].activeRide == s.drivers[e].activeRide;
    SameBinding(s, drivers);
  }

  lemma SameBinding(s: State, drivers: map<DriverId, Driver>)
    requires forall e :: e in drivers <==> e in s.drivers
    requires forall e :: e in drivers ==> drivers[e].status == s.drivers[e].status && drivers[e].activeRide == s.drivers[e].activeRide
    ensures Shape(s.rides, s.responses, s.notified, s.drivers, s.nextRide, s.nextBatch) ==>
              Shape(s.rides, s.responses, s.notified, drivers, s.nextRide, s.nextBatch)
    ensures Bound(s.rides, s.drivers, s.activeKey) ==> Bound(s.rides, drivers, s.activeKey)
    ensures Pools(s.drivers, s.heartbeats, s.online, s.available, s.geo, s.busy) ==>
              Pools(drivers, s.heartbeats, s.online, s.available, s.geo, s.busy)
  {
  }

  lemma OfflineHashTornApart(rides: map<RideId, Ride>, drivers: map<DriverId, Driver>, activeKey: map<DriverId, RideId>, d: DriverId, x: Driver)
    requires Bound(rides, drivers, activeKey)
    requires x.activeRide != if d in activeKey then Some(activeKey[d]) else if d in drivers then drivers[d].activeRide else None
    ensures !Bound(rides, drivers[d := x], activeKey)
  {
    assert drivers[d := x][d] == x;
    if d !in activeKey {
      assert d in drivers ==> drivers[d].activeRide.None?;
    }
  }

  lemma LateOnlineKeepsIff(s: State, t: State, d: DriverId, located: bool)
    requires Inv(t)
    ensures Inv(LateOnline(s, t, d, located)) <==> ActiveRideOf(s, d) == ActiveRideOf(t, d)
  {
    var active := ActiveRideOf(s, d);
    var x := Driver(if active.Some? then Busy else Online, active, located);
    if active == ActiveRideOf(t, d) {
      PersistKeeps(t, d, x);
    } else {
      LateHeartbeatTearsApart(t, d, x);
    }
  }

  /** A run in which driver 0 goes offline, having read its ride before it accepts ride 0: its hash names no ride, the ride names it. */
  lemma StaleOfflineUnbinds(c: Config) returns (ss: seq<State>, steps: seq<Step>)
    requires c.batchSize > 0
    ensures IsRun(c, ss, steps) && |steps| == 5 && steps[4] == Accepts(0, 0) && Wins(ss[4], steps[4], 0)
    ensures var t := LateOffline(ss[4], ss[5], 0);
            Driving(t.rides, 0, 0) && t.drivers[0].activeRide.None? && !Inv(t)
  {
    ss, steps := FirstOffer(c);
    ss, steps := RunOn(c, ss, steps, Accepts(0, 0));
    AcceptBinds(ss[4]);
    RunKeeps(c, ss, steps, 5);
    LateOfflineKeepsIff(ss[4], ss[5], 0);
  }

  lemma AcceptBinds(s: State)
    requires OfferMade(s)
    ensures AcceptCode(s, 0, 0, s.now, TokenOf(0, s.rides[0].batch)) == 0
    ensures var t := Accept(s, 0, 0); Driving(t.rides, 0, 0) && 0 in t.activeKey && t.activeKey[0] == 0
  {
  }
}
