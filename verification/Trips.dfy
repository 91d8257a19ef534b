/** The life of a ride from request to end: what each call of customer and driver brings about, in terms of the keys alone. */
module Trips {
  import opened Wrappers
  import opened Types
  import opened Lifecycle
  import opened Steps
  import opened Invariants
  import opened Preservation
  import opened Runs
  import opened Evolution
  import opened Guarantees
  import opened Rounds
  import opened Limits

  // ----- the driver's calls -----

  /** The driver's keys once the ride is over. */
  ghost predicate IsReleased(s: State, t: State, d: DriverId) {
    var back := d in s.drivers && s.drivers[d].status != Offline && d in s.heartbeats;
    && d in t.drivers && t.drivers[d].activeRide.None? && d !in t.activeKey && d !in t.busy
    && t.drivers[d].status == (if back then Online else Offline)
    && (d in s.drivers ==> t.drivers[d].located == s.drivers[d].located)
    && (d in t.available <==> back) && (back ==> d in t.online)
    && (d in t.geo <==> back && s.drivers[d].located)
    && (forall e :: e != d ==> (e in t.drivers <==> e in s.drivers) && (e in s.drivers ==> t.drivers[e] == s.drivers[e]))
  }

  /** The ride's customer is free again, and no index or reservation mentions the ride. */
  ghost predicate IsForgotten(s: State, t: State, r: RideId)
    requires r in s.rides
  {
    && r !in t.activeRides && s.rides[r].customer !in t.customerRide
    && (forall o :: o in t.pending && o.ride == r ==> r in s.inflight)
    && (forall d :: d in t.reservations && t.reservations[d].ride == r ==> r in s.inflight)
  }

  lemma MovesOn(s: State, r: RideId, next: RideStatus)
    requires r in s.rides && (next == Arriving || next == Ongoing || Terminal(next)) && s.rides[r].status != next
    requires next in RideTransitions(s.rides[r].status)
    ensures Transition(s, r, next).rides == s.rides[r := s.rides[r].(status := next, version := s.rides[r].version + 1,
              cancellation := if next == Cancelled then Some(ByActor) else s.rides[r].cancellation)]
  {
    TransitionHash(s, r, next);
  }

  lemma EndReleases(s: State, r: RideId, next: RideStatus)
    requires Inv(s) && r in s.rides && Terminal(next) && s.rides[r].status != next && next in RideTransitions(s.rides[r].status)
    ensures var t := Transition(s, r, next);
            IsForgotten(s, t, r) && (s.rides[r].driver.Some? ==> IsReleased(s, t, s.rides[r].driver.value))
  {
    TransitionKeeps(s, r, next);
    MovesOn(s, r, next);
    EndForgets(s, Transition(s, r, next), r);
    var u := ClearTerminal(Moved(s, r, next), r);
    assert u.drivers == s.drivers && u.heartbeats == s.heartbeats && u.activeKey == s.activeKey;
    assert u.available == s.available && u.geo == s.geo && u.online == s.online;
    if s.rides[r].driver.Some? {
      ReleaseIsReleased(s, u, r, s.rides[r].driver.value);
    }
  }

  lemma EndForgets(s: State, t: State, r: RideId)
    requires Inv(t) && r in s.rides && r in t.rides && Terminal(t.rides[r].status) && t.rides[r].customer == s.rides[r].customer
    requires Customers(s.rides, s.customerRide, s.activeRides) && !Terminal(s.rides[r].status)
    requires t.rides == s.rides[r := t.rides[r]]
    requires forall q :: q in t.inflight ==> q in s.inflight
    ensures IsForgotten(s, t, r)
  {
    forall d | d in t.reservations && t.reservations[d].ride == r ensures r in s.inflight {
      assert !Live(t.rides, t.responses, r, d, t.reservations[d].batch);
    }
  }

  lemma ReleaseIsReleased(s: State, u: State, r: RideId, d: DriverId)
    requires u.drivers == s.drivers && u.heartbeats == s.heartbeats && u.activeKey == s.activeKey
    requires u.available == s.available && u.geo == s.geo && u.online == s.online
    requires d in s.activeKey && s.activeKey[d] == r && d !in s.available && d !in s.geo
    ensures IsReleased(s, ReleaseDriver(u, d, r), d)
  {
  }

  /** The driver's keys and everybody's pools, offers and reservations are as they were. */
  ghost predicate OnlyRideWritten(s: State, t: State) {
    && t.drivers == s.drivers && t.activeKey == s.activeKey && t.heartbeats == s.heartbeats
    && t.online == s.online && t.available == s.available && t.geo == s.geo && t.busy == s.busy
    && t.pending == s.pending && t.reservations == s.reservations && t.responses == s.responses && t.notified == s.notified
    && t.customerRide == s.customerRide && t.activeRides == s.activeRides
  }

  lemma MoveWritesOnlyRide(s: State, r: RideId, next: RideStatus)
    requires CanTransition(s, r, next) && !Terminal(next)
    ensures OnlyRideWritten(s, Transition(s, r, next))
  {
  }

  /** The driver is assigned, and the ride where the call takes it on from. */
  predicate IsTimely(s: State, r: RideId, d: DriverId, next: RideStatus)
    requires next == Arriving || next == Ongoing || next == Completed
  {
    r in s.rides && s.rides[r].driver == Some(d) && s.rides[r].status == Before(next)
  }

  /** A timely call moves the ride on by one status and one version, and completion frees driver and customer; any other call does nothing. */
  ghost predicate MovesRide(s: State, t: State, r: RideId, d: DriverId, next: RideStatus)
    requires next == Arriving || next == Ongoing || next == Completed
  {
    if !IsTimely(s, r, d, next) then t == s
    else
      && t.rides == s.rides[r := s.rides[r].(status := next, version := s.rides[r].version + 1)]
      && (if next == Completed then IsReleased(s, t, d) && IsForgotten(s, t, r) else OnlyRideWritten(s, t))
  }

  /** Arriving, starting and completing take the ride from ACCEPTED to ARRIVING, to ONGOING, to COMPLETED, for the assigned driver only. */
  lemma DriverMovesRide(c: Config, s: State, r: RideId, d: DriverId)
    requires Reachable(c, s)
    ensures MovesRide(s, Apply(c, s, Arrives(r, d)), r, d, Arriving)
    ensures MovesRide(s, Apply(c, s, Starts(r, d)), r, d, Ongoing)
    ensures MovesRide(s, Apply(c, s, Completes(r, d)), r, d, Completed)
  {
    ReachableKeeps(c, s);
    ArrivalMoves(c, s, r, d);
    StartMoves(c, s, r, d);
    CompletionMoves(c, s, r, d);
  }

  lemma ArrivalMoves(c: Config, s: State, r: RideId, d: DriverId)
    requires Inv(s)
    ensures MovesRide(s, Apply(c, s, Arrives(r, d)), r, d, Arriving)
  {
    DriverCall(s, r, d, Arriving);
  }

  lemma StartMoves(c: Config, s: State, r: RideId, d: DriverId)
    requires Inv(s)
    ensures MovesRide(s, Apply(c, s, Starts(r, d)), r, d, Ongoing)
  {
    DriverCall(s, r, d, Ongoing);
  }

  lemma CompletionMoves(c: Config, s: State, r: RideId, d: DriverId)
    requires Inv(s)
    ensures MovesRide(s, Apply(c, s, Completes(r, d)), r, d, Completed)
  {
    DriverCall(s, r, d, Completed);
  }

  lemma DriverCall(s: State, r: RideId, d: DriverId, next: RideStatus)
    requires Inv(s) && (next == Arriving || next == Ongoing || next == Completed)
    ensures MovesRide(s, DriverTransition(s, r, d, next), r, d, next)
  {
    if IsTimely(s, r, d, next) {
      TimelyCall(s, r, d, next);
    } else {
      UntimelyCall(s, r, d, next);
    }
  }

  lemma TimelyCall(s: State, r: RideId, d: DriverId, next: RideStatus)
    requires Inv(s) && r in s.rides && s.rides[r].driver == Some(d) && (next == Arriving || next == Ongoing || next == Completed)
    requires s.rides[r].status == Before(next)
    ensures var t := DriverTransition(s, r, d, next);
            && t.rides == s.rides[r := s.rides[r].(status := next, version := s.rides[r].version + 1)]
            && (if next == Completed then IsReleased(s, t, d) && IsForgotten(s, t, r) else OnlyRideWritten(s, t))
  {
    MovesOn(s, r, next);
    if next == Completed {
      EndReleases(s, r, next);
    } else {
      MoveWritesOnlyRide(s, r, next);
    }
  }

  lemma UntimelyCall(s: State, r: RideId, d: DriverId, next: RideStatus)
    requires next == Arriving || next == Ongoing || next == Completed
    requires r in s.rides && s.rides[r].driver == Some(d) ==> s.rides[r].status != Before(next)
    ensures DriverTransition(s, r, d, next) == s
  {
  }

  /** Cancelling: any ride that is not over ends CANCELLED by an actor, one version on, and its driver and customer are free. */
  lemma CancelEndsRide(c: Config, s: State, r: RideId)
    requires Reachable(c, s)
    ensures var t := Apply(c, s, Cancels(r));
            if r !in s.rides || Terminal(s.rides[r].status) then t == s
            else
              && t.rides == s.rides[r := s.rides[r].(status := Cancelled, version := s.rides[r].version + 1, cancellation := Some(ByActor))]
              && IsForgotten(s, t, r) && (s.rides[r].driver.Some? ==> IsReleased(s, t, s.rides[r].driver.value))
  {
    ReachableKeeps(c, s);
    if r in s.rides && !Terminal(s.rides[r].status) {
      MovesOn(s, r, Cancelled);
      EndReleases(s, r, Cancelled);
    }
  }

  /** A run in which ride 0 is requested, offered, accepted, driven and COMPLETED, and driver 0 is free again. */
  lemma CompletedRun(c: Config) returns (ss: seq<State>, steps: seq<Step>)
    requires c.batchSize > 0
    ensures IsRun(c, ss, steps) && |steps| == 8
    ensures 0 in ss[8].rides && ss[8].rides[0].status == Completed && ss[8].rides[0].driver == Some(0)
    ensures 0 in ss[8].drivers && ss[8].drivers[0] == Driver(Online, None, true) && 0 in ss[8].available && 0 in ss[8].geo
  {
    ss, steps := AcceptedRun(c);
    CallsMove(c, ss, steps);
    ss, steps := RunOn(c, ss, steps, Arrives(0, 0));
    CallsMove(c, ss, steps);
    ss, steps := RunOn(c, ss, steps, Starts(0, 0));
    CallsMove(c, ss, steps);
    ss, steps := RunOn(c, ss, steps, Completes(0, 0));
  }

  lemma CallsMove(c: Config, ss: seq<State>, steps: seq<Step>)
    requires IsRun(c, ss, steps)
    ensures var s := ss[|steps|];
            && MovesRide(s, Apply(c, s, Arrives(0, 0)), 0, 0, Arriving)
            && MovesRide(s, Apply(c, s, Starts(0, 0)), 0, 0, Ongoing)
            && MovesRide(s, Apply(c, s, Completes(0, 0)), 0, 0, Completed)
  {
    assert IsRun(c, ss, steps) && ss[|steps|] == ss[|steps|];
    DriverMovesRide(c, ss[|steps|], 0, 0);
  }

  lemma AcceptedRun(c: Config) returns (ss: seq<State>, steps: seq<Step>)
    requires c.batchSize > 0
    ensures IsRun(c, ss, steps) && |steps| == 5
    ensures var s := ss[5];
            && 0 in s.rides && s.rides[0].status == Accepted && s.rides[0].driver == Some(0)
            && 0 in s.drivers && s.drivers[0] == Driver(Busy, Some(0), true) && 0 in s.heartbeats
  {
    ss, steps := FirstOffer(c);
    AcceptBinds(ss[4]);
    AcceptKeepsHeartbeat(ss[4]);
    ss, steps := RunOn(c, ss, steps, Accepts(0, 0));
  }

  lemma AcceptKeepsHeartbeat(s: State)
    requires OfferMade(s) && AcceptCode(s, 0, 0, s.now, TokenOf(0, s.rides[0].batch)) == 0
    ensures var t := Accept(s, 0, 0);
            && t.heartbeats == s.heartbeats && 0 in t.drivers && t.drivers[0] == Driver(Busy, Some(0), true)
            && 0 in t.rides && t.rides[0].status == Accepted && t.rides[0].driver == Some(0)
  {
  }

  // ----- the customer's request -----

  /** The customer has a ride that is not over. */
  ghost predicate HasOpenRide(s: State, customer: CustomerId) {
    exists r :: r in s.rides && s.rides[r].customer == customer && !Terminal(s.rides[r].status)
  }

  /**
   * A request is granted exactly when its customer has no open ride. It then creates, under an id nobody had, a REQUESTED ride
   * of that customer in round 0 with the initial radius, and nothing but the customer's key and the active set changes besides.
   */
  lemma RequestCreatesRide(c: Config, s: State, customer: CustomerId)
    requires Reachable(c, s)
    ensures var t, r := Apply(c, s, Requests(customer)), s.nextRide;
            && r !in s.rides
            && if HasOpenRide(s, customer) then t == s
               else
                 && t.rides == s.rides[r := Ride(customer, None, Requested, 0, c.initialRadius, None, None, 1)]
                 && t.customerRide == s.customerRide[customer := r] && t.activeRides == s.activeRides + {r}
                 && t == s.(rides := t.rides, customerRide := t.customerRide, activeRides := t.activeRides, nextRide := t.nextRide)
  {
    ReachableKeeps(c, s);
    if r :| r in s.rides && s.rides[r].customer == customer && !Terminal(s.rides[r].status) {
      assert r in s.activeRides;
    }
    assert HasActiveRide(s, customer) ==> s.customerRide[customer] in s.rides && s.rides[s.customerRide[customer]].customer == customer;
  }
}
