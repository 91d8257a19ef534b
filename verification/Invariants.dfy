/** The facts that hold of the Redis keys in every reachable state. */
module Invariants {
  import opened Wrappers
  import opened Types
  import opened Lifecycle
  import opened Steps

  predicate RideShape(ride: Ride, nextBatch: nat) {
    && 1 <= ride.version
    && (ride.status == Requested ==> ride.round == 0)
    && (ride.status == Requested || ride.status == Dispatching ==> ride.driver.None?)
    && (Lifecycle.Assigned(ride.status) || ride.status == Completed ==> ride.driver.Some?)
    && (ride.batch.Some? ==> ride.batch.value.id < nextBatch)
    && (ride.batch.Some? ==> ride.status == Dispatching || ride.status == Cancelled)
  }

  /** Every record is well formed, and nothing mentions an identifier that has not been drawn yet. */
  ghost predicate Shape(rides: map<RideId, Ride>, responses: map<Offer, Response>, notified: set<Offer>, drivers: map<DriverId, Driver>,
                        nextRide: nat, nextBatch: nat)
  {
    && (forall r :: r in rides ==> r < nextRide && RideShape(rides[r], nextBatch))
    && (forall o :: o in responses ==>
          o.ride in rides && (responses[o].Pending? ==> responses[o].batch < nextBatch))
    && (forall o :: o in notified ==> o.ride in rides && o.driver in drivers)
  }

  predicate Driving(rides: map<RideId, Ride>, r: RideId, d: DriverId) {
    r in rides && Lifecycle.Assigned(rides[r].status) && rides[r].driver == Some(d)
  }

  /** Ride hash, driver hash and `activeRide` key name each other; only a free driver is ONLINE, only a bound one BUSY. */
  ghost predicate Bound(rides: map<RideId, Ride>, drivers: map<DriverId, Driver>, activeKey: map<DriverId, RideId>) {
    && (forall r :: r in rides && Lifecycle.Assigned(rides[r].status) ==>
          && rides[r].driver.Some?
          && rides[r].driver.value in activeKey && activeKey[rides[r].driver.value] == r)
    && (forall d :: d in activeKey ==>
          && Driving(rides, activeKey[d], d)
          && d in drivers && drivers[d].activeRide == Some(activeKey[d]))
    && (forall d :: d in drivers ==>
          && (drivers[d].activeRide.Some? ==> d in activeKey && activeKey[d] == drivers[d].activeRide.value)
          && (drivers[d].status == Online ==> drivers[d].activeRide.None?)
          && (drivers[d].status == Busy ==> drivers[d].activeRide.Some?))
  }

  /** Driver `e` still has to answer batch `b` of ride `r`, and `b` is the ride's current batch. */
  predicate Live(rides: map<RideId, Ride>, responses: map<Offer, Response>, r: RideId, e: DriverId, b: BatchId) {
    && r in rides && rides[r].status == Dispatching
    && rides[r].batch.Some? && rides[r].batch.value.id == b
    && e in rides[r].batch.value.drivers
    && IsPending(responses, Offer(e, r), b)
  }

  /** A committed accept call of ride `r` still has to release driver `e`. */
  predicate IsOwed(inflight: map<RideId, Owed>, r: RideId, e: DriverId) {
    r in inflight && e in inflight[r].losers
  }

  /** No orphan reservations. */
  ghost predicate Tokens(rides: map<RideId, Ride>, responses: map<Offer, Response>, reservations: map<DriverId, Token>,
                         inflight: map<RideId, Owed>, online: set<DriverId>)
  {
    forall d :: d in reservations ==>
      var t := reservations[d];
      && d in online
      && (Live(rides, responses, t.ride, d, t.batch) || (IsOwed(inflight, t.ride, d) && inflight[t.ride].batch == t.batch))
  }

  /** Offers of the current batch: contacted drivers only, and at least one of them still has to answer. */
  ghost predicate Offered(rides: map<RideId, Ride>, responses: map<Offer, Response>, notified: set<Offer>) {
    forall r :: r in rides && rides[r].status == Dispatching && rides[r].batch.Some? ==>
      var b := rides[r].batch.value;
      && Distinct(b.drivers)
      && (forall d :: d in b.drivers ==> Offer(d, r) in notified)
      && (forall o :: o in responses && o.ride == r && IsPending(responses, o, b.id) ==> o.driver in b.drivers)
      && (exists d :: d in b.drivers && IsPending(responses, Offer(d, r), b.id))
  }

  predicate LiveOffer(rides: map<RideId, Ride>, responses: map<Offer, Response>, o: Offer) {
    && o.ride in rides && rides[o.ride].status == Dispatching && rides[o.ride].batch.Some?
    && IsPending(responses, o, rides[o.ride].batch.value.id)
  }

  /** The pending-dispatch index is exact, but for the entries an accept call still has to clear. */
  ghost predicate Index(rides: map<RideId, Ride>, responses: map<Offer, Response>, pending: set<Offer>, inflight: map<RideId, Owed>) {
    && (forall o :: o in responses && LiveOffer(rides, responses, o) ==> o in pending)
    && (forall o :: o in pending ==> LiveOffer(rides, responses, o) || IsOwed(inflight, o.ride, o.driver))
  }

  /** Rides whose acceptance is still being completed have left dispatch for good. */
  ghost predicate Flight(rides: map<RideId, Ride>, inflight: map<RideId, Owed>) {
    forall r :: r in inflight ==> r in rides && rides[r].status != Requested && rides[r].status != Dispatching
  }

  /** The pool indexes agree with the driver hashes. */
  ghost predicate Pools(drivers: map<DriverId, Driver>, heartbeats: set<DriverId>, online: set<DriverId>, available: set<DriverId>,
                        geo: set<DriverId>, busy: set<DriverId>)
  {
    && geo <= available <= online
    && busy <= online
    && (forall d :: d in available ==> d in drivers && drivers[d].status == Online)
    && (forall d :: d in busy ==> d in drivers && drivers[d].status == Busy)
    && (forall d :: d in heartbeats ==>
          && d in drivers && drivers[d].status != Offline
          && (drivers[d].status == Online ==> d in available)
          && (drivers[d].status == Busy ==> d in busy))
  }

  /** A customer's pointer names exactly the customer's non-terminal ride; `rides:active` holds exactly those rides. */
  ghost predicate Customers(rides: map<RideId, Ride>, customerRide: map<CustomerId, RideId>, activeRides: set<RideId>) {
    && (forall r :: r in activeRides <==> r in rides && !Terminal(rides[r].status))
    && (forall r :: r in activeRides ==> rides[r].customer in customerRide && customerRide[rides[r].customer] == r)
    && (forall k :: k in customerRide ==> customerRide[k] in activeRides && rides[customerRide[k]].customer == k)
  }

  /** The facts about offers: reservations, current batches and the pending index. */
  ghost predicate OfferInv(s: State) {
    && Tokens(s.rides, s.responses, s.reservations, s.inflight, s.online)
    && Offered(s.rides, s.responses, s.notified)
    && Index(s.rides, s.responses, s.pending, s.inflight)
  }

  ghost predicate Inv(s: State) {
    && Shape(s.rides, s.responses, s.notified, s.drivers, s.nextRide, s.nextBatch)
    && Bound(s.rides, s.drivers, s.activeKey)
    && Flight(s.rides, s.inflight)
    && OfferInv(s)
    && Pools(s.drivers, s.heartbeats, s.online, s.available, s.geo, s.busy)
    && Customers(s.rides, s.customerRide, s.activeRides)
  }

  predicate Candidates(s: State, near: seq<DriverId>) {
    Distinct(near) && forall d :: d in near ==> d in s.geo
  }
}
