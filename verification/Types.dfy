/** The Redis keys of the dispatch backend, as one value. */
module Types {
  import opened Wrappers

  // Identifiers are opaque. Freshly drawn ones (uuid v4) come from a counter in the state.
  type RideId = nat
  type DriverId = nat
  type CustomerId = nat
  type BatchId = nat

  datatype RideStatus = Requested | Dispatching | Accepted | Arriving | Ongoing | Completed | Cancelled

  datatype DriverStatus = Online | Offline | Busy

  /** A field of `ride:{id}:responses`. */
  datatype Response = Pending(batch: BatchId) | TimedOut | Declined(reason: string) | Won

  /** `currentBatchId`, `currentBatchDrivers` and `currentBatchExpiresAt`, always written together. */
  datatype Batch = Batch(id: BatchId, drivers: seq<DriverId>, expiresAt: int)

  datatype Cancellation = NoDriversAvailable | ByActor

  /** `ride:{id}:active`. */
  datatype Ride = Ride(
    customer: CustomerId,
    driver: Option<DriverId>,
    status: RideStatus,
    round: nat,
    radius: real,
    batch: Option<Batch>,
    cancellation: Option<Cancellation>,
    version: nat)

  /** `driver:{id}:state`; `located` says that the stored coordinates are not blank. */
  datatype Driver = Driver(status: DriverStatus, activeRide: Option<RideId>, located: bool)

  /** The reservation value `rideId:batchId`. */
  datatype Token = Token(ride: RideId, batch: BatchId)

  /** One driver's place in one ride's responses, notified set or pending-dispatch set. */
  datatype Offer = Offer(driver: DriverId, ride: RideId)

  /** Socket messages: `ride_status_update` to the customer, `new_ride_request` to a driver. */
  datatype Event =
    | StatusUpdate(ride: RideId, version: nat, status: RideStatus)
    | RideRequest(driver: DriverId, ride: RideId, batch: BatchId)

  /** The releases an accept call that has committed still has to make, and the ride as it has read it back, to publish it. */
  datatype Owed = Owed(batch: BatchId, losers: seq<DriverId>, read: Option<Ride>)

  datatype State = State(
    rides: map<RideId, Ride>,
    activeRides: set<RideId>,
    customerRide: map<CustomerId, RideId>,
    responses: map<Offer, Response>,
    notified: set<Offer>,
    pending: set<Offer>,
    drivers: map<DriverId, Driver>,
    activeKey: map<DriverId, RideId>,
    heartbeats: set<DriverId>,
    reservations: map<DriverId, Token>,
    cooldowns: set<DriverId>,
    online: set<DriverId>,
    available: set<DriverId>,
    geo: set<DriverId>,
    busy: set<DriverId>,
    inflight: map<RideId, Owed>,
    log: seq<Event>,
    nextRide: nat,
    nextBatch: nat,
    now: int)

  /** The settings the protocol reads. */
  datatype Config = Config(
    batchSize: nat,
    initialRadius: real,
    maxRadius: real,
    maxRounds: nat,
    responseTtl: nat,
    cooldownEnabled: bool)

  predicate ValidConfig(c: Config) {
    1 <= c.batchSize && 0.0 < c.initialRadius <= c.maxRadius
  }

  function EmptyState(now: int): State {
    State(map[], {}, map[], map[], {}, {}, map[], map[], {}, map[], {}, {}, {}, {}, {}, map[], [], 0, 0, now)
  }

  predicate Distinct<T(==)>(xs: seq<T>) {
    forall i, j :: 0 <= i < j < |xs| ==> xs[i] != xs[j]
  }

  /** The members of `xs` that satisfy `p`, in order. */
  function Filter(p: DriverId -> bool, xs: seq<DriverId>): (ys: seq<DriverId>)
    ensures forall d :: d in ys <==> d in xs && p(d)
  {
    if xs == [] then []
    else if p(xs[0]) then [xs[0]] + Filter(p, xs[1..])
    else Filter(p, xs[1..])
  }

  function Take<T>(xs: seq<T>, n: nat): seq<T> {
    if |xs| <= n then xs else xs[..n]
  }

  /** The offers of one ride to a list of drivers. */
  function Offers(ds: seq<DriverId>, r: RideId): (os: set<Offer>)
    ensures forall o :: o in os <==> o.ride == r && o.driver in ds
  {
    set d | d in ds :: Offer(d, r)
  }
}
