/** What every service call does to the Redis keys, as a function of the state before it. */
module Steps {
  import opened Wrappers
  import opened Types
  import opened Lifecycle

  // ----- dispatch -----

  predicate IsPending(responses: map<Offer, Response>, o: Offer, b: BatchId) {
    o in responses && responses[o] == Pending(b)
  }

  /** Compare-and-delete of one reservation token on each of `ds`. */
  function ReleaseTokens(reservations: map<DriverId, Token>, token: Token, ds: seq<DriverId>): map<DriverId, Token> {
    map d | d in reservations && !(d in ds && reservations[d] == token) :: reservations[d]
  }

  function TimeOutPending(responses: map<Offer, Response>, r: RideId, b: Batch): map<Offer, Response> {
    map o | o in responses ::
      if o.ride == r && o.driver in b.drivers && responses[o] == Pending(b.id) then TimedOut else responses[o]
  }

  function StartIfRequested(c: Config, s: State, r: RideId): State
    requires r in s.rides
  {
    var ride := s.rides[r];
    if ride.status != Requested then s else
      var started := ride.(status := Dispatching, round := 1, radius := c.initialRadius, version := ride.version + 1);
      s.(rides := s.rides[r := started], log := s.log + [StatusUpdate(r, started.version, Dispatching)])
  }

  predicate BatchRunning(s: State, r: RideId)
    requires r in s.rides
  {
    s.rides[r].batch.Some? && s.rides[r].batch.value.expiresAt > s.now
  }

  /** Time out the unanswered drivers of the current batch, drop the batch, release its tokens and index entries. */
  function ExpireBatch(s: State, r: RideId): State
    requires r in s.rides
  {
    var ride := s.rides[r];
    if ride.batch.None? then s else
      var b := ride.batch.value;
      s.(rides := s.rides[r := ride.(batch := None, version := ride.version + 1)],
         responses := TimeOutPending(s.responses, r, b),
         reservations := ReleaseTokens(s.reservations, Token(r, b.id), b.drivers),
         pending := s.pending - Offers(b.drivers, r))
  }

  predicate Reservable(s: State, d: DriverId) {
    && d in s.drivers
    && d in s.heartbeats
    && s.drivers[d].status == Online
    && d !in s.activeKey
    && d !in s.reservations
    && d !in s.cooldowns
  }

  /** No state hash or no heartbeat: the reservation check wipes such a driver from the pools. */
  predicate Ghost(s: State, d: DriverId) {
    d !in s.drivers || d !in s.heartbeats
  }

  function ReservableAmong(s: State, candidates: seq<DriverId>): seq<DriverId> {
    Filter((d: DriverId) => Reservable(s, d), candidates)
  }

  /** The first `n` reservable members of a candidate list. */
  function Pick(s: State, candidates: seq<DriverId>, n: nat): seq<DriverId> {
    Take(ReservableAmong(s, candidates), n)
  }

  /** How many candidates are looked at before `n` of them are reserved. */
  function Scanned(s: State, candidates: seq<DriverId>, n: nat): (k: nat)
    ensures k <= |candidates|
  {
    if candidates == [] || n == 0 then 0
    else 1 + Scanned(s, candidates[1..], if Reservable(s, candidates[0]) then n - 1 else n)
  }

  function GhostsScanned(s: State, candidates: seq<DriverId>, n: nat): set<DriverId> {
    set d | d in candidates[..Scanned(s, candidates, n)] && Ghost(s, d)
  }

  function RemoveGhosts(s: State, ghosts: set<DriverId>): State {
    s.(available := s.available - ghosts,
       busy := s.busy - ghosts,
       online := s.online - ghosts,
       geo := s.geo - ghosts,
       heartbeats := s.heartbeats - ghosts,
       reservations := s.reservations - ghosts)
  }

  /** The candidates a round may contact: before round 2, only drivers not yet notified. */
  function Eligible(s: State, r: RideId, round: nat, near: seq<DriverId>): seq<DriverId> {
    Filter((d: DriverId) => Offer(d, r) !in s.notified || round > 1, near)
  }

  function ReservationsFor(ds: seq<DriverId>, token: Token): map<DriverId, Token> {
    map d | d in ds :: token
  }

  function PendingFor(ds: seq<DriverId>, r: RideId, b: BatchId): map<Offer, Response> {
    map o | o in Offers(ds, r) :: Pending(b)
  }

  function RequestsTo(ds: seq<DriverId>, r: RideId, b: BatchId): (events: seq<Event>)
    ensures |events| == |ds|
    ensures forall i :: 0 <= i < |ds| ==> events[i] == RideRequest(ds[i], r, b)
  {
    seq(|ds|, i requires 0 <= i < |ds| => RideRequest(ds[i], r, b))
  }

  /** Reserve the chosen drivers under a fresh batch and send it. */
  function SendBatch(c: Config, s: State, r: RideId, chosen: seq<DriverId>): State
    requires r in s.rides
  {
    var ride := s.rides[r];
    var b := s.nextBatch;
    s.(rides := s.rides[r := ride.(batch := Some(Batch(b, chosen, s.now + c.responseTtl)), version := ride.version + 1)],
       notified := s.notified + Offers(chosen, r),
       responses := s.responses + PendingFor(chosen, r, b),
       pending := s.pending + Offers(chosen, r),
       reservations := s.reservations + ReservationsFor(chosen, Token(r, b)),
       nextBatch := b + 1,
       log := s.log + RequestsTo(chosen, r, b))
  }

  function MinReal(x: real, y: real): real {
    if x <= y then x else y
  }

  function ExpandSearch(c: Config, s: State, r: RideId, round: nat, radius: real): State
    requires r in s.rides
  {
    var ride := s.rides[r];
    s.(rides := s.rides[r := ride.(round := round + 1, radius := MinReal(radius * 2.0, c.maxRadius),
                                   batch := None, version := ride.version + 1)],
       nextBatch := s.nextBatch + 1)
  }

  function CancelExhausted(s: State, r: RideId): State
    requires r in s.rides
  {
    var ride := s.rides[r];
    var over := ride.(status := Cancelled, cancellation := Some(NoDriversAvailable), batch := None, version := ride.version + 1);
    CleanupTerminal(
      s.(rides := s.rides[r := over],
         nextBatch := s.nextBatch + 1,
         log := s.log + [StatusUpdate(r, over.version, Cancelled)]), r)
  }

  /** The search of one dispatch round: reserve and send, or expand, or give up. */
  function Search(c: Config, s: State, r: RideId, round: nat, radius: real, near: seq<DriverId>): State
    requires r in s.rides
  {
    var candidates := Eligible(s, r, round, near);
    var chosen := Pick(s, candidates, c.batchSize);
    var t := RemoveGhosts(s, GhostsScanned(s, candidates, c.batchSize));
    if chosen != [] then SendBatch(c, t, r, chosen)
    else if round >= c.maxRounds || radius >= c.maxRadius then CancelExhausted(t, r)
    else ExpandSearch(c, t, r, round, radius)
  }

  function EntryRadius(c: Config, ride: Ride): real {
    if ride.radius == 0.0 then c.initialRadius else ride.radius
  }

  /** `dispatchUnderLock`; `near` is what GEOSEARCH returns, nearest first. */
  function Dispatch(c: Config, s: State, r: RideId, near: seq<DriverId>): State {
    if r !in s.rides || (s.rides[r].status != Requested && s.rides[r].status != Dispatching) then s else
      var ride := s.rides[r];
      var started := StartIfRequested(c, s, r);
      if BatchRunning(started, r) then started
      else Search(c, ExpireBatch(started, r), r, ride.round, EntryRadius(c, ride), near)
  }

  /** `handleBatchTimeout`. */
  function BatchTimeout(c: Config, s: State, r: RideId, b: BatchId, near: seq<DriverId>): State {
    if r !in s.rides || s.rides[r].status != Dispatching || s.rides[r].batch.None? || s.rides[r].batch.value.id != b
    then s
    else Dispatch(c, ExpireBatch(s, r), r, near)
  }

  /** Nobody but `d` still has to answer the current batch. */
  predicate BatchExhausted(s: State, r: RideId, d: DriverId)
    requires r in s.rides
  {
    var batch := s.rides[r].batch;
    batch.Some? ==>
      forall e | e in batch.value.drivers :: e == d || !IsPending(s.responses, Offer(e, r), batch.value.id)
  }

  function RecordRejection(c: Config, s: State, r: RideId, d: DriverId, reason: string): State
    requires r in s.rides
  {
    var ride := s.rides[r];
    var exhausted := BatchExhausted(s, r, d);
    var released := if exhausted && ride.batch.Some? then [d] + ride.batch.value.drivers else [d];
    s.(rides := s.rides[r := ride.(batch := if exhausted then None else ride.batch, version := ride.version + 1)],
       responses := s.responses[Offer(d, r) := Declined(reason)],
       pending := s.pending - {Offer(d, r)},
       cooldowns := if c.cooldownEnabled then s.cooldowns + {d} else s.cooldowns,
       reservations := if ride.batch.None? then s.reservations
                       else ReleaseTokens(s.reservations, Token(r, ride.batch.value.id), released))
  }

  /** An empty reason reads back as no response at all. */
  predicate CanReject(s: State, r: RideId, d: DriverId) {
    && r in s.rides && s.rides[r].status == Dispatching && Offer(d, r) in s.responses
    && s.responses[Offer(d, r)] != Won && s.responses[Offer(d, r)] != Declined("")
  }

  /** `handleDriverRejection`. */
  function Reject(c: Config, s: State, r: RideId, d: DriverId, reason: string, near: seq<DriverId>): State {
    if !CanReject(s, r, d) then s else
      var t := RecordRejection(c, s, r, d, reason);
      if BatchExhausted(s, r, d) then Dispatch(c, t, r, near) else t
  }

  // ----- acceptance -----

  /** The result code of the acceptance script, or 0 when every guard passes. */
  function AcceptCode(s: State, r: RideId, d: DriverId, acceptedAt: int, token: Option<Token>): int {
    if r !in s.rides then -1 else
      var ride := s.rides[r];
      if ride.status != Dispatching then -2
      else if ride.driver.Some? then -3
      else if ride.batch.None? then -6
      else if ride.batch.value.expiresAt < acceptedAt then -7
      else if Offer(d, r) !in s.notified then -4
      else if !IsPending(s.responses, Offer(d, r), ride.batch.value.id) then -8
      else if token.None? || d !in s.reservations || s.reservations[d] != token.value then -9
      else if d !in s.drivers || s.drivers[d].status != Online || (d in s.activeKey && s.activeKey[d] != r) then -5
      else 0
  }

  function TokenOf(r: RideId, batch: Option<Batch>): Option<Token> {
    if batch.None? then None else Some(Token(r, batch.value.id))
  }

  function Others(batch: Batch, d: DriverId): seq<DriverId> {
    Filter((e: DriverId) => e != d, batch.drivers)
  }

  /** The writes of the acceptance script. */
  function Committed(s: State, r: RideId, d: DriverId, seen: Batch): State
    requires r in s.rides && d in s.drivers
  {
    var ride := s.rides[r];
    s.(rides := s.rides[r := ride.(status := Accepted, driver := Some(d), batch := None, version := ride.version + 1)],
       drivers := s.drivers[d := s.drivers[d].(status := Busy, activeRide := Some(r))],
       available := s.available - {d},
       geo := s.geo - {d},
       busy := s.busy + {d},
       activeKey := s.activeKey[d := r],
       responses := s.responses[Offer(d, r) := Won],
       pending := s.pending - {Offer(d, r)},
       reservations := s.reservations - {d},
       inflight := s.inflight[r := Owed(seen.id, Others(seen, d), None)])
  }

  /** The acceptance script, run by a call that has read `seen` as the current batch at time `at`. */
  function AcceptScript(s: State, r: RideId, d: DriverId, seen: Option<Batch>, at: int): State {
    if AcceptCode(s, r, d, at, TokenOf(r, seen)) != 0 then s else Committed(s, r, d, seen.value)
  }

  /** A committed accept call reads the ride back, once. */
  function AcceptReadBack(s: State, r: RideId): State {
    if r !in s.inflight || r !in s.rides || s.inflight[r].read.Some? then s
    else s.(inflight := s.inflight[r := s.inflight[r].(read := Some(s.rides[r]))])
  }

  /** Then it releases the losers and publishes, twice, what it has read. */
  function AcceptCleanup(s: State, r: RideId): State {
    if r !in s.inflight || s.inflight[r].read.None? then s else
      var owed := s.inflight[r];
      var message := StatusUpdate(r, owed.read.value.version, owed.read.value.status);
      s.(reservations := ReleaseTokens(s.reservations, Token(r, owed.batch), owed.losers),
         pending := s.pending - Offers(owed.losers, r),
         inflight := s.inflight - {r},
         log := s.log + [message, message])
  }

  /** `acceptRide` with nothing between its parts. */
  function Accept(s: State, r: RideId, d: DriverId): State {
    var seen := if r in s.rides then s.rides[r].batch else None;
    if AcceptCode(s, r, d, s.now, TokenOf(r, seen)) != 0 then s
    else AcceptCleanup(AcceptReadBack(AcceptScript(s, r, d, seen, s.now), r), r)
  }

  // ----- the ride lifecycle -----

  /** `releaseDriverAvailability`. */
  function ReleaseDriver(s: State, d: DriverId, r: RideId): State {
    var known := d in s.drivers;
    var located := known && s.drivers[d].located;
    var back := known && s.drivers[d].status != Offline && d in s.heartbeats;
    s.(busy := s.busy - {d},
       pending := s.pending - {Offer(d, r)},
       activeKey := if d in s.activeKey && s.activeKey[d] == r then s.activeKey - {d} else s.activeKey,
       drivers := s.drivers[d := Driver(if back then Online else Offline, None, located)],
       online := if back then s.online + {d} else s.online,
       available := if back then s.available + {d} else s.available,
       geo := if back && located then s.geo + {d} else s.geo)
  }

  /** Take a terminal ride out of the ride, customer, pending and reservation keys. */
  function ClearTerminal(s: State, r: RideId): State
    requires r in s.rides
  {
    var ride := s.rides[r];
    s.(activeRides := s.activeRides - {r},
       customerRide := if ride.customer in s.customerRide && s.customerRide[ride.customer] == r
                       then s.customerRide - {ride.customer} else s.customerRide,
       pending := (set o | o in s.pending && !(o.ride == r && o in s.notified)),
       reservations := if ride.batch.None? then s.reservations
                       else ReleaseTokens(s.reservations, Token(r, ride.batch.value.id), ride.batch.value.drivers))
  }

  /** `cleanupTerminalRideKeys`, for a ride whose hash is already terminal. */
  function CleanupTerminal(s: State, r: RideId): State
    requires r in s.rides
  {
    var t := ClearTerminal(s, r);
    if s.rides[r].driver.None? then t else ReleaseDriver(t, s.rides[r].driver.value, r)
  }

  predicate CanTransition(s: State, r: RideId, next: RideStatus) {
    r in s.rides && s.rides[r].status != next && next in RideTransitions(s.rides[r].status)
  }

  /** The status write of a transition, and its two messages. */
  function Moved(s: State, r: RideId, next: RideStatus): State
    requires r in s.rides
  {
    var ride := s.rides[r];
    var moved := ride.(status := next, version := ride.version + 1,
                       cancellation := if next == Cancelled then Some(ByActor) else ride.cancellation);
    var message := StatusUpdate(r, moved.version, next);
    s.(rides := s.rides[r := moved], log := s.log + [message, message])
  }

  /** `transitionRide`; every other call is refused or ignored. */
  function Transition(s: State, r: RideId, next: RideStatus): State {
    if !CanTransition(s, r, next) then s
    else if Terminal(next) then CleanupTerminal(Moved(s, r, next), r)
    else Moved(s, r, next)
  }

  /** `markDriverArriving`, `startRide` and `completeRide`: the caller must be the assigned driver. */
  function DriverTransition(s: State, r: RideId, d: DriverId, next: RideStatus): State {
    if r in s.rides && s.rides[r].driver == Some(d) then Transition(s, r, next) else s
  }

  function CancelRide(s: State, r: RideId): State {
    if r in s.rides && !Terminal(s.rides[r].status) then Transition(s, r, Cancelled) else s
  }

  predicate HasActiveRide(s: State, customer: CustomerId) {
    && customer in s.customerRide
    && s.customerRide[customer] in s.rides
    && !Terminal(s.rides[s.customerRide[customer]].status)
  }

  function RequestRide(c: Config, s: State, customer: CustomerId): State {
    if HasActiveRide(s, customer) then s else
      var r := s.nextRide;
      s.(rides := s.rides[r := Ride(customer, None, Requested, 0, c.initialRadius, None, None, 1)],
         customerRide := s.customerRide[customer := r],
         activeRides := s.activeRides + {r},
         nextRide := r + 1)
  }

  // ----- driver presence -----

  /** `persistDriverRealtimeState`. */
  function Persist(s: State, d: DriverId, driver: Driver): State {
    var free := driver.status == Online && driver.activeRide.None?;
    s.(drivers := s.drivers[d := driver],
       online := s.online + {d},
       heartbeats := s.heartbeats + {d},
       available := if free then s.available + {d} else s.available - {d},
       busy := if !free && driver.status == Busy then s.busy + {d} else s.busy - {d},
       geo := if !free then s.geo - {d} else if driver.located then s.geo + {d} else s.geo,
       activeKey := if driver.activeRide.Some? then s.activeKey[d := driver.activeRide.value] else s.activeKey - {d})
  }

  /** The ride a presence call finds for the driver: the key first, then the hash. */
  function ActiveRideOf(s: State, d: DriverId): Option<RideId> {
    if d in s.activeKey then Some(s.activeKey[d])
    else if d in s.drivers then s.drivers[d].activeRide
    else None
  }

  function GoOnline(s: State, d: DriverId, located: bool): State {
    var active := ActiveRideOf(s, d);
    Persist(s, d, Driver(if active.Some? then Busy else Online, active, located))
  }

  function Heartbeat(s: State, d: DriverId, located: bool): State {
    if d !in s.drivers || s.drivers[d].status == Offline then s
    else Persist(s, d, s.drivers[d].(located := located))
  }

  /** `restoreDriverSession`: blank coordinates are read back as the number 0 and so stop being blank. */
  function RestoreSession(s: State, d: DriverId): State {
    if d !in s.drivers || s.drivers[d].status == Offline then s
    else Persist(s, d, s.drivers[d].(located := true))
  }

  function GoOffline(s: State, d: DriverId): State {
    s.(drivers := s.drivers[d := Driver(Offline, ActiveRideOf(s, d), d in s.drivers)],
       online := s.online - {d},
       available := s.available - {d},
       busy := s.busy - {d},
       geo := s.geo - {d},
       heartbeats := s.heartbeats - {d},
       reservations := s.reservations - {d})
  }
}
