/** The stale-driver sweep: every online driver without a heartbeat goes offline and drops out of dispatch. */
module Sweep {
  import opened Wrappers
  import opened Types
  import opened Steps
  import opened Invariants
  import opened Preservation
  import opened Runs
  import opened Evolution
  import opened Guarantees

  function StaleDrivers(s: State): set<DriverId> {
    s.online - s.heartbeats
  }

  /** All of `ds` gone offline, in whatever order. */
  function AllOffline(s: State, ds: set<DriverId>): State {
    s.(drivers := s.drivers + OfflineHashes(s, ds),
       online := s.online - ds,
       available := s.available - ds,
       busy := s.busy - ds,
       geo := s.geo - ds,
       heartbeats := s.heartbeats - ds,
       reservations := s.reservations - ds)
  }

  function OfflineHashes(s: State, ds: set<DriverId>): map<DriverId, Driver> {
    map d | d in ds :: Driver(Offline, ActiveRideOf(s, d), d in s.drivers)
  }

  lemma OneMoreHash(s: State, ds: set<DriverId>, d: DriverId)
    requires d !in ds
    ensures (s.drivers + OfflineHashes(s, ds))[d := Driver(Offline, ActiveRideOf(s, d), d in s.drivers)]
         == s.drivers + OfflineHashes(s, ds + {d})
  {
  }

  lemma OneMoreOffline(s: State, ds: set<DriverId>, d: DriverId)
    requires d !in ds
    ensures GoOffline(AllOffline(s, ds), d) == AllOffline(s, ds + {d})
  {
    OneMoreHash(s, ds, d);
    var t := AllOffline(s, ds);
    assert ActiveRideOf(t, d) == ActiveRideOf(s, d) && (d in t.drivers <==> d in s.drivers);
    OneLess(s.online, ds, d);
    OneLess(s.available, ds, d);
    OneLess(s.busy, ds, d);
    OneLess(s.geo, ds, d);
    OneLess(s.heartbeats, ds, d);
    assert s.reservations - ds - {d} == s.reservations - (ds + {d});
  }

  lemma OneLess(pool: set<DriverId>, ds: set<DriverId>, d: DriverId)
    ensures pool - ds - {d} == pool - (ds + {d})
  {
  }

  lemma {:induction false} AllOfflineKeeps(s: State, ds: set<DriverId>)
    requires Inv(s)
    ensures Inv(AllOffline(s, ds))
  {
    if ds == {} {
      NobodyOffline(s);
    } else {
      var d :| d in ds;
      var rest := ds - {d};
      AllOfflineKeeps(s, rest);
      OneMoreOffline(s, rest, d);
      assert rest + {d} == ds;
      OfflineKeeps(AllOffline(s, rest), d);
    }
  }

  lemma NobodyOffline(s: State)
    ensures AllOffline(s, {}) == s
  {
  }

  /** `ds` are offline, in no pool, and hold no reservation. */
  ghost predicate OutOfService(s: State, ds: set<DriverId>) {
    forall d :: d in ds ==>
      && d in s.drivers && s.drivers[d].status == Offline && d !in s.heartbeats
      && d !in s.online && d !in s.available && d !in s.geo && d !in s.busy && d !in s.reservations
  }

  /** What a step may not do behind the back of `ds`. */
  ghost predicate Undisturbed(s: State, t: State, ds: set<DriverId>) {
    && t.drivers == s.drivers && t.inflight == s.inflight
    && t.online <= s.online && t.available <= s.available && t.geo <= s.geo && t.busy <= s.busy && t.heartbeats <= s.heartbeats
    && (forall d :: d in ds && d in t.reservations ==> d in s.reservations)
    && (forall o :: o in t.pending && o.driver in ds ==> o in s.pending)
    && s.log <= t.log && (forall e :: e in t.log[|s.log|..] && e.RideRequest? ==> e.driver !in ds)
    && (forall r :: r in s.rides && Lifecycle.Assigned(s.rides[r].status) ==> r in t.rides && t.rides[r] == s.rides[r])
  }

  lemma UndisturbedTwice(s: State, t: State, u: State, ds: set<DriverId>)
    requires Undisturbed(s, t, ds) && Undisturbed(t, u, ds)
    ensures Undisturbed(s, u, ds)
  {
    forall e | e in u.log[|s.log|..] && e.RideRequest? ensures e.driver !in ds {
      assert e in t.log[|s.log|..] || e in u.log[|t.log|..] by {
        assert u.log[|s.log|..] == t.log[|s.log|..] + u.log[|t.log|..];
      }
    }
  }

  /** Drivers outside the geo index are left alone by any dispatch. */
  lemma SearchUndisturbing(c: Config, s: State, r: RideId, round: nat, radius: real, near: seq<DriverId>, ds: set<DriverId>)
    requires r in s.rides && s.rides[r].status == Dispatching && s.rides[r].driver.None? && Candidates(s, near)
    requires forall d :: d in ds ==> d !in s.geo
    ensures Undisturbed(s, Search(c, s, r, round, radius, near), ds)
  {
    var candidates := Eligible(s, r, round, near);
    var chosen := Pick(s, candidates, c.batchSize);
    var u := RemoveGhosts(s, GhostsScanned(s, candidates, c.batchSize));
    ChosenDrivers(s, r, round, near, c.batchSize);
    assert Undisturbed(s, u, ds);
    if chosen != [] {
      SendUndisturbing(c, u, r, chosen, ds);
      UndisturbedTwice(s, u, SendBatch(c, u, r, chosen), ds);
    } else if round >= c.maxRounds || radius >= c.maxRadius {
      ExhaustedUndisturbing(u, r, ds);
      UndisturbedTwice(s, u, CancelExhausted(u, r), ds);
    }
  }

  lemma SendUndisturbing(c: Config, s: State, r: RideId, chosen: seq<DriverId>, ds: set<DriverId>)
    requires r in s.rides && s.rides[r].status == Dispatching
    requires forall d :: d in ds ==> d !in chosen
    ensures Undisturbed(s, SendBatch(c, s, r, chosen), ds)
  {
    var t := SendBatch(c, s, r, chosen);
    assert t.log[|s.log|..] == RequestsTo(chosen, r, s.nextBatch);
  }

  lemma ExhaustedUndisturbing(s: State, r: RideId, ds: set<DriverId>)
    requires r in s.rides && s.rides[r].status == Dispatching && s.rides[r].driver.None?
    ensures Undisturbed(s, CancelExhausted(s, r), ds)
  {
    var t := CancelExhausted(s, r);
    ExhaustedRide(s, r);
    assert t.log == s.log + [StatusUpdate(r, s.rides[r].version + 1, Cancelled)];
  }

  lemma DispatchUndisturbing(c: Config, s: State, r: RideId, near: seq<DriverId>, ds: set<DriverId>)
    requires (r in s.rides ==> RideShape(s.rides[r], s.nextBatch)) && Candidates(s, near)
    requires forall d :: d in ds ==> d !in s.geo
    ensures Undisturbed(s, Dispatch(c, s, r, near), ds)
  {
    if r in s.rides && (s.rides[r].status == Requested || s.rides[r].status == Dispatching) {
      var started := StartIfRequested(c, s, r);
      StartUndisturbing(c, s, r, ds);
      if !BatchRunning(started, r) {
        StartRide(c, s, r);
        ExpireThenSearch(c, s, started, r, s.rides[r].round, EntryRadius(c, s.rides[r]), near, ds);
      }
    }
  }

  lemma StartUndisturbing(c: Config, s: State, r: RideId, ds: set<DriverId>)
    requires r in s.rides
    ensures Undisturbed(s, StartIfRequested(c, s, r), ds) && StartIfRequested(c, s, r).geo == s.geo
  {
    var t := StartIfRequested(c, s, r);
    if s.rides[r].status == Requested {
      assert t.log[|s.log|..] == [StatusUpdate(r, s.rides[r].version + 1, Dispatching)];
    }
  }

  lemma ExpireThenSearch(c: Config, s: State, started: State, r: RideId, round: nat, radius: real, near: seq<DriverId>, ds: set<DriverId>)
    requires Undisturbed(s, started, ds) && started.geo == s.geo && Candidates(s, near) && forall d :: d in ds ==> d !in s.geo
    requires r in started.rides && started.rides[r].status == Dispatching && started.rides[r].driver.None?
    ensures Undisturbed(s, Search(c, ExpireBatch(started, r), r, round, radius, near), ds)
  {
    var u := ExpireBatch(started, r);
    ExpireUndisturbing(started, r, ds);
    UndisturbedTwice(s, started, u, ds);
    SearchUndisturbing(c, u, r, round, radius, near, ds);
    UndisturbedTwice(s, u, Search(c, u, r, round, radius, near), ds);
  }

  lemma ExpireUndisturbing(s: State, r: RideId, ds: set<DriverId>)
    requires r in s.rides && s.rides[r].status == Dispatching
    ensures var u := ExpireBatch(s, r);
            && Undisturbed(s, u, ds) && u.geo == s.geo && u.nextBatch == s.nextBatch
            && u.rides == s.rides[r := u.rides[r]] && u.rides[r] == s.rides[r].(batch := None, version := u.rides[r].version)
            && s.rides[r].version <= u.rides[r].version
  {
    assert ExpireBatch(s, r).log == s.log;
  }

  lemma TimeoutUndisturbing(c: Config, s: State, r: RideId, b: BatchId, near: seq<DriverId>, ds: set<DriverId>)
    requires (r in s.rides ==> RideShape(s.rides[r], s.nextBatch)) && Candidates(s, near)
    requires forall d :: d in ds ==> d !in s.geo
    ensures Undisturbed(s, BatchTimeout(c, s, r, b, near), ds)
  {
    if r in s.rides && s.rides[r].status == Dispatching {
      var u := ExpireBatch(s, r);
      ExpireUndisturbing(s, r, ds);
      DispatchUndisturbing(c, u, r, near, ds);
      UndisturbedTwice(s, u, Dispatch(c, u, r, near), ds);
    }
  }

  /** A rejection on behalf of a swept driver: its own index entry goes, and no swept driver gains anything. */
  lemma RejectUndisturbing(c: Config, s: State, r: RideId, d: DriverId, reason: string, near: seq<DriverId>, ds: set<DriverId>)
    requires Inv(s) && Candidates(s, near) && forall e :: e in ds ==> e !in s.geo
    ensures var t := Reject(c, s, r, d, reason, near);
            && Inv(t) && Undisturbed(s, t, ds)
            && (d in ds && r !in s.inflight ==> Offer(d, r) !in t.pending)
  {
    RejectKeeps(c, s, r, d, reason, near);
    if CanReject(s, r, d) {
      var u := RecordRejection(c, s, r, d, reason);
      RejectionUndisturbing(c, s, r, d, reason, ds);
      if BatchExhausted(s, r, d) {
        RejectionRide(c, s, r, d, reason);
        DispatchUndisturbing(c, u, r, near, ds);
        UndisturbedTwice(s, u, Dispatch(c, u, r, near), ds);
      }
    }
  }

  lemma RejectionUndisturbing(c: Config, s: State, r: RideId, d: DriverId, reason: string, ds: set<DriverId>)
    requires CanReject(s, r, d)
    ensures Undisturbed(s, RecordRejection(c, s, r, d, reason), ds)
  {
  }

  /** A rejection the sweep makes for one index entry of a swept driver; `near` is what GEOSEARCH returns to it. */
  datatype Drop = Drop(offer: Offer, reason: string, near: seq<DriverId>)

  function DropOne(c: Config, s: State, drop: Drop): State {
    Reject(c, s, drop.offer.ride, drop.offer.driver, drop.reason, drop.near)
  }

  function DropAll(c: Config, s: State, drops: seq<Drop>): State
    decreases |drops|
  {
    if drops == [] then s else DropAll(c, DropOne(c, s, drops[0]), drops[1..])
  }

  predicate CandidatesAtEach(c: Config, s: State, drops: seq<Drop>)
    decreases |drops|
  {
    drops == [] || (Candidates(s, drops[0].near) && CandidatesAtEach(c, DropOne(c, s, drops[0]), drops[1..]))
  }

  lemma DropOneUndisturbing(c: Config, s: State, drop: Drop, ds: set<DriverId>)
    requires Inv(s) && Candidates(s, drop.near) && drop.offer.driver in ds && forall d :: d in ds ==> d !in s.geo
    ensures var t := DropOne(c, s, drop);
            && Inv(t) && Undisturbed(s, t, ds) && (drop.offer.ride !in s.inflight ==> drop.offer !in t.pending)
  {
    RejectUndisturbing(c, s, drop.offer.ride, drop.offer.driver, drop.reason, drop.near, ds);
    assert Offer(drop.offer.driver, drop.offer.ride) == drop.offer;
  }

  ghost predicate Dropped(s: State, t: State, drops: seq<Drop>) {
    forall i :: 0 <= i < |drops| && drops[i].offer.ride !in s.inflight ==> drops[i].offer !in t.pending
  }

  lemma {:induction false} DropsEverything(c: Config, s: State, ds: set<DriverId>, drops: seq<Drop>)
    requires Inv(s) && CandidatesAtEach(c, s, drops)
    requires forall d :: d in ds ==> d !in s.geo
    requires forall i :: 0 <= i < |drops| ==> drops[i].offer.driver in ds
    ensures var t := DropAll(c, s, drops);
            Inv(t) && Undisturbed(s, t, ds) && Dropped(s, t, drops)
    decreases |drops|
  {
    if drops != [] {
      var u := DropOne(c, s, drops[0]);
      DropOneUndisturbing(c, s, drops[0], ds);
      DropsEverything(c, u, ds, drops[1..]);
      DroppedTogether(s, u, DropAll(c, u, drops[1..]), ds, drops);
      UndisturbedTwice(s, u, DropAll(c, u, drops[1..]), ds);
    }
  }

  lemma DroppedTogether(s: State, u: State, t: State, ds: set<DriverId>, drops: seq<Drop>)
    requires drops != [] && Undisturbed(s, u, ds) && Undisturbed(u, t, ds) && drops[0].offer.driver in ds
    requires drops[0].offer.ride !in s.inflight ==> drops[0].offer !in u.pending
    requires Dropped(u, t, drops[1..])
    ensures Dropped(s, t, drops)
  {
    forall i | 0 <= i < |drops| && drops[i].offer.ride !in s.inflight ensures drops[i].offer !in t.pending {
      if i > 0 {
        assert drops[1..][i - 1] == drops[i];
      }
    }
  }

  /** One drop for every index entry of a stale driver. */
  ghost predicate CoversStale(s: State, drops: seq<Drop>) {
    && (forall i :: 0 <= i < |drops| ==> drops[i].offer.driver in StaleDrivers(s))
    && (forall o :: o in s.pending && o.driver in StaleDrivers(s) ==> exists i :: 0 <= i < |drops| && drops[i].offer == o)
  }

  /** `scanStaleDriversAndRecover`. */
  function SweepWith(c: Config, s: State, drops: seq<Drop>): State {
    DropAll(c, AllOffline(s, StaleDrivers(s)), drops)
  }

  /**
   * What the sweep promises. Every online driver without a heartbeat ends OFFLINE, in no pool, without reservation, and with
   * no index entry but those a committed accept call is about to clear; fresh dispatches triggered on the way offer nothing
   * to any of them; assigned rides do not change.
   */
  ghost predicate Swept(s: State, t: State) {
    var ds := StaleDrivers(s);
    && Inv(t) && OutOfService(t, ds)
    && (forall o :: o in t.pending && o.driver in ds ==> o.ride in s.inflight)
    && s.log <= t.log && (forall e :: e in t.log[|s.log|..] && e.RideRequest? ==> e.driver !in ds)
    && (forall r :: r in s.rides && Lifecycle.Assigned(s.rides[r].status) ==> r in t.rides && t.rides[r] == s.rides[r])
  }

  lemma SweepClearsStaleDrivers(c: Config, s: State, drops: seq<Drop>)
    requires Reachable(c, s) && CoversStale(s, drops) && CandidatesAtEach(c, AllOffline(s, StaleDrivers(s)), drops)
    ensures Swept(s, SweepWith(c, s, drops))
  {
    ReachableKeeps(c, s);
    SweepDelivers(c, s, drops);
  }

  lemma SweepDelivers(c: Config, s: State, drops: seq<Drop>)
    requires Inv(s) && CoversStale(s, drops) && CandidatesAtEach(c, AllOffline(s, StaleDrivers(s)), drops)
    ensures Swept(s, SweepWith(c, s, drops))
  {
    AllOfflineKeeps(s, StaleDrivers(s));
    DropsEverything(c, AllOffline(s, StaleDrivers(s)), StaleDrivers(s), drops);
  }

  /**
   * A driver that had lost its heartbeat and its pool entries before the sweep is not visited: it is in no pool and holds no
   * reservation, but keeps the status it had.
   */
  lemma SweepSkipsGhosts(c: Config, s: State, d: DriverId, drops: seq<Drop>)
    requires Reachable(c, s) && CoversStale(s, drops) && CandidatesAtEach(c, AllOffline(s, StaleDrivers(s)), drops)
    requires d in s.drivers && d !in s.heartbeats && d !in s.online
    ensures var t := SweepWith(c, s, drops);
            && d in t.drivers && t.drivers[d] == s.drivers[d]
            && d !in t.online && d !in t.available && d !in t.geo && d !in t.busy && d !in t.reservations
  {
    ReachableKeeps(c, s);
    AllOfflineKeeps(s, StaleDrivers(s));
    DropsEverything(c, AllOffline(s, StaleDrivers(s)), StaleDrivers(s) + {d}, drops);
  }

  /** Exactly when a driver without a heartbeat is OFFLINE after the sweep. */
  lemma OfflineAfterSweep(c: Config, s: State, d: DriverId, drops: seq<Drop>)
    requires Reachable(c, s) && CoversStale(s, drops) && CandidatesAtEach(c, AllOffline(s, StaleDrivers(s)), drops)
    requires d in s.drivers && d !in s.heartbeats
    ensures var t := SweepWith(c, s, drops);
            d in t.drivers && (t.drivers[d].status == Offline <==> d in s.online || s.drivers[d].status == Offline)
  {
    if d in s.online {
      SweepClearsStaleDrivers(c, s, drops);
    } else {
      SweepSkipsGhosts(c, s, d, drops);
    }
  }

  // ----- exactly which offers the rejections clear -----

  /** The driver of the offer has no heartbeat, and no accept call of the ride is still to be completed. */
  predicate Silent(s: State, o: Offer) {
    o.driver !in s.heartbeats && o.ride !in s.inflight
  }

  /** A dispatch of another ride, or of one that finds the driver without heartbeat, leaves the offer as it is. */
  lemma SearchLeavesOffer(c: Config, s: State, r: RideId, round: nat, radius: real, near: seq<DriverId>, o: Offer)
    requires r in s.rides && s.rides[r].driver.None? && Candidates(s, near) && o.driver !in s.heartbeats
    ensures o in Search(c, s, r, round, radius, near).pending ==> o in s.pending
    ensures o.ride != r && o in s.pending ==> o in Search(c, s, r, round, radius, near).pending
  {
    ChosenDrivers(s, r, round, near, c.batchSize);
    var candidates := Eligible(s, r, round, near);
    CancelLeavesOffer(RemoveGhosts(s, GhostsScanned(s, candidates, c.batchSize)), r, o);
  }

  lemma CancelLeavesOffer(s: State, r: RideId, o: Offer)
    requires r in s.rides && s.rides[r].driver.None?
    ensures o in CancelExhausted(s, r).pending ==> o in s.pending
    ensures o.ride != r && o in s.pending ==> o in CancelExhausted(s, r).pending
  {
  }

  lemma DispatchLeavesOffer(c: Config, s: State, r: RideId, near: seq<DriverId>, o: Offer)
    requires r in s.rides && RideShape(s.rides[r], s.nextBatch) && Candidates(s, near) && o.driver !in s.heartbeats
    ensures o in Dispatch(c, s, r, near).pending ==> o in s.pending
    ensures o.ride != r && o in s.pending ==> o in Dispatch(c, s, r, near).pending
  {
    if s.rides[r].status == Requested || s.rides[r].status == Dispatching {
      var u := ExpireBatch(StartIfRequested(c, s, r), r);
      assert u.rides[r].driver.None? && u.heartbeats == s.heartbeats && u.geo == s.geo;
      assert o in u.pending ==> o in s.pending;
      assert o.ride != r && o in s.pending ==> o in u.pending;
      SearchLeavesOffer(c, u, r, s.rides[r].round, EntryRadius(c, s.rides[r]), near, o);
    }
  }

  /** While a driver has not answered, nobody else's rejection exhausts the batch. */
  lemma OpenOfferKeepsBatch(s: State, r: RideId, d: DriverId, o: Offer)
    requires Inv(s) && o in s.pending && o.ride == r && o.driver != d && r !in s.inflight
    ensures r in s.rides && !BatchExhausted(s, r, d)
  {
    assert LiveOffer(s.rides, s.responses, o);
    var b := s.rides[r].batch.value;
    assert o.driver in b.drivers && IsPending(s.responses, Offer(o.driver, r), b.id) by {
      assert Offer(o.driver, r) == o;
    }
  }

  /** An open offer of a ride nobody has accepted can be rejected. */
  lemma OpenOfferCanBeRejected(s: State, o: Offer)
    requires Inv(s) && o in s.pending && o.ride !in s.inflight
    ensures CanReject(s, o.ride, o.driver)
  {
    assert LiveOffer(s.rides, s.responses, o) && Offer(o.driver, o.ride) == o;
  }

  /** Of the offers of silent drivers, a rejection clears the one it is about and no other. */
  lemma RejectClearsOne(c: Config, s: State, r: RideId, d: DriverId, reason: string, near: seq<DriverId>, o: Offer)
    requires Inv(s) && Candidates(s, near) && Silent(s, o)
    ensures o in Reject(c, s, r, d, reason, near).pending <==> o in s.pending && o != Offer(d, r)
  {
    if o in s.pending {
      OpenOfferCanBeRejected(s, o);
      if o.ride == r && o.driver != d {
        OpenOfferKeepsBatch(s, r, d, o);
      }
    }
    RejectionClearsOne(c, s, r, d, reason, near, o);
  }

  lemma RejectionClearsOne(c: Config, s: State, r: RideId, d: DriverId, reason: string, near: seq<DriverId>, o: Offer)
    requires (r in s.rides ==> RideShape(s.rides[r], s.nextBatch)) && Candidates(s, near) && o.driver !in s.heartbeats
    requires o in s.pending ==> CanReject(s, o.ride, o.driver) && (o.ride == r && o.driver != d ==> !BatchExhausted(s, r, d))
    ensures o in Reject(c, s, r, d, reason, near).pending <==> o in s.pending && o != Offer(d, r)
  {
    assert o == Offer(o.driver, o.ride);
    if CanReject(s, r, d) {
      if BatchExhausted(s, r, d) {
        LastRejectionClearsOne(c, s, r, d, reason, near, o);
      } else {
        assert RecordRejection(c, s, r, d, reason).pending == s.pending - {Offer(d, r)};
      }
    }
  }

  lemma LastRejectionClearsOne(c: Config, s: State, r: RideId, d: DriverId, reason: string, near: seq<DriverId>, o: Offer)
    requires CanReject(s, r, d) && RideShape(s.rides[r], s.nextBatch) && Candidates(s, near) && o.driver !in s.heartbeats
    requires o in s.pending && o.ride == r ==> o.driver == d
    ensures o in Dispatch(c, RecordRejection(c, s, r, d, reason), r, near).pending <==> o in s.pending && o != Offer(d, r)
  {
    var u := RecordRejection(c, s, r, d, reason);
    assert u.pending == s.pending - {Offer(d, r)};
    assert o.ride == r && o.driver == d ==> o == Offer(d, r);
    RejectionRide(c, s, r, d, reason);
    DispatchLeavesOffer(c, u, r, near, o);
  }

  /** Rejections give nobody a heartbeat and put no accept call in flight. */
  lemma DropStaysSilent(c: Config, s: State, drop: Drop, o: Offer)
    requires Inv(s) && Candidates(s, drop.near) && Silent(s, o)
    ensures Silent(DropOne(c, s, drop), o)
  {
    RejectUndisturbing(c, s, drop.offer.ride, drop.offer.driver, drop.reason, drop.near, {});
  }

  predicate IsDropped(drops: seq<Drop>, o: Offer) {
    exists i :: 0 <= i < |drops| && drops[i].offer == o
  }

  /** However many rejections are made: an offer of a silent driver is open afterwards when it was before and was not rejected. */
  lemma {:induction false} DropsClearExactly(c: Config, s: State, drops: seq<Drop>, o: Offer)
    requires Inv(s) && CandidatesAtEach(c, s, drops) && Silent(s, o)
    ensures o in DropAll(c, s, drops).pending <==> o in s.pending && !IsDropped(drops, o)
    decreases |drops|
  {
    if drops != [] {
      var drop, u := drops[0], DropOne(c, s, drops[0]);
      RejectClearsOne(c, s, drop.offer.ride, drop.offer.driver, drop.reason, drop.near, o);
      DropStaysSilent(c, s, drop, o);
      RejectKeeps(c, s, drop.offer.ride, drop.offer.driver, drop.reason, drop.near);
      DropsClearExactly(c, u, drops[1..], o);
      DroppedFirstOrLater(drops, o);
      assert Offer(drop.offer.driver, drop.offer.ride) == drop.offer;
    }
  }

  lemma DroppedFirstOrLater(drops: seq<Drop>, o: Offer)
    requires drops != []
    ensures IsDropped(drops, o) <==> drops[0].offer == o || IsDropped(drops[1..], o)
  {
    if i :| 0 <= i < |drops[1..]| && drops[1..][i].offer == o {
      assert drops[i + 1].offer == o;
    }
    if i :| 0 < i < |drops| && drops[i].offer == o {
      assert drops[1..][i - 1].offer == o;
    }
  }

  /**
   * Exactly when an open offer of a driver without heartbeat outlives the sweep: when the driver was no longer in the online
   * set, so that the scan did not visit it.
   */
  lemma OfferOutlivesSweep(c: Config, s: State, o: Offer, drops: seq<Drop>)
    requires Reachable(c, s) && CoversStale(s, drops) && CandidatesAtEach(c, AllOffline(s, StaleDrivers(s)), drops)
    requires Silent(s, o)
    ensures o in SweepWith(c, s, drops).pending <==> o.driver !in s.online && o in s.pending
  {
    ReachableKeeps(c, s);
    SweepClearsTheVisited(c, s, o, drops);
  }

  lemma SweepClearsTheVisited(c: Config, s: State, o: Offer, drops: seq<Drop>)
    requires Inv(s) && CoversStale(s, drops) && CandidatesAtEach(c, AllOffline(s, StaleDrivers(s)), drops) && Silent(s, o)
    ensures o in SweepWith(c, s, drops).pending <==> o.driver !in s.online && o in s.pending
  {
    AllOfflineKeeps(s, StaleDrivers(s));
    DropsClearExactly(c, AllOffline(s, StaleDrivers(s)), drops, o);
  }

  // ----- a sweep that stops half way -----

  /** The scan took `ds` offline, the recovery made the rejections `drops`, and then a lock was busy. */
  function SweepCut(c: Config, s: State, ds: set<DriverId>, drops: seq<Drop>): State {
    DropAll(c, AllOffline(s, ds), drops)
  }

  /**
   * Exactly what a sweep that stops half way has cleared: the offers it rejected. The drivers it took offline are off duty, and
   * the next sweep does not visit them.
   */
  lemma CutSweepLeavesTheRest(c: Config, s: State, ds: set<DriverId>, drops: seq<Drop>, o: Offer)
    requires Inv(s) && ds <= StaleDrivers(s) && CandidatesAtEach(c, AllOffline(s, ds), drops) && Silent(s, o)
    ensures var t := SweepCut(c, s, ds, drops);
            && Inv(t) && StaleDrivers(t) !! ds && (forall d :: d in ds ==> OffDuty(t, d))
            && (o in t.pending <==> o in s.pending && !IsDropped(drops, o))
            && (o.driver in ds ==> forall later :: CoversStale(t, later) && CandidatesAtEach(c, AllOffline(t, StaleDrivers(t)), later) ==>
                  (o in SweepWith(c, t, later).pending <==> o in t.pending))
  {
    var t := SweepCut(c, s, ds, drops);
    CutSweepFacts(c, s, ds, drops, o);
    forall later | CoversStale(t, later) && CandidatesAtEach(c, AllOffline(t, StaleDrivers(t)), later) && o.driver in ds
      ensures o in SweepWith(c, t, later).pending <==> o in t.pending
    {
      SweepClearsTheVisited(c, t, o, later);
    }
  }

  lemma CutSweepFacts(c: Config, s: State, ds: set<DriverId>, drops: seq<Drop>, o: Offer)
    requires Inv(s) && ds <= StaleDrivers(s) && CandidatesAtEach(c, AllOffline(s, ds), drops) && Silent(s, o)
    ensures var t := SweepCut(c, s, ds, drops);
            && Inv(t) && StaleDrivers(t) !! ds && (forall d :: d in ds ==> OffDuty(t, d)) && Silent(t, o)
            && (o in t.pending <==> o in s.pending && !IsDropped(drops, o))
  {
    AllOfflineKeeps(s, ds);
    var u := AllOffline(s, ds);
    DropsClearExactly(c, u, drops, o);
    CutSweepKeeps(c, u, drops);
    CutSweepStaysSilent(c, u, drops, o);
  }

  lemma CutSweepStaysSilent(c: Config, s: State, drops: seq<Drop>, o: Offer)
    requires Inv(s) && CandidatesAtEach(c, s, drops) && Silent(s, o)
    ensures Silent(DropAll(c, s, drops), o)
    decreases |drops|
  {
    if drops != [] {
      DropStaysSilent(c, s, drops[0], o);
      RejectKeeps(c, s, drops[0].offer.ride, drops[0].offer.driver, drops[0].reason, drops[0].near);
      CutSweepStaysSilent(c, DropOne(c, s, drops[0]), drops[1..], o);
    }
  }

  lemma CutSweepKeeps(c: Config, s: State, drops: seq<Drop>)
    requires Inv(s) && CandidatesAtEach(c, s, drops)
    ensures var t := DropAll(c, s, drops);
            Inv(t) && t.drivers == s.drivers && t.online <= s.online
    decreases |drops|
  {
    if drops != [] {
      var u := DropOne(c, s, drops[0]);
      RejectUndisturbing(c, s, drops[0].offer.ride, drops[0].offer.driver, drops[0].reason, drops[0].near, {});
      CutSweepKeeps(c, u, drops[1..]);
    }
  }

  // ----- a sweep with other calls in between -----

  /** The driver has gone offline. */
  predicate OffDuty(s: State, d: DriverId) {
    d in s.drivers && s.drivers[d].status == Offline && d !in s.online
  }

  /** Nobody offers anything to `d`. */
  ghost predicate OfferedNothing(s: State, t: State, d: DriverId) {
    && (forall o :: o in t.pending && o.driver == d ==> o in s.pending)
    && s.log <= t.log && (forall e :: e in t.log[|s.log|..] && e.RideRequest? ==> e.driver != d)
  }

  lemma OfferedNothingTwice(s: State, u: State, t: State, d: DriverId)
    requires OfferedNothing(s, u, d) && OfferedNothing(u, t, d)
    ensures OfferedNothing(s, t, d)
  {
    assert t.log[|s.log|..] == u.log[|s.log|..] + t.log[|u.log|..];
  }

  lemma DispatchStepPassesBy(c: Config, s: State, step: Step, d: DriverId)
    requires Inv(s) && Enabled(s, step) && (step.Dispatches? || step.BatchTimesOut? || step.Rejects?) && OffDuty(s, d)
    ensures OffDuty(Apply(c, s, step), d) && OfferedNothing(s, Apply(c, s, step), d)
  {
    match step
    case Dispatches(r, near) => DispatchUndisturbing(c, s, r, near, {d});
    case BatchTimesOut(r, b, near) => TimeoutUndisturbing(c, s, r, b, near, {d});
    case Rejects(r, e, reason, near) => RejectUndisturbing(c, s, r, e, reason, near, {d});
  }

  lemma TransitionPassesBy(s: State, r: RideId, next: RideStatus, d: DriverId)
    requires OffDuty(s, d)
    ensures OffDuty(Transition(s, r, next), d) && OfferedNothing(s, Transition(s, r, next), d)
  {
    if CanTransition(s, r, next) {
      var u := Moved(s, r, next);
      assert OffDuty(u, d) && OfferedNothing(s, u, d);
      CleanupPassesBy(u, r, d);
      OfferedNothingTwice(s, u, CleanupTerminal(u, r), d);
    }
  }

  lemma CleanupPassesBy(s: State, r: RideId, d: DriverId)
    requires OffDuty(s, d) && r in s.rides
    ensures OffDuty(CleanupTerminal(s, r), d) && OfferedNothing(s, CleanupTerminal(s, r), d)
  {
  }

  lemma AcceptPassesBy(c: Config, s: State, step: Step, d: DriverId)
    requires (step.Accepts? || step.ScriptRuns? || step.AcceptFinishes?) && OffDuty(s, d)
    ensures OffDuty(Apply(c, s, step), d) && OfferedNothing(s, Apply(c, s, step), d)
  {
    if step.ScriptRuns? {
      ScriptPassesBy(s, step.ride, step.driver, step.seen, step.at, d);
    } else if step.AcceptFinishes? {
      SettlePassesBy(s, step.ride, d);
    } else if step.ride in s.rides {
      var won := AcceptScript(s, step.ride, step.driver, s.rides[step.ride].batch, s.now);
      ScriptPassesBy(s, step.ride, step.driver, s.rides[step.ride].batch, s.now, d);
      AcceptRestPassesBy(s, won, step.ride, d);
    }
  }

  lemma ScriptPassesBy(s: State, r: RideId, e: DriverId, seen: Option<Batch>, at: int, d: DriverId)
    requires OffDuty(s, d)
    ensures OffDuty(AcceptScript(s, r, e, seen, at), d) && OfferedNothing(s, AcceptScript(s, r, e, seen, at), d)
  {
  }

  lemma AcceptRestPassesBy(s: State, won: State, r: RideId, d: DriverId)
    requires OffDuty(won, d) && OfferedNothing(s, won, d)
    ensures var t := AcceptCleanup(AcceptReadBack(won, r), r); OffDuty(t, d) && OfferedNothing(s, t, d)
  {
    var u := AcceptReadBack(won, r);
    assert u.log == won.log && u.pending == won.pending && OffDuty(u, d);
    SettlePassesBy(u, r, d);
    OfferedNothingTwice(s, u, AcceptCleanup(u, r), d);
  }

  lemma SettlePassesBy(s: State, r: RideId, d: DriverId)
    requires OffDuty(s, d)
    ensures OffDuty(AcceptCleanup(s, r), d) && OfferedNothing(s, AcceptCleanup(s, r), d)
  {
  }

  lemma OtherStepPassesBy(c: Config, s: State, step: Step, d: DriverId)
    requires OffDuty(s, d) && (step.Requests? || !(ConcernsRide(step) || Transitions(step)))
    requires !(step.ComesOnline? && step.driver == d)
    ensures OffDuty(Apply(c, s, step), d) && OfferedNothing(s, Apply(c, s, step), d)
  {
  }

  /** No step but its own return online puts a driver back to work or offers it anything. */
  lemma StepPassesBy(c: Config, s: State, step: Step, d: DriverId)
    requires Inv(s) && Enabled(s, step) && OffDuty(s, d) && !(step.ComesOnline? && step.driver == d)
    ensures OffDuty(Apply(c, s, step), d) && OfferedNothing(s, Apply(c, s, step), d)
  {
    if step.Dispatches? || step.BatchTimesOut? || step.Rejects? {
      DispatchStepPassesBy(c, s, step, d);
    } else if step.Accepts? || step.ScriptRuns? || step.AcceptFinishes? {
      AcceptPassesBy(c, s, step, d);
    } else if Transitions(step) {
      TransitionPassesBy(s, step.ride,
                         if step.Arrives? then Arriving else if step.Starts? then Ongoing else if step.Completes? then Completed else Cancelled, d);
    } else {
      OtherStepPassesBy(c, s, step, d);
    }
  }

  ghost predicate StaysAway(steps: seq<Step>, i: nat, j: nat, d: DriverId)
    requires j <= |steps|
  {
    forall k :: i <= k < j ==> !(steps[k].ComesOnline? && steps[k].driver == d)
  }

  ghost predicate PassesBy(s: State, t: State, d: DriverId) {
    OffDuty(s, d) ==> OffDuty(t, d) && OfferedNothing(s, t, d)
  }

  /** Whatever else runs meanwhile, a driver that has gone offline gains no offer, no request and no reservation until it returns. */
  lemma OffDutyGainsNothing(c: Config, ss: seq<State>, steps: seq<Step>, i: nat, j: nat, d: DriverId)
    requires IsRun(c, ss, steps) && i <= j < |ss| && OffDuty(ss[i], d) && StaysAway(steps, i, j, d)
    ensures OffDuty(ss[j], d) && OfferedNothing(ss[i], ss[j], d)
    ensures d !in ss[j].available && d !in ss[j].geo && d !in ss[j].busy && d !in ss[j].heartbeats && d !in ss[j].reservations
  {
    forall k | i <= k < j ensures PassesBy(ss[k], ss[k + 1], d) {
      if OffDuty(ss[k], d) {
        RunKeeps(c, ss, steps, k);
        StepPassesBy(c, ss[k], steps[k], d);
      }
    }
    PassedByAllAlong(ss, i, j, d);
    RunKeeps(c, ss, steps, j);
    OffDutyIsOut(ss[j], d);
  }

  lemma {:induction false} PassedByAllAlong(ss: seq<State>, i: nat, j: nat, d: DriverId)
    requires i <= j < |ss| && OffDuty(ss[i], d) && forall k :: i <= k < j ==> PassesBy(ss[k], ss[k + 1], d)
    ensures OffDuty(ss[j], d) && OfferedNothing(ss[i], ss[j], d)
    decreases j
  {
    if i < j {
      PassedByAllAlong(ss, i, j - 1, d);
      assert PassesBy(ss[j - 1], ss[j - 1 + 1], d);
      OfferedNothingTwice(ss[i], ss[j - 1], ss[j], d);
    }
  }

  lemma OffDutyIsOut(s: State, d: DriverId)
    requires Inv(s) && OffDuty(s, d)
    ensures d !in s.available && d !in s.geo && d !in s.busy && d !in s.heartbeats && d !in s.reservations
  {
  }

  /** A rejection on behalf of a driver off duty settles the offer for good, unless an accept call is about to clear it. */
  lemma RejectedForGood(c: Config, ss: seq<State>, steps: seq<Step>, k: nat, n: nat, o: Offer)
    requires IsRun(c, ss, steps) && k < n < |ss| && OffDuty(ss[k], o.driver) && StaysAway(steps, k, n, o.driver)
    requires steps[k].Rejects? && steps[k].ride == o.ride && steps[k].driver == o.driver
    ensures o in ss[n].pending ==> o.ride in ss[n].inflight
  {
    OffDutyGainsNothing(c, ss, steps, k, n, o.driver);
    OffDutyGainsNothing(c, ss, steps, k, k + 1, o.driver);
    OffDutyGainsNothing(c, ss, steps, k + 1, n, o.driver);
    RunKeeps(c, ss, steps, n);
    if o in ss[n].pending && o.ride !in ss[n].inflight {
      assert LiveOffer(ss[n].rides, ss[n].responses, o);
      StillDispatching(c, ss, steps, k, n, o);
      RejectedNow(c, ss, steps, k, o);
    }
  }

  lemma RejectedNow(c: Config, ss: seq<State>, steps: seq<Step>, k: nat, o: Offer)
    requires IsRun(c, ss, steps) && k < |steps| && OffDuty(ss[k], o.driver) && o.ride !in ss[k].inflight
    requires steps[k].Rejects? && steps[k].ride == o.ride && steps[k].driver == o.driver
    ensures o !in ss[k + 1].pending
  {
    RunKeeps(c, ss, steps, k);
    OffDutyIsOut(ss[k], o.driver);
    RejectClearsOne(c, ss[k], o.ride, o.driver, steps[k].reason, steps[k].near, o);
    assert Offer(o.driver, o.ride) == o;
  }

  lemma StillDispatching(c: Config, ss: seq<State>, steps: seq<Step>, k: nat, n: nat, o: Offer)
    requires IsRun(c, ss, steps) && k <= n < |ss| && o in ss[k].pending
    requires o.ride in ss[n].rides && ss[n].rides[o.ride].status == Dispatching
    ensures o.ride !in ss[k].inflight
  {
    RunKeeps(c, ss, steps, k);
    if o.ride in ss[k].rides {
      RidesOnlyAdvance(c, ss, steps, k, n, o.ride);
    }
  }

  /**
   * An offer that a sweep has missed of a driver it took offline is missed by every later sweep too, whatever runs before
   * that one, until the driver comes online again.
   */
  lemma MissedByEveryLaterSweep(c: Config, ss: seq<State>, steps: seq<Step>, i: nat, j: nat, o: Offer, drops: seq<Drop>)
    requires IsRun(c, ss, steps) && i <= j < |ss| && OffDuty(ss[i], o.driver) && StaysAway(steps, i, j, o.driver)
    requires CoversStale(ss[j], drops) && CandidatesAtEach(c, AllOffline(ss[j], StaleDrivers(ss[j])), drops)
    requires o.ride !in ss[j].inflight
    ensures o in SweepWith(c, ss[j], drops).pending <==> o in ss[j].pending
  {
    OffDutyGainsNothing(c, ss, steps, i, j, o.driver);
    RunKeeps(c, ss, steps, j);
    SweepClearsTheVisited(c, ss[j], o, drops);
  }

  /**
   * The sweep of one driver, with any other calls between its parts: taken offline at step `i`, rejected for every offer it
   * had open then by step `n`. If it has not come back online, it ends off duty with no open offer but those an accept call
   * is about to clear.
   */
  lemma SweepAmidOtherCalls(c: Config, ss: seq<State>, steps: seq<Step>, i: nat, n: nat, d: DriverId)
    requires IsRun(c, ss, steps) && i < n < |ss| && steps[i] == Leaves(d) && StaysAway(steps, i, n, d)
    requires forall o :: o in ss[i].pending && o.driver == d ==>
               exists k :: i < k < n && steps[k].Rejects? && steps[k].ride == o.ride && steps[k].driver == d
    ensures OffDuty(ss[n], d) && OfferedNothing(ss[i], ss[n], d)
    ensures d !in ss[n].available && d !in ss[n].geo && d !in ss[n].busy && d !in ss[n].heartbeats && d !in ss[n].reservations
    ensures forall o :: o in ss[n].pending && o.driver == d ==> o.ride in ss[n].inflight
  {
    assert ss[i + 1] == GoOffline(ss[i], d);
    OffDutyGainsNothing(c, ss, steps, i + 1, n, d);
    OfferedNothingTwice(ss[i], ss[i + 1], ss[n], d);
    forall o | o in ss[n].pending && o.driver == d ensures o.ride in ss[n].inflight {
      var k :| i < k < n && steps[k].Rejects? && steps[k].ride == o.ride && steps[k].driver == d;
      OffDutyGainsNothing(c, ss, steps, i + 1, k, d);
      RejectedForGood(c, ss, steps, k, n, o);
    }
  }
}
