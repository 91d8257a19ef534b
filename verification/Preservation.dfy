/** Every write of every service call keeps the invariants. */
module Preservation {
  import opened Wrappers
  import opened Types
  import opened Lifecycle
  import opened Steps
  import opened Invariants

  // ----- frames: what a change to one ride leaves alone -----

  ghost predicate SameElsewhere(s: State, t: State, r: RideId) {
    && (forall q :: q in s.rides && q != r ==> q in t.rides && t.rides[q] == s.rides[q])
    && (forall q :: q in t.rides && q != r ==> q in s.rides)
    && (forall o :: o in s.responses && o.ride != r ==> o in t.responses && t.responses[o] == s.responses[o])
    && (forall o :: o in t.responses && o.ride != r ==> o in s.responses)
    && (forall o :: o in s.pending && o.ride != r ==> o in t.pending)
    && (forall o :: o in t.pending && o.ride != r ==> o in s.pending)
    && s.notified <= t.notified
    && s.online <= t.online
    && t.inflight == s.inflight
  }

  /** The offer facts survive when ride `r` ends up with no live batch and nothing of it is left behind. */
  lemma QuietRide(s: State, t: State, r: RideId)
    requires OfferInv(s) && SameElsewhere(s, t, r)
    requires r in t.rides && !(t.rides[r].status == Dispatching && t.rides[r].batch.Some?)
    requires forall d :: d in t.reservations ==>
               && d in s.reservations && t.reservations[d] == s.reservations[d]
               && (t.reservations[d].ride == r ==> IsOwed(s.inflight, r, d) && s.inflight[r].batch == t.reservations[d].batch)
    requires forall o :: o in t.pending && o.ride == r ==> IsOwed(s.inflight, r, o.driver)
    ensures OfferInv(t)
  {
  }

  /** A ride that has no live batch has no reservations and no index entries but owed ones. */
  lemma NothingOutstanding(s: State, r: RideId)
    requires OfferInv(s)
    requires r in s.rides ==> !(s.rides[r].status == Dispatching && s.rides[r].batch.Some?)
    ensures forall d :: d in s.reservations && s.reservations[d].ride == r ==>
              IsOwed(s.inflight, r, d) && s.inflight[r].batch == s.reservations[d].batch
    ensures forall o :: o in s.pending && o.ride == r ==> IsOwed(s.inflight, r, o.driver)
  {
  }

  lemma BoundElsewhere(rides: map<RideId, Ride>, r: RideId, next: Ride, drivers: map<DriverId, Driver>, activeKey: map<DriverId, RideId>)
    requires Bound(rides, drivers, activeKey)
    requires r in rides ==> !Lifecycle.Assigned(rides[r].status)
    requires !Lifecycle.Assigned(next.status)
    ensures Bound(rides[r := next], drivers, activeKey)
  {
  }

  lemma CustomersElsewhere(rides: map<RideId, Ride>, r: RideId, next: Ride, customerRide: map<CustomerId, RideId>, activeRides: set<RideId>)
    requires Customers(rides, customerRide, activeRides)
    requires r in rides && next.customer == rides[r].customer && !Terminal(rides[r].status) && !Terminal(next.status)
    ensures Customers(rides[r := next], customerRide, activeRides)
  {
  }

  lemma ShapeElsewhere(s: State, t: State, r: RideId, next: Ride)
    requires Shape(s.rides, s.responses, s.notified, s.drivers, s.nextRide, s.nextBatch)
    requires t.rides == s.rides[r := next] && RideShape(next, t.nextBatch) && r < t.nextRide
    requires s.nextRide <= t.nextRide && s.nextBatch <= t.nextBatch
    requires forall o :: o in t.responses && o !in s.responses ==> o.ride == r
    requires forall o :: o in t.responses && t.responses[o].Pending? ==>
               (o in s.responses && t.responses[o] == s.responses[o]) || t.responses[o].batch < t.nextBatch
    requires forall o :: o in t.notified && o !in s.notified ==> o.ride == r && o.driver in t.drivers
    requires s.drivers.Keys <= t.drivers.Keys
    ensures Shape(t.rides, t.responses, t.notified, t.drivers, t.nextRide, t.nextBatch)
  {
  }

  lemma FlightElsewhere(rides: map<RideId, Ride>, r: RideId, next: Ride, inflight: map<RideId, Owed>)
    requires Flight(rides, inflight)
    requires r !in inflight || (next.status != Requested && next.status != Dispatching)
    ensures Flight(rides[r := next], inflight)
  {
  }

  // ----- dispatch writes -----

  /** Only the dispatch keys of ride `r` change, and it is left dispatching. */
  ghost predicate DispatchOnly(s: State, t: State, r: RideId, next: Ride) {
    && r in s.rides && t.rides == s.rides[r := next]
    && RideShape(next, t.nextBatch) && next.status == Dispatching && next.customer == s.rides[r].customer
    && (forall o :: o in t.responses && o !in s.responses ==> o.ride == r)
    && (forall o :: o in t.responses && t.responses[o].Pending? ==>
          (o in s.responses && t.responses[o] == s.responses[o]) || t.responses[o].batch < t.nextBatch)
    && (forall o :: o in t.notified && o !in s.notified ==> o.ride == r && o.driver in s.drivers)
    && t.nextRide == s.nextRide && s.nextBatch <= t.nextBatch
    && t.drivers == s.drivers && t.activeKey == s.activeKey && t.inflight == s.inflight
    && t.heartbeats == s.heartbeats && t.online == s.online && t.available == s.available && t.geo == s.geo && t.busy == s.busy
    && t.customerRide == s.customerRide && t.activeRides == s.activeRides
  }

  lemma DispatchFrame(s: State, t: State, r: RideId, next: Ride)
    requires Inv(s) && r in s.rides && (s.rides[r].status == Requested || s.rides[r].status == Dispatching)
    requires DispatchOnly(s, t, r, next)
    requires OfferInv(t)
    ensures Inv(t)
  {
    BoundElsewhere(s.rides, r, next, s.drivers, s.activeKey);
    CustomersElsewhere(s.rides, r, next, s.customerRide, s.activeRides);
    ShapeElsewhere(s, t, r, next);
    FlightElsewhere(s.rides, r, next, s.inflight);
  }

  /** The ride is left dispatching without a batch. */
  ghost predicate QuietDispatch(s: State, t: State, r: RideId, next: Ride) {
    DispatchOnly(s, t, r, next) && SameElsewhere(s, t, r) && next.batch.None?
  }

  lemma QuietDispatchKeeps(s: State, t: State, r: RideId, next: Ride)
    requires Inv(s) && r in s.rides && (s.rides[r].status == Requested || s.rides[r].status == Dispatching)
    requires QuietDispatch(s, t, r, next)
    requires forall d :: d in t.reservations ==>
               d in s.reservations && t.reservations[d] == s.reservations[d] && t.reservations[d].ride != r
    requires forall o :: o in t.pending ==> o.ride != r
    ensures Inv(t)
  {
    QuietRide(s, t, r);
    DispatchFrame(s, t, r, next);
  }

  lemma StartKeeps(c: Config, s: State, r: RideId)
    requires Inv(s) && r in s.rides
    ensures Inv(StartIfRequested(c, s, r))
  {
    if s.rides[r].status == Requested {
      var t := StartIfRequested(c, s, r);
      NothingOutstanding(s, r);
      assert r !in s.inflight;
      assert QuietDispatch(s, t, r, t.rides[r]) by { StartIsQuiet(c, s, r); }
      QuietDispatchKeeps(s, t, r, t.rides[r]);
    }
  }

  lemma StartIsQuiet(c: Config, s: State, r: RideId)
    requires r in s.rides && s.rides[r].status == Requested && RideShape(s.rides[r], s.nextBatch)
    ensures var t := StartIfRequested(c, s, r); QuietDispatch(s, t, r, t.rides[r])
  {
  }

  lemma ExpireKeeps(s: State, r: RideId)
    requires Inv(s) && r in s.rides && s.rides[r].status == Dispatching
    ensures Inv(ExpireBatch(s, r))
  {
    if s.rides[r].batch.Some? {
      var t := ExpireBatch(s, r);
      assert QuietDispatch(s, t, r, t.rides[r]) by { ExpireIsQuiet(s, r); }
      ExpireReleases(s, r);
      QuietDispatchKeeps(s, t, r, t.rides[r]);
    }
  }

  lemma ExpireIsQuiet(s: State, r: RideId)
    requires r in s.rides && s.rides[r].status == Dispatching && s.rides[r].batch.Some? && RideShape(s.rides[r], s.nextBatch)
    ensures var t := ExpireBatch(s, r); QuietDispatch(s, t, r, t.rides[r])
  {
  }

  lemma ExpireReleases(s: State, r: RideId)
    requires OfferInv(s) && r in s.rides && s.rides[r].status == Dispatching && s.rides[r].batch.Some? && r !in s.inflight
    ensures forall d :: d in ExpireBatch(s, r).reservations ==>
              d in s.reservations && ExpireBatch(s, r).reservations[d] == s.reservations[d] && s.reservations[d].ride != r
    ensures forall o :: o in ExpireBatch(s, r).pending ==> o.ride != r
  {
  }

  lemma ExpandKeeps(c: Config, s: State, r: RideId, round: nat, radius: real)
    requires Inv(s) && r in s.rides && s.rides[r].status == Dispatching && s.rides[r].batch.None?
    ensures Inv(ExpandSearch(c, s, r, round, radius))
  {
    var t := ExpandSearch(c, s, r, round, radius);
    NothingOutstanding(s, r);
    assert r !in s.inflight;
    assert QuietDispatch(s, t, r, t.rides[r]) by { ExpandIsQuiet(c, s, r, round, radius); }
    QuietDispatchKeeps(s, t, r, t.rides[r]);
  }

  lemma ExpandIsQuiet(c: Config, s: State, r: RideId, round: nat, radius: real)
    requires r in s.rides && s.rides[r].status == Dispatching && RideShape(s.rides[r], s.nextBatch)
    ensures var t := ExpandSearch(c, s, r, round, radius); QuietDispatch(s, t, r, t.rides[r])
  {
  }

  lemma GhostsKeep(s: State, ghosts: set<DriverId>)
    requires Inv(s)
    ensures Inv(RemoveGhosts(s, ghosts))
  {
  }

  lemma RejectionKeeps(c: Config, s: State, r: RideId, d: DriverId, reason: string)
    requires Inv(s) && CanReject(s, r, d)
    ensures Inv(RecordRejection(c, s, r, d, reason))
  {
    var t := RecordRejection(c, s, r, d, reason);
    if BatchExhausted(s, r, d) {
      assert QuietDispatch(s, t, r, t.rides[r]) by { FinalRejectionIsQuiet(c, s, r, d, reason); }
      FinalRejectionReleases(c, s, r, d, reason);
      QuietDispatchKeeps(s, t, r, t.rides[r]);
    } else {
      OpenRejectionTokens(c, s, r, d, reason);
      OpenRejectionOffered(c, s, r, d, reason);
      OpenRejectionIndex(c, s, r, d, reason);
      OpenRejectionFrame(c, s, r, d, reason);
      DispatchFrame(s, t, r, t.rides[r]);
    }
  }

  lemma FinalRejectionIsQuiet(c: Config, s: State, r: RideId, d: DriverId, reason: string)
    requires CanReject(s, r, d) && BatchExhausted(s, r, d) && RideShape(s.rides[r], s.nextBatch)
    ensures var t := RecordRejection(c, s, r, d, reason); QuietDispatch(s, t, r, t.rides[r])
  {
  }

  lemma FinalRejectionReleases(c: Config, s: State, r: RideId, d: DriverId, reason: string)
    requires OfferInv(s) && CanReject(s, r, d) && BatchExhausted(s, r, d) && r !in s.inflight
    ensures var t := RecordRejection(c, s, r, d, reason);
            forall e :: e in t.reservations ==>
              e in s.reservations && t.reservations[e] == s.reservations[e] && s.reservations[e].ride != r
    ensures forall o :: o in RecordRejection(c, s, r, d, reason).pending ==> o.ride != r
  {
    FinalRejectionClears(c, s, r, d, reason);
  }

  lemma FinalRejectionClears(c: Config, s: State, r: RideId, d: DriverId, reason: string)
    requires OfferInv(s) && CanReject(s, r, d) && BatchExhausted(s, r, d) && r !in s.inflight
    ensures forall o :: o in RecordRejection(c, s, r, d, reason).pending ==> o.ride != r
  {
    forall o | o in s.pending && o.ride == r ensures o == Offer(d, r) {
      assert LiveOffer(s.rides, s.responses, o) && o == Offer(o.driver, r);
    }
  }

  // A rejection that leaves somebody else to answer.

  lemma OpenRejectionTokens(c: Config, s: State, r: RideId, d: DriverId, reason: string)
    requires Tokens(s.rides, s.responses, s.reservations, s.inflight, s.online)
    requires CanReject(s, r, d) && !BatchExhausted(s, r, d) && r !in s.inflight
    ensures var t := RecordRejection(c, s, r, d, reason);
            Tokens(t.rides, t.responses, t.reservations, t.inflight, t.online)
  {
    var t := RecordRejection(c, s, r, d, reason);
    forall e | e in t.reservations
      ensures e in t.online
      ensures var u := t.reservations[e];
              Live(t.rides, t.responses, u.ride, e, u.batch) || (IsOwed(t.inflight, u.ride, e) && t.inflight[u.ride].batch == u.batch)
    {
      OpenRejectionToken(c, s, r, d, reason, e);
    }
  }

  lemma OpenRejectionToken(c: Config, s: State, r: RideId, d: DriverId, reason: string, e: DriverId)
    requires Tokens(s.rides, s.responses, s.reservations, s.inflight, s.online)
    requires CanReject(s, r, d) && !BatchExhausted(s, r, d) && r !in s.inflight
    requires e in RecordRejection(c, s, r, d, reason).reservations
    ensures var t := RecordRejection(c, s, r, d, reason);
            var u := t.reservations[e];
            && e in t.online
            && (Live(t.rides, t.responses, u.ride, e, u.batch) || (IsOwed(t.inflight, u.ride, e) && t.inflight[u.ride].batch == u.batch))
  {
    assert e in s.reservations && RecordRejection(c, s, r, d, reason).reservations[e] == s.reservations[e];
  }

  lemma OpenRejectionOffered(c: Config, s: State, r: RideId, d: DriverId, reason: string)
    requires Offered(s.rides, s.responses, s.notified)
    requires CanReject(s, r, d) && !BatchExhausted(s, r, d)
    ensures var t := RecordRejection(c, s, r, d, reason);
            Offered(t.rides, t.responses, t.notified)
  {
  }

  lemma OpenRejectionIndex(c: Config, s: State, r: RideId, d: DriverId, reason: string)
    requires Index(s.rides, s.responses, s.pending, s.inflight)
    requires CanReject(s, r, d) && !BatchExhausted(s, r, d)
    ensures var t := RecordRejection(c, s, r, d, reason);
            Index(t.rides, t.responses, t.pending, t.inflight)
  {
  }

  lemma OpenRejectionFrame(c: Config, s: State, r: RideId, d: DriverId, reason: string)
    requires CanReject(s, r, d) && !BatchExhausted(s, r, d) && RideShape(s.rides[r], s.nextBatch)
    ensures var t := RecordRejection(c, s, r, d, reason); DispatchOnly(s, t, r, t.rides[r])
  {
  }

  lemma SendKeeps(c: Config, s: State, r: RideId, chosen: seq<DriverId>)
    requires Inv(s) && r in s.rides && s.rides[r].status == Dispatching && s.rides[r].batch.None?
    requires chosen != [] && Distinct(chosen)
    requires forall d :: d in chosen ==> d in s.online && d in s.drivers
    ensures Inv(SendBatch(c, s, r, chosen))
  {
    var t := SendBatch(c, s, r, chosen);
    NothingOutstanding(s, r);
    SentTokens(c, s, r, chosen);
    SentOffered(c, s, r, chosen);
    SentIndex(c, s, r, chosen);
    SentFrame(c, s, r, chosen);
    DispatchFrame(s, t, r, t.rides[r]);
  }

  lemma SentFrame(c: Config, s: State, r: RideId, chosen: seq<DriverId>)
    requires r in s.rides && s.rides[r].status == Dispatching && RideShape(s.rides[r], s.nextBatch)
    requires forall d :: d in chosen ==> d in s.drivers
    ensures var t := SendBatch(c, s, r, chosen); DispatchOnly(s, t, r, t.rides[r])
  {
  }

  lemma SentTokens(c: Config, s: State, r: RideId, chosen: seq<DriverId>)
    requires Tokens(s.rides, s.responses, s.reservations, s.inflight, s.online)
    requires r in s.rides && s.rides[r].status == Dispatching && s.rides[r].batch.None?
    requires forall d :: d in s.reservations ==> s.reservations[d].ride != r
    requires forall d :: d in chosen ==> d in s.online
    ensures var t := SendBatch(c, s, r, chosen);
            Tokens(t.rides, t.responses, t.reservations, t.inflight, t.online)
  {
    var t := SendBatch(c, s, r, chosen);
    forall d | d in t.reservations
      ensures d in t.online
      ensures var u := t.reservations[d];
              Live(t.rides, t.responses, u.ride, d, u.batch) || (IsOwed(t.inflight, u.ride, d) && t.inflight[u.ride].batch == u.batch)
    {
      if d in chosen {
        SentToken(c, s, r, chosen, d);
      } else {
        OtherToken(c, s, r, chosen, d);
      }
    }
  }

  lemma SentToken(c: Config, s: State, r: RideId, chosen: seq<DriverId>, d: DriverId)
    requires r in s.rides && s.rides[r].status == Dispatching && d in chosen
    ensures var t := SendBatch(c, s, r, chosen);
            d in t.reservations && t.reservations[d] == Token(r, s.nextBatch) && Live(t.rides, t.responses, r, d, s.nextBatch)
  {
    assert Offer(d, r) in Offers(chosen, r);
  }

  lemma OtherToken(c: Config, s: State, r: RideId, chosen: seq<DriverId>, d: DriverId)
    requires r in s.rides && d !in chosen && d in s.reservations && s.reservations[d].ride != r
    ensures var t := SendBatch(c, s, r, chosen);
            var u := s.reservations[d];
            && d in t.reservations && t.reservations[d] == u
            && (Live(s.rides, s.responses, u.ride, d, u.batch) ==> Live(t.rides, t.responses, u.ride, d, u.batch))
  {
    assert Offer(d, s.reservations[d].ride) !in Offers(chosen, r);
  }

  lemma SentOffered(c: Config, s: State, r: RideId, chosen: seq<DriverId>)
    requires Offered(s.rides, s.responses, s.notified)
    requires r in s.rides && s.rides[r].status == Dispatching && s.rides[r].batch.None?
    requires forall o :: o in s.responses && s.responses[o].Pending? ==> s.responses[o].batch < s.nextBatch
    requires chosen != [] && Distinct(chosen)
    ensures var t := SendBatch(c, s, r, chosen);
            Offered(t.rides, t.responses, t.notified)
  {
    var t := SendBatch(c, s, r, chosen);
    SentHere(c, s, r, chosen);
    assert forall o :: o in t.responses && o.ride != r ==> o in s.responses && t.responses[o] == s.responses[o];
    assert forall o :: o in s.responses && o.ride != r ==> o in t.responses && t.responses[o] == s.responses[o];
  }

  lemma SentHere(c: Config, s: State, r: RideId, chosen: seq<DriverId>)
    requires r in s.rides && chosen != []
    requires forall o :: o in s.responses && s.responses[o].Pending? ==> s.responses[o].batch < s.nextBatch
    ensures var t := SendBatch(c, s, r, chosen);
            && (forall d :: d in chosen ==> Offer(d, r) in t.notified)
            && (forall o :: o in t.responses && o.ride == r && IsPending(t.responses, o, s.nextBatch) ==> o.driver in chosen)
            && (exists d :: d in chosen && IsPending(t.responses, Offer(d, r), s.nextBatch))
  {
    var t := SendBatch(c, s, r, chosen);
    assert chosen[0] in chosen && IsPending(t.responses, Offer(chosen[0], r), s.nextBatch);
  }

  lemma SentIndex(c: Config, s: State, r: RideId, chosen: seq<DriverId>)
    requires Index(s.rides, s.responses, s.pending, s.inflight)
    requires r in s.rides && s.rides[r].status == Dispatching && s.rides[r].batch.None?
    requires forall o :: o in s.responses && s.responses[o].Pending? ==> s.responses[o].batch < s.nextBatch
    requires forall o :: o in s.pending ==> o.ride != r
    ensures var t := SendBatch(c, s, r, chosen);
            Index(t.rides, t.responses, t.pending, t.inflight)
  {
  }

  // ----- acceptance -----

  /** A reservation that matches the token of a pre-read batch proves that the batch is still current. */
  lemma ScriptSeesCurrentBatch(s: State, r: RideId, d: DriverId, seen: Option<Batch>, at: int)
    requires Inv(s) && AcceptCode(s, r, d, at, TokenOf(r, seen)) == 0
    ensures seen.Some? && seen.value.id == s.rides[r].batch.value.id
    ensures d in s.rides[r].batch.value.drivers && s.reservations[d] == Token(r, seen.value.id) && r !in s.inflight
  {
  }

  /** A call may commit in state `s` on the batch that is current there. */
  predicate Commits(s: State, r: RideId, d: DriverId, at: int) {
    r in s.rides && AcceptCode(s, r, d, at, TokenOf(r, s.rides[r].batch)) == 0
  }

  lemma ScriptKeeps(s: State, r: RideId, d: DriverId, at: int)
    requires Inv(s) && Commits(s, r, d, at)
    ensures Inv(AcceptScript(s, r, d, s.rides[r].batch, at))
  {
    ScriptSeesCurrentBatch(s, r, d, s.rides[r].batch, at);
    ScriptTokens(s, r, d, at);
    ScriptIndex(s, r, d, at);
    ScriptOffered(s, r, d, at);
    ScriptBound(s, r, d, at);
    ScriptShape(s, r, d, at);
    ScriptRest(s, r, d, at);
    ScriptPools(s, r, d, at);
  }

  lemma ScriptRest(s: State, r: RideId, d: DriverId, at: int)
    requires Commits(s, r, d, at)
    requires Customers(s.rides, s.customerRide, s.activeRides) && Flight(s.rides, s.inflight)
    ensures var t := AcceptScript(s, r, d, s.rides[r].batch, at);
            Customers(t.rides, t.customerRide, t.activeRides) && Flight(t.rides, t.inflight)
  {
    var t := AcceptScript(s, r, d, s.rides[r].batch, at);
    CustomersElsewhere(s.rides, r, t.rides[r], s.customerRide, s.activeRides);
    FlightElsewhere(s.rides, r, t.rides[r], s.inflight);
  }

  lemma ScriptTokens(s: State, r: RideId, d: DriverId, at: int)
    requires Commits(s, r, d, at) && r !in s.inflight
    requires Tokens(s.rides, s.responses, s.reservations, s.inflight, s.online)
    ensures var t := AcceptScript(s, r, d, s.rides[r].batch, at);
            Tokens(t.rides, t.responses, t.reservations, t.inflight, t.online)
  {
  }

  lemma ScriptIndex(s: State, r: RideId, d: DriverId, at: int)
    requires Commits(s, r, d, at) && r !in s.inflight
    requires Index(s.rides, s.responses, s.pending, s.inflight)
    requires Offered(s.rides, s.responses, s.notified)
    ensures var t := AcceptScript(s, r, d, s.rides[r].batch, at);
            Index(t.rides, t.responses, t.pending, t.inflight)
  {
  }

  lemma ScriptOffered(s: State, r: RideId, d: DriverId, at: int)
    requires Commits(s, r, d, at)
    requires Offered(s.rides, s.responses, s.notified)
    ensures var t := AcceptScript(s, r, d, s.rides[r].batch, at);
            Offered(t.rides, t.responses, t.notified)
  {
  }

  lemma ScriptBound(s: State, r: RideId, d: DriverId, at: int)
    requires Commits(s, r, d, at)
    requires Bound(s.rides, s.drivers, s.activeKey)
    ensures var t := AcceptScript(s, r, d, s.rides[r].batch, at);
            Bound(t.rides, t.drivers, t.activeKey)
  {
    var t := AcceptScript(s, r, d, s.rides[r].batch, at);
    AssignBound(s.rides, s.drivers, s.activeKey, r, d, t.rides[r], t.drivers[d]);
  }

  lemma AssignBound(rides: map<RideId, Ride>, drivers: map<DriverId, Driver>, activeKey: map<DriverId, RideId>,
                    r: RideId, d: DriverId, ride: Ride, x: Driver)
    requires Bound(rides, drivers, activeKey)
    requires r in rides && !Lifecycle.Assigned(rides[r].status) && Lifecycle.Assigned(ride.status) && ride.driver == Some(d)
    requires d in drivers && drivers[d].status == Online && x.status == Busy && x.activeRide == Some(r)
    ensures Bound(rides[r := ride], drivers[d := x], activeKey[d := r])
  {
  }

  lemma ScriptShape(s: State, r: RideId, d: DriverId, at: int)
    requires Commits(s, r, d, at)
    requires Shape(s.rides, s.responses, s.notified, s.drivers, s.nextRide, s.nextBatch)
    ensures var t := AcceptScript(s, r, d, s.rides[r].batch, at);
            Shape(t.rides, t.responses, t.notified, t.drivers, t.nextRide, t.nextBatch)
  {
    ShapeElsewhere(s, AcceptScript(s, r, d, s.rides[r].batch, at), r, AcceptScript(s, r, d, s.rides[r].batch, at).rides[r]);
  }

  lemma ScriptPools(s: State, r: RideId, d: DriverId, at: int)
    requires Commits(s, r, d, at)
    requires Tokens(s.rides, s.responses, s.reservations, s.inflight, s.online)
    requires Pools(s.drivers, s.heartbeats, s.online, s.available, s.geo, s.busy)
    ensures var t := AcceptScript(s, r, d, s.rides[r].batch, at);
            Pools(t.drivers, t.heartbeats, t.online, t.available, t.geo, t.busy)
  {
  }

  lemma ReadBackKeeps(s: State, r: RideId)
    requires Inv(s)
    ensures Inv(AcceptReadBack(s, r))
  {
    ReadBackTokens(s, r);
    ReadBackIndex(s, r);
  }

  lemma ReadBackTokens(s: State, r: RideId)
    requires Tokens(s.rides, s.responses, s.reservations, s.inflight, s.online)
    ensures var t := AcceptReadBack(s, r);
            Tokens(t.rides, t.responses, t.reservations, t.inflight, t.online)
  {
  }

  lemma ReadBackIndex(s: State, r: RideId)
    requires Index(s.rides, s.responses, s.pending, s.inflight)
    ensures var t := AcceptReadBack(s, r);
            Index(t.rides, t.responses, t.pending, t.inflight)
  {
  }

  lemma AcceptCleanupKeeps(s: State, r: RideId)
    requires Inv(s)
    ensures Inv(AcceptCleanup(s, r))
  {
    if r in s.inflight {
      AcceptCleanupTokens(s, r);
      AcceptCleanupIndex(s, r);
    }
  }

  lemma AcceptCleanupTokens(s: State, r: RideId)
    requires Flight(s.rides, s.inflight)
    requires Tokens(s.rides, s.responses, s.reservations, s.inflight, s.online)
    ensures var t := AcceptCleanup(s, r);
            Tokens(t.rides, t.responses, t.reservations, t.inflight, t.online)
  {
  }

  lemma AcceptCleanupIndex(s: State, r: RideId)
    requires Flight(s.rides, s.inflight)
    requires Index(s.rides, s.responses, s.pending, s.inflight)
    ensures var t := AcceptCleanup(s, r);
            Index(t.rides, t.responses, t.pending, t.inflight)
  {
  }

  // ----- the ride lifecycle -----

  lemma MoveKeeps(s: State, r: RideId, next: RideStatus)
    requires Inv(s) && CanTransition(s, r, next)
    requires Lifecycle.Assigned(s.rides[r].status) && Lifecycle.Assigned(next)
    ensures Inv(Transition(s, r, next))
  {
    var t := Transition(s, r, next);
    MoveOffers(s, r, next);
    MoveBound(s, r, next);
    MoveRest(s, r, next);
  }

  lemma MoveRest(s: State, r: RideId, next: RideStatus)
    requires Shape(s.rides, s.responses, s.notified, s.drivers, s.nextRide, s.nextBatch)
    requires Flight(s.rides, s.inflight) && Customers(s.rides, s.customerRide, s.activeRides)
    requires CanTransition(s, r, next) && Lifecycle.Assigned(s.rides[r].status) && Lifecycle.Assigned(next)
    ensures var t := Transition(s, r, next);
            && Shape(t.rides, t.responses, t.notified, t.drivers, t.nextRide, t.nextBatch)
            && Flight(t.rides, t.inflight) && Customers(t.rides, t.customerRide, t.activeRides)
  {
    var t := Transition(s, r, next);
    CustomersElsewhere(s.rides, r, t.rides[r], s.customerRide, s.activeRides);
    ShapeElsewhere(s, t, r, t.rides[r]);
    FlightElsewhere(s.rides, r, t.rides[r], s.inflight);
  }

  lemma MoveOffers(s: State, r: RideId, next: RideStatus)
    requires OfferInv(s) && CanTransition(s, r, next)
    requires Lifecycle.Assigned(s.rides[r].status) && Lifecycle.Assigned(next)
    ensures OfferInv(Transition(s, r, next))
  {
    NothingOutstanding(s, r);
    QuietRide(s, Transition(s, r, next), r);
  }

  lemma MoveBound(s: State, r: RideId, next: RideStatus)
    requires Bound(s.rides, s.drivers, s.activeKey) && CanTransition(s, r, next)
    requires Lifecycle.Assigned(s.rides[r].status) && Lifecycle.Assigned(next)
    ensures var t := Transition(s, r, next); Bound(t.rides, t.drivers, t.activeKey)
  {
    var t := Moved(s, r, next);
    SameDriverBound(s.rides, r, t.rides[r], s.drivers, s.activeKey);
  }

  lemma SameDriverBound(rides: map<RideId, Ride>, r: RideId, ride: Ride, drivers: map<DriverId, Driver>, activeKey: map<DriverId, RideId>)
    requires Bound(rides, drivers, activeKey) && r in rides && ride.driver == rides[r].driver
    requires Lifecycle.Assigned(rides[r].status) && Lifecycle.Assigned(ride.status)
    ensures Bound(rides[r := ride], drivers, activeKey)
  {
  }

  /** The state between the terminal status write and its cleanup. */
  function Ended(s: State, r: RideId, over: Ride, log: seq<Event>, nextBatch: nat): State
    requires r in s.rides
  {
    s.(rides := s.rides[r := over], log := log, nextBatch := nextBatch)
  }

  predicate Ends(s: State, r: RideId, over: Ride, nextBatch: nat) {
    && r in s.rides && !Terminal(s.rides[r].status) && Terminal(over.status)
    && over.customer == s.rides[r].customer && over.driver == s.rides[r].driver
    && RideShape(over, nextBatch) && s.nextBatch <= nextBatch
    && (over.batch == s.rides[r].batch || (over.batch.None? && s.rides[r].batch.None?))
  }

  lemma TerminateKeeps(s: State, r: RideId, over: Ride, log: seq<Event>, nextBatch: nat)
    requires Inv(s) && Ends(s, r, over, nextBatch)
    ensures Inv(CleanupTerminal(Ended(s, r, over, log, nextBatch), r))
  {
    var t := CleanupTerminal(Ended(s, r, over, log, nextBatch), r);
    TerminateOffers(s, r, over, log, nextBatch);
    TerminateBound(s, r, over, log, nextBatch);
    TerminatePools(s, r, over, log, nextBatch);
    TerminateCustomers(s, r, over, log, nextBatch);
    TerminateShape(s, r, over, log, nextBatch);
    FlightElsewhere(s.rides, r, t.rides[r], s.inflight);
  }

  lemma TerminateOffers(s: State, r: RideId, over: Ride, log: seq<Event>, nextBatch: nat)
    requires OfferInv(s) && Flight(s.rides, s.inflight) && Ends(s, r, over, nextBatch)
    ensures OfferInv(CleanupTerminal(Ended(s, r, over, log, nextBatch), r))
  {
    EndedElsewhere(s, r, over, log, nextBatch);
    EndedReleases(s, r, over, log, nextBatch);
    QuietRide(s, CleanupTerminal(Ended(s, r, over, log, nextBatch), r), r);
  }

  lemma EndedElsewhere(s: State, r: RideId, over: Ride, log: seq<Event>, nextBatch: nat)
    requires Ends(s, r, over, nextBatch)
    ensures SameElsewhere(s, CleanupTerminal(Ended(s, r, over, log, nextBatch), r), r)
  {
    var u := ClearTerminal(Ended(s, r, over, log, nextBatch), r);
    assert SameElsewhere(s, u, r);
    if over.driver.Some? {
      ReleaseElsewhere(u, over.driver.value, r);
    }
  }

  lemma ReleaseElsewhere(s: State, d: DriverId, r: RideId)
    ensures var t := ReleaseDriver(s, d, r);
            && t.rides == s.rides && t.responses == s.responses && t.notified == s.notified && t.inflight == s.inflight
            && t.pending == s.pending - {Offer(d, r)} && s.online <= t.online
  {
  }

  lemma EndedReleases(s: State, r: RideId, over: Ride, log: seq<Event>, nextBatch: nat)
    requires OfferInv(s) && Flight(s.rides, s.inflight) && Ends(s, r, over, nextBatch)
    ensures var t := CleanupTerminal(Ended(s, r, over, log, nextBatch), r);
            && (forall d :: d in t.reservations ==>
                  && d in s.reservations && t.reservations[d] == s.reservations[d]
                  && (t.reservations[d].ride == r ==> IsOwed(s.inflight, r, d) && s.inflight[r].batch == t.reservations[d].batch))
            && (forall o :: o in t.pending && o.ride == r ==> IsOwed(s.inflight, r, o.driver))
  {
  }

  lemma TerminateBound(s: State, r: RideId, over: Ride, log: seq<Event>, nextBatch: nat)
    requires Bound(s.rides, s.drivers, s.activeKey) && Ends(s, r, over, nextBatch) && RideShape(s.rides[r], s.nextBatch)
    ensures var t := CleanupTerminal(Ended(s, r, over, log, nextBatch), r);
            Bound(t.rides, t.drivers, t.activeKey)
  {
    var t := CleanupTerminal(Ended(s, r, over, log, nextBatch), r);
    if over.driver.None? {
      BoundElsewhere(s.rides, r, over, s.drivers, s.activeKey);
    } else {
      BoundRelease(s.rides, r, over, s.drivers, s.activeKey, t.drivers[over.driver.value]);
    }
  }

  /** The driver of a ride that leaves the assigned statuses is unbound on both sides. */
  lemma BoundRelease(rides: map<RideId, Ride>, r: RideId, next: Ride, drivers: map<DriverId, Driver>, activeKey: map<DriverId, RideId>,
                     freed: Driver)
    requires Bound(rides, drivers, activeKey)
    requires r in rides && Lifecycle.Assigned(rides[r].status) && !Lifecycle.Assigned(next.status)
    requires freed.activeRide.None? && freed.status != Busy
    ensures rides[r].driver.Some?
    ensures Bound(rides[r := next], drivers[rides[r].driver.value := freed], activeKey - {rides[r].driver.value})
  {
  }

  lemma TerminatePools(s: State, r: RideId, over: Ride, log: seq<Event>, nextBatch: nat)
    requires Bound(s.rides, s.drivers, s.activeKey) && Ends(s, r, over, nextBatch) && RideShape(s.rides[r], s.nextBatch)
    requires Pools(s.drivers, s.heartbeats, s.online, s.available, s.geo, s.busy)
    ensures var t := CleanupTerminal(Ended(s, r, over, log, nextBatch), r);
            Pools(t.drivers, t.heartbeats, t.online, t.available, t.geo, t.busy)
  {
    if over.driver.Some? {
      PoolsRelease(s, over.driver.value, r);
    }
  }

  lemma PoolsRelease(s: State, d: DriverId, r: RideId)
    requires Pools(s.drivers, s.heartbeats, s.online, s.available, s.geo, s.busy)
    requires d in s.drivers && s.drivers[d].status != Online
    ensures var t := ReleaseDriver(s, d, r);
            Pools(t.drivers, t.heartbeats, t.online, t.available, t.geo, t.busy)
  {
  }

  lemma TerminateCustomers(s: State, r: RideId, over: Ride, log: seq<Event>, nextBatch: nat)
    requires Customers(s.rides, s.customerRide, s.activeRides) && Ends(s, r, over, nextBatch)
    ensures var t := CleanupTerminal(Ended(s, r, over, log, nextBatch), r);
            Customers(t.rides, t.customerRide, t.activeRides)
  {
    var u := ClearTerminal(Ended(s, r, over, log, nextBatch), r);
    assert Customers(u.rides, u.customerRide, u.activeRides);
  }

  lemma TerminateShape(s: State, r: RideId, over: Ride, log: seq<Event>, nextBatch: nat)
    requires Shape(s.rides, s.responses, s.notified, s.drivers, s.nextRide, s.nextBatch) && Ends(s, r, over, nextBatch)
    ensures var t := CleanupTerminal(Ended(s, r, over, log, nextBatch), r);
            Shape(t.rides, t.responses, t.notified, t.drivers, t.nextRide, t.nextBatch)
  {
    var u := ClearTerminal(Ended(s, r, over, log, nextBatch), r);
    ShapeElsewhere(s, u, r, over);
    if over.driver.Some? {
      ReleaseShape(u, over.driver.value, r);
    }
  }

  lemma ReleaseShape(s: State, d: DriverId, r: RideId)
    requires Shape(s.rides, s.responses, s.notified, s.drivers, s.nextRide, s.nextBatch)
    ensures var t := ReleaseDriver(s, d, r);
            Shape(t.rides, t.responses, t.notified, t.drivers, t.nextRide, t.nextBatch)
  {
  }

  lemma RequestKeeps(c: Config, s: State, customer: CustomerId)
    requires Inv(s)
    ensures Inv(RequestRide(c, s, customer))
  {
    if !HasActiveRide(s, customer) {
      var t := RequestRide(c, s, customer);
      NothingOutstanding(s, s.nextRide);
      QuietRide(s, t, s.nextRide);
      BoundElsewhere(s.rides, s.nextRide, t.rides[s.nextRide], s.drivers, s.activeKey);
      ShapeElsewhere(s, t, s.nextRide, t.rides[s.nextRide]);
      RequestCustomers(c, s, customer);
    }
  }

  lemma RequestCustomers(c: Config, s: State, customer: CustomerId)
    requires Customers(s.rides, s.customerRide, s.activeRides) && s.nextRide !in s.rides
    ensures var t := RequestRide(c, s, customer);
            Customers(t.rides, t.customerRide, t.activeRides)
  {
  }

  // ----- driver presence -----

  lemma PersistKeeps(s: State, d: DriverId, driver: Driver)
    requires Inv(s)
    requires driver.activeRide == ActiveRideOf(s, d)
    requires driver.status == if driver.activeRide.Some? then Busy else Online
    ensures Inv(Persist(s, d, driver))
  {
    PersistBound(s, d, driver);
    PersistPools(s, d, driver);
  }

  lemma PersistBound(s: State, d: DriverId, driver: Driver)
    requires Bound(s.rides, s.drivers, s.activeKey)
    requires driver.activeRide == ActiveRideOf(s, d)
    requires driver.status == if driver.activeRide.Some? then Busy else Online
    ensures var t := Persist(s, d, driver); Bound(t.rides, t.drivers, t.activeKey)
  {
  }

  lemma PersistPools(s: State, d: DriverId, driver: Driver)
    requires Pools(s.drivers, s.heartbeats, s.online, s.available, s.geo, s.busy)
    requires driver.status == if driver.activeRide.Some? then Busy else Online
    ensures var t := Persist(s, d, driver); Pools(t.drivers, t.heartbeats, t.online, t.available, t.geo, t.busy)
  {
  }

  lemma OfflineKeeps(s: State, d: DriverId)
    requires Inv(s)
    ensures Inv(GoOffline(s, d))
  {
    OfflineBound(s, d);
  }

  lemma OfflineBound(s: State, d: DriverId)
    requires Bound(s.rides, s.drivers, s.activeKey)
    ensures var t := GoOffline(s, d); Bound(t.rides, t.drivers, t.activeKey)
  {
  }
}
