/** The service calls as they run: one Redis command after another on the keys of the store. */
module Store {
  import opened Wrappers
  import opened Types
  import opened Lifecycle
  import opened Steps
  import opened Runs

  /** How a service call ends when it does not succeed. */
  datatype Failure =
    | RideNotFound
    | InvalidRideTransition
    | RideDriverMismatch
    | RideAlreadyAccepted(code: int)
    | ActiveRideExists
    | DriverNotOnline

  datatype Reply = Done | Failed(failure: Failure)

  lemma FilterAppend(p: DriverId -> bool, xs: seq<DriverId>, x: DriverId)
    ensures Filter(p, xs + [x]) == Filter(p, xs) + if p(x) then [x] else []
  {
    if xs == [] {
      assert xs + [x] == [x];
    } else {
      assert (xs + [x])[1..] == xs[1..] + [x];
    }
  }

  lemma ReservableAppend(s: State, ds: seq<DriverId>, d: DriverId)
    ensures ReservableAmong(s, ds + [d]) == ReservableAmong(s, ds) + if Reservable(s, d) then [d] else []
  {
    FilterAppend((e: DriverId) => Reservable(s, e), ds, d);
  }

  /** A scan that has found `n` drivers stops at the last of them, one that has not goes to the end. */
  lemma {:induction false} ScanStops(s: State, candidates: seq<DriverId>, n: nat, k: nat)
    requires n >= 1 && k <= |candidates|
    requires (k == |candidates| && |ReservableAmong(s, candidates[..k])| < n)
          || (k > 0 && |ReservableAmong(s, candidates[..k])| == n && Reservable(s, candidates[k - 1]))
    ensures Scanned(s, candidates, n) == k
    ensures Pick(s, candidates, n) == ReservableAmong(s, candidates[..k])
  {
    if candidates == [] {
    } else {
      var tail := candidates[1..];
      assert candidates[..k][1..] == tail[..k - 1];
      assert k > 1 ==> tail[k - 2] == candidates[k - 1] && tail[k - 2] in tail[..k - 1];
      assert k == 1 ==> tail[..k - 1] == [] && ReservableAmong(s, tail[..k - 1]) == [];
      var m := if Reservable(s, candidates[0]) then n - 1 else n;
      if m > 0 {
        ScanStops(s, tail, m, k - 1);
      }
    }
  }

  function GhostsAmong(s: State, ds: seq<DriverId>): set<DriverId> {
    set d | d in ds && Ghost(s, d)
  }

  /** What one more candidate adds to the drivers reserved and the ghosts met so far. */
  lemma NextCandidate(s: State, candidates: seq<DriverId>, k: nat)
    requires Distinct(candidates) && k < |candidates|
    ensures var d, seen := candidates[k], candidates[..k];
            && candidates[..k + 1] == seen + [d]
            && ReservableAmong(s, seen + [d]) == ReservableAmong(s, seen) + (if Reservable(s, d) then [d] else [])
            && GhostsAmong(s, seen + [d]) == GhostsAmong(s, seen) + (if Ghost(s, d) then {d} else {})
            && d !in ReservableAmong(s, seen) && d !in GhostsAmong(s, seen)
  {
    assert candidates[..k + 1] == candidates[..k] + [candidates[k]];
    ReservableAppend(s, candidates[..k], candidates[k]);
  }

  lemma ScanResult(s: State, candidates: seq<DriverId>, n: nat, k: nat)
    requires n >= 1 && k <= |candidates|
    requires (k == |candidates| && |ReservableAmong(s, candidates[..k])| < n)
          || (k > 0 && |ReservableAmong(s, candidates[..k])| == n && Reservable(s, candidates[k - 1]))
    ensures ReservableAmong(s, candidates[..k]) == Pick(s, candidates, n)
    ensures GhostsAmong(s, candidates[..k]) == GhostsScanned(s, candidates, n)
  {
    ScanStops(s, candidates, n, k);
  }

  /** The keys while a batch is being reserved: ghosts wiped so far, drivers reserved so far. */
  function Reserving(s: State, ghosts: set<DriverId>, reserved: seq<DriverId>, token: Token): State {
    var t := RemoveGhosts(s, ghosts);
    t.(reservations := t.reservations + ReservationsFor(reserved, token))
  }

  lemma WipeMore(s: State, ghosts: set<DriverId>, reserved: seq<DriverId>, token: Token, more: set<DriverId>)
    requires forall d :: d in more ==> d !in reserved
    ensures RemoveGhosts(Reserving(s, ghosts, reserved, token), more) == Reserving(s, ghosts + more, reserved, token)
  {
    WipePool(s.available, ghosts, more);
    WipePool(s.busy, ghosts, more);
    WipePool(s.online, ghosts, more);
    WipePool(s.geo, ghosts, more);
    WipePool(s.heartbeats, ghosts, more);
    assert s.reservations - ghosts + ReservationsFor(reserved, token) - more
        == s.reservations - (ghosts + more) + ReservationsFor(reserved, token);
  }

  lemma WipePool(pool: set<DriverId>, ghosts: set<DriverId>, more: set<DriverId>)
    ensures pool - ghosts - more == pool - (ghosts + more)
  {
  }

  lemma ReserveMore(s: State, ghosts: set<DriverId>, reserved: seq<DriverId>, token: Token, d: DriverId)
    ensures var t := Reserving(s, ghosts, reserved, token);
            t.(reservations := t.reservations[d := token]) == Reserving(s, ghosts, reserved + [d], token)
  {
    assert (s.reservations - ghosts + ReservationsFor(reserved, token))[d := token]
        == s.reservations - ghosts + ReservationsFor(reserved + [d], token);
  }

  lemma ReserveNone(s: State, token: Token)
    ensures Reserving(s, {}, [], token) == s
  {
    assert s.reservations - {} + ReservationsFor([], token) == s.reservations;
  }

  lemma ReleaseTwice(reservations: map<DriverId, Token>, token: Token, xs: seq<DriverId>, ys: seq<DriverId>)
    ensures ReleaseTokens(ReleaseTokens(reservations, token, xs), token, ys) == ReleaseTokens(reservations, token, xs + ys)
  {
  }

  lemma TimeOutOneMore(responses: map<Offer, Response>, r: RideId, b: Batch, i: nat)
    requires i < |b.drivers|
    ensures var o, t := Offer(b.drivers[i], r), TimeOutPending(responses, r, b.(drivers := b.drivers[..i]));
            TimeOutPending(responses, r, b.(drivers := b.drivers[..i + 1]))
            == if IsPending(responses, o, b.id) then t[o := TimedOut] else t
  {
    assert forall d :: d in b.drivers[..i + 1] <==> d in b.drivers[..i] || d == b.drivers[i];
  }

  function Offering(s: State, r: RideId, b: BatchId, ds: seq<DriverId>): State {
    s.(notified := s.notified + Offers(ds, r),
       responses := s.responses + PendingFor(ds, r, b),
       pending := s.pending + Offers(ds, r))
  }

  lemma OfferNone(s: State, r: RideId, b: BatchId)
    ensures Offering(s, r, b, []) == s
  {
    assert Offers([], r) == {};
    assert s.responses + PendingFor([], r, b) == s.responses;
  }

  lemma OfferOneMore(s: State, r: RideId, b: BatchId, ds: seq<DriverId>, i: nat)
    requires i < |ds|
    ensures var o, t := Offer(ds[i], r), Offering(s, r, b, ds[..i]);
            Offering(s, r, b, ds[..i + 1])
            == t.(notified := t.notified + {o}, responses := t.responses[o := Pending(b)], pending := t.pending + {o})
  {
    var o := Offer(ds[i], r);
    assert forall d :: d in ds[..i + 1] <==> d in ds[..i] || d == ds[i];
    assert Offers(ds[..i + 1], r) == Offers(ds[..i], r) + {o};
    assert s.notified + Offers(ds[..i + 1], r) == s.notified + Offers(ds[..i], r) + {o};
    assert s.pending + Offers(ds[..i + 1], r) == s.pending + Offers(ds[..i], r) + {o};
    PendOneMore(s.responses, r, b, ds, i);
  }

  lemma PendOneMore(responses: map<Offer, Response>, r: RideId, b: BatchId, ds: seq<DriverId>, i: nat)
    requires i < |ds|
    ensures responses + PendingFor(ds[..i + 1], r, b) == (responses + PendingFor(ds[..i], r, b))[Offer(ds[i], r) := Pending(b)]
  {
    assert forall d :: d in ds[..i + 1] <==> d in ds[..i] || d == ds[i];
  }

  class Redis {
    const c: Config
    /** All keys; every command below assigns one or a few of them. */
    var db: State

    constructor (c: Config, now: int)
      ensures this.c == c && db == EmptyState(now)
    {
      this.c := c;
      db := EmptyState(now);
    }

    // ----- reservations -----

    /** Compare-and-delete. */
    method ReleaseLock(d: DriverId, token: Token)
      modifies this`db
      ensures db == old(db).(reservations := ReleaseTokens(old(db).reservations, token, [d]))
    {
      if d in db.reservations && db.reservations[d] == token {
        db := db.(reservations := db.reservations - {d});
      }
    }

    method ReleaseDriverReservations(r: RideId, batch: Option<Batch>, ds: seq<DriverId>)
      modifies this`db
      ensures db == old(db).(reservations := if batch.None? then old(db).reservations
                                             else ReleaseTokens(old(db).reservations, Token(r, batch.value.id), ds))
    {
      if batch.None? || ds == [] {
        return;
      }
      var token := Token(r, batch.value.id);
      for i := 0 to |ds|
        invariant db == old(db).(reservations := ReleaseTokens(old(db).reservations, token, ds[..i]))
      {
        ReleaseLock(ds[i], token);
        assert forall d :: d in ds[..i + 1] <==> d in ds[..i] || d == ds[i];
      }
      assert ds[..|ds|] == ds;
    }

    method ClearPendingMembership(r: RideId, ds: seq<DriverId>)
      modifies this`db
      ensures db == old(db).(pending := old(db).pending - Offers(ds, r))
    {
      for i := 0 to |ds|
        invariant db == old(db).(pending := old(db).pending - Offers(ds[..i], r))
      {
        db := db.(pending := db.pending - {Offer(ds[i], r)});
        assert forall d :: d in ds[..i + 1] <==> d in ds[..i] || d == ds[i];
      }
      assert ds[..|ds|] == ds;
    }

    method CleanupGhostAvailability(d: DriverId)
      modifies this`db
      ensures db == RemoveGhosts(old(db), {d})
    {
      db := db.(available := db.available - {d});
      db := db.(busy := db.busy - {d});
      db := db.(online := db.online - {d});
      db := db.(geo := db.geo - {d});
      db := db.(heartbeats := db.heartbeats - {d});
      db := db.(reservations := db.reservations - {d});
    }

    method IsDriverReservable(d: DriverId) returns (reservable: bool)
      modifies this`db
      ensures reservable == Reservable(old(db), d)
      ensures db == if Ghost(old(db), d) then RemoveGhosts(old(db), {d}) else old(db)
    {
      if d !in db.drivers || d !in db.heartbeats {
        CleanupGhostAvailability(d);
        return false;
      }
      reservable := db.drivers[d].status == Online && d !in db.activeKey && d !in db.reservations && d !in db.cooldowns;
    }

    /** The greedy loop reserves exactly the first `batchSize` reservable candidates, and wipes the ghosts it meets. */
    method ReserveDriversForBatch(r: RideId, b: BatchId, candidates: seq<DriverId>) returns (reserved: seq<DriverId>)
      requires Distinct(candidates) && c.batchSize >= 1
      modifies this`db
      ensures reserved == Pick(old(db), candidates, c.batchSize)
      ensures db == Reserving(old(db), GhostsScanned(old(db), candidates, c.batchSize), reserved, Token(r, b))
    {
      ghost var s := db;
      reserved := [];
      var token := Token(r, b);
      var k := 0;
      ReserveNone(s, token);
      while k < |candidates|
        invariant 0 <= k <= |candidates| && |reserved| < c.batchSize
        invariant reserved == ReservableAmong(s, candidates[..k])
        invariant db == Reserving(s, GhostsAmong(s, candidates[..k]), reserved, token)
      {
        var d := candidates[k];
        NextCandidate(s, candidates, k);
        ghost var ghosts := GhostsAmong(s, candidates[..k]);
        ghost var more := if Ghost(s, d) then {d} else {};
        WipeMore(s, ghosts, reserved, token, {d});
        assert Ghost(db, d) == Ghost(s, d) && (more == {} ==> ghosts + more == ghosts);
        var reservable := IsDriverReservable(d);
        k := k + 1;
        assert GhostsAmong(s, candidates[..k]) == ghosts + more;
        assert db == Reserving(s, ghosts + more, reserved, token);
        if !reservable {
          continue;
        }
        if d !in db.reservations {
          ReserveMore(s, ghosts + more, reserved, token, d);
          db := db.(reservations := db.reservations[d := token]);
          reserved := reserved + [d];
        }
        if |reserved| >= c.batchSize {
          break;
        }
      }
      ScanResult(s, candidates, c.batchSize, k);
    }

    // ----- dispatch -----

    method WriteRide(r: RideId, ride: Ride)
      modifies this`db
      ensures db == old(db).(rides := old(db).rides[r := ride])
    {
      db := db.(rides := db.rides[r := ride]);
    }

    method Emit(event: Event)
      modifies this`db
      ensures db == old(db).(log := old(db).log + [event])
    {
      db := db.(log := db.log + [event]);
    }

    /** Mark the unanswered drivers of a batch as timed out. */
    method TimeOutDrivers(r: RideId, b: Batch)
      modifies this`db
      ensures db == old(db).(responses := TimeOutPending(old(db).responses, r, b))
    {
      var responses := db.responses;
      var ds := b.drivers;
      for i := 0 to |ds|
        invariant db == old(db).(responses := TimeOutPending(responses, r, b.(drivers := ds[..i])))
      {
        TimeOutOneMore(responses, r, b, i);
        if IsPending(responses, Offer(ds[i], r), b.id) {
          db := db.(responses := db.responses[Offer(ds[i], r) := TimedOut]);
        }
      }
      assert ds[..|ds|] == ds;
    }

    /** Close the current batch: time outs, ride hash, reservations, pending index. */
    method CloseBatch(r: RideId)
      requires r in db.rides && db.rides[r].batch.Some?
      modifies this`db
      ensures db == ExpireBatch(old(db), r)
    {
      var ride := db.rides[r];
      var b := ride.batch.value;
      TimeOutDrivers(r, b);
      WriteRide(r, ride.(batch := None, version := ride.version + 1));
      ReleaseDriverReservations(r, ride.batch, b.drivers);
      ClearPendingMembership(r, b.drivers);
    }

    /** The notified set, responses and pending index of a new batch. */
    method OfferToDrivers(r: RideId, b: BatchId, chosen: seq<DriverId>)
      modifies this`db
      ensures db == Offering(old(db), r, b, chosen)
    {
      OfferNone(db, r, b);
      for i := 0 to |chosen|
        invariant db == Offering(old(db), r, b, chosen[..i])
      {
        OfferOneMore(old(db), r, b, chosen, i);
        var o := Offer(chosen[i], r);
        db := db.(notified := db.notified + {o}, responses := db.responses[o := Pending(b)], pending := db.pending + {o});
      }
      assert chosen[..|chosen|] == chosen;
    }

    /** One request per driver of a new batch. */
    method EmitRequests(r: RideId, b: BatchId, chosen: seq<DriverId>)
      modifies this`db
      ensures db == old(db).(log := old(db).log + RequestsTo(chosen, r, b))
    {
      for i := 0 to |chosen|
        invariant db == old(db).(log := old(db).log + RequestsTo(chosen, r, b)[..i])
      {
        Emit(RideRequest(chosen[i], r, b));
        assert old(db).log + RequestsTo(chosen, r, b)[..i] + [RideRequest(chosen[i], r, b)]
            == old(db).log + RequestsTo(chosen, r, b)[..i + 1];
      }
      assert RequestsTo(chosen, r, b)[..|chosen|] == RequestsTo(chosen, r, b);
    }

    /** `dispatchUnderLock`. */
    method DispatchUnderLock(r: RideId, near: seq<DriverId>)
      requires Distinct(near) && c.batchSize >= 1
      modifies this`db
      ensures db == Dispatch(c, old(db), r, near)
    {
      if r !in db.rides {
        return;
      }
      var ride := db.rides[r];
      if ride.status != Requested && ride.status != Dispatching {
        return;
      }
      var round, radius := ride.round, EntryRadius(c, ride);
      if ride.status == Requested {
        WriteRide(r, ride.(status := Dispatching, round := 1, radius := c.initialRadius, version := ride.version + 1));
        ride := db.rides[r];
        Emit(StatusUpdate(r, ride.version, Dispatching));
      }
      assert db == StartIfRequested(c, old(db), r);
      if ride.batch.Some? {
        if ride.batch.value.expiresAt > db.now {
          return;
        }
        CloseBatch(r);
      }
      SearchDrivers(r, round, radius, near);
    }

    /** The rest of `dispatchUnderLock`: search, then send, expand or give up. */
    method SearchDrivers(r: RideId, round: nat, radius: real, near: seq<DriverId>)
      requires Distinct(near) && c.batchSize >= 1 && r in db.rides
      modifies this`db
      ensures db == Search(c, old(db), r, round, radius, near)
    {
      var candidates := Eligible(db, r, round, near);
      EligibleDistinct(db, r, round, near);
      var batchId := db.nextBatch;
      var chosen := ReserveDriversForBatch(r, batchId, candidates);
      ghost var wiped := RemoveGhosts(old(db), GhostsScanned(old(db), candidates, c.batchSize));
      if chosen != [] {
        SendReserved(r, batchId, chosen, wiped);
        return;
      }
      ReserveNone(wiped, Token(r, batchId));
      assert db == wiped;
      if round >= c.maxRounds || radius >= c.maxRadius {
        GiveUp(r);
      } else {
        Widen(r, round, radius);
      }
    }

    /** Send a batch to drivers that already hold its reservation; from here on the drawn batch id is taken. */
    method SendReserved(r: RideId, batchId: BatchId, chosen: seq<DriverId>, ghost wiped: State)
      requires r in wiped.rides && batchId == wiped.nextBatch
      requires db == wiped.(reservations := wiped.reservations + ReservationsFor(chosen, Token(r, batchId)))
      modifies this`db
      ensures db == SendBatch(c, wiped, r, chosen)
      ensures r in db.rides && db.rides[r].batch == Some(Batch(batchId, chosen, old(db.now) + c.responseTtl))
    {
      var ride := db.rides[r];
      db := db.(nextBatch := batchId + 1);
      WriteRide(r, ride.(batch := Some(Batch(batchId, chosen, db.now + c.responseTtl)), version := ride.version + 1));
      OfferToDrivers(r, batchId, chosen);
      EmitRequests(r, batchId, chosen);
    }

    method GiveUp(r: RideId)
      requires r in db.rides
      modifies this`db
      ensures db == CancelExhausted(old(db), r)
    {
      var ride := db.rides[r];
      var over := ride.(status := Cancelled, cancellation := Some(NoDriversAvailable), batch := None, version := ride.version + 1);
      db := db.(nextBatch := db.nextBatch + 1);
      WriteRide(r, over);
      Emit(StatusUpdate(r, over.version, Cancelled));
      CleanupTerminalRideKeys(r);
    }

    method Widen(r: RideId, round: nat, radius: real)
      requires r in db.rides
      modifies this`db
      ensures db == ExpandSearch(c, old(db), r, round, radius)
    {
      var ride := db.rides[r];
      db := db.(nextBatch := db.nextBatch + 1);
      WriteRide(r, ride.(round := round + 1, radius := MinReal(radius * 2.0, c.maxRadius), batch := None, version := ride.version + 1));
    }

    // ----- terminal rides -----

    method ClearPendingOfNotified(r: RideId)
      modifies this`db
      ensures db == old(db).(pending := (set o | o in old(db).pending && !(o.ride == r && o in old(db).notified)))
    {
      var rest := set o | o in db.notified && o.ride == r;
      ghost var all := rest;
      while rest != {}
        invariant rest <= all
        invariant db == old(db).(pending := old(db).pending - (all - rest))
      {
        var o :| o in rest;
        db := db.(pending := db.pending - {o});
        rest := rest - {o};
        assert old(db).pending - (all - (rest + {o})) - {o} == old(db).pending - (all - rest);
      }
      assert all - {} == all;
    }

    /** `releaseDriverAvailability`. */
    method ReleaseDriverAvailability(d: DriverId, r: RideId)
      modifies this`db
      ensures db == ReleaseDriver(old(db), d, r)
    {
      var known := d in db.drivers;
      var located := known && db.drivers[d].located;
      var status := if known then db.drivers[d].status else Offline;
      UnbindKeys(d, r);
      if status == Offline || d !in db.heartbeats {
        db := db.(drivers := db.drivers[d := Driver(Offline, None, located)]);
      } else {
        ReturnToPools(d, located);
      }
    }

    /** The writes of a release that take the ride away. */
    method UnbindKeys(d: DriverId, r: RideId)
      modifies this`db
      ensures db == old(db).(busy := old(db).busy - {d},
                             pending := old(db).pending - {Offer(d, r)},
                             activeKey := if d in old(db).activeKey && old(db).activeKey[d] == r then old(db).activeKey - {d}
                                          else old(db).activeKey)
    {
      var activeRide := if d in db.activeKey then Some(db.activeKey[d]) else None;
      db := db.(busy := db.busy - {d});
      db := db.(pending := db.pending - {Offer(d, r)});
      if activeRide == Some(r) {
        db := db.(activeKey := db.activeKey - {d});
      }
    }

    /** The writes of a release that bring the driver back. */
    method ReturnToPools(d: DriverId, located: bool)
      modifies this`db
      ensures db == old(db).(drivers := old(db).drivers[d := Driver(Online, None, located)],
                             online := old(db).online + {d},
                             available := old(db).available + {d},
                             geo := if located then old(db).geo + {d} else old(db).geo)
    {
      db := db.(drivers := db.drivers[d := Driver(Online, None, located)]);
      db := db.(online := db.online + {d});
      db := db.(available := db.available + {d});
      if located {
        db := db.(geo := db.geo + {d});
      }
    }

    /** `cleanupTerminalRideKeys`. */
    method CleanupTerminalRideKeys(r: RideId)
      requires r in db.rides
      modifies this`db
      ensures db == CleanupTerminal(old(db), r)
    {
      var ride := db.rides[r];
      db := db.(activeRides := db.activeRides - {r});
      if ride.customer in db.customerRide && db.customerRide[ride.customer] == r {
        db := db.(customerRide := db.customerRide - {ride.customer});
      }
      ClearPendingOfNotified(r);
      ReleaseDriverReservations(r, ride.batch, if ride.batch.Some? then ride.batch.value.drivers else []);
      assert db == ClearTerminal(old(db), r);
      if ride.driver.Some? {
        ReleaseDriverAvailability(ride.driver.value, r);
      }
    }

    // ----- timeouts and rejections -----

    /** `handleBatchTimeout`. */
    method HandleBatchTimeout(r: RideId, b: BatchId, near: seq<DriverId>)
      requires Distinct(near) && c.batchSize >= 1
      modifies this`db
      ensures db == BatchTimeout(c, old(db), r, b, near)
    {
      if r !in db.rides || db.rides[r].status != Dispatching || db.rides[r].batch.None? || db.rides[r].batch.value.id != b {
        return;
      }
      CloseBatch(r);
      DispatchUnderLock(r, near);
    }

    /** The `every` loop over the current batch. */
    method NobodyElsePending(r: RideId, d: DriverId) returns (exhausted: bool)
      requires r in db.rides
      ensures exhausted == BatchExhausted(db, r, d)
    {
      var batch := db.rides[r].batch;
      if batch.None? {
        return true;
      }
      var ds := batch.value.drivers;
      for i := 0 to |ds|
        invariant forall e :: e in ds[..i] ==> e == d || !IsPending(db.responses, Offer(e, r), batch.value.id)
      {
        if ds[i] != d && IsPending(db.responses, Offer(ds[i], r), batch.value.id) {
          assert ds[i] in ds;
          return false;
        }
        assert forall e :: e in ds[..i + 1] <==> e in ds[..i] || e == ds[i];
      }
      assert ds[..|ds|] == ds;
      return true;
    }

    /** The first half of `handleDriverRejection`: responses, pending index, ride hash, cooldown, reservations. */
    method RecordRejectionOf(r: RideId, d: DriverId, reason: string) returns (exhausted: bool)
      requires r in db.rides
      modifies this`db
      ensures exhausted == BatchExhausted(old(db), r, d)
      ensures db == RecordRejection(c, old(db), r, d, reason)
    {
      var ride := db.rides[r];
      exhausted := NobodyElsePending(r, d);
      db := db.(responses := db.responses[Offer(d, r) := Declined(reason)]);
      db := db.(pending := db.pending - {Offer(d, r)});
      WriteRide(r, ride.(batch := if exhausted then None else ride.batch, version := ride.version + 1));
      if c.cooldownEnabled {
        db := db.(cooldowns := db.cooldowns + {d});
      }
      ReleaseDriverReservations(r, ride.batch, [d]);
      if exhausted && ride.batch.Some? {
        ReleaseTwice(old(db).reservations, Token(r, ride.batch.value.id), [d], ride.batch.value.drivers);
        ReleaseDriverReservations(r, ride.batch, ride.batch.value.drivers);
      }
    }

    /** `handleDriverRejection`. */
    method HandleDriverRejection(r: RideId, d: DriverId, reason: string, near: seq<DriverId>)
      requires Distinct(near) && c.batchSize >= 1
      modifies this`db
      ensures db == Reject(c, old(db), r, d, reason, near)
    {
      if r !in db.rides || db.rides[r].status != Dispatching {
        return;
      }
      if Offer(d, r) !in db.responses {
        return;
      }
      var response := db.responses[Offer(d, r)];
      if response == Won || response == Declined("") {
        return;
      }
      var exhausted := RecordRejectionOf(r, d, reason);
      if exhausted {
        DispatchUnderLock(r, near);
      }
    }

    // ----- acceptance -----

    /** The acceptance script: nine guards in order, then the commit. */
    method RunAcceptScript(r: RideId, d: DriverId, seen: Option<Batch>, acceptedAt: int) returns (code: int)
      modifies this`db
      ensures code == (if AcceptCode(old(db), r, d, acceptedAt, TokenOf(r, seen)) != 0
                       then AcceptCode(old(db), r, d, acceptedAt, TokenOf(r, seen)) else old(db).rides[r].version + 1)
      ensures db == AcceptScript(old(db), r, d, seen, acceptedAt)
      ensures code > 0 ==> r in old(db).rides && old(db).rides[r].batch.Some? && acceptedAt <= old(db).rides[r].batch.value.expiresAt
    {
      if r !in db.rides { return -1; }
      var ride := db.rides[r];
      if ride.status != Dispatching { return -2; }
      if ride.driver.Some? { return -3; }
      if ride.batch.None? { return -6; }
      if ride.batch.value.expiresAt < acceptedAt { return -7; }
      if Offer(d, r) !in db.notified { return -4; }
      if !IsPending(db.responses, Offer(d, r), ride.batch.value.id) { return -8; }
      var reservation := if d in db.reservations then Some(db.reservations[d]) else None;
      if reservation.None? || seen.None? || reservation.value != Token(r, seen.value.id) { return -9; }
      if d !in db.drivers || db.drivers[d].status != Online || (d in db.activeKey && db.activeKey[d] != r) { return -5; }
      CommitAccept(r, d, seen.value);
      return ride.version + 1;
    }

    /** The writes of the script, once every guard has passed. */
    method CommitAccept(r: RideId, d: DriverId, seen: Batch)
      requires r in db.rides && d in db.drivers
      modifies this`db
      ensures db == Committed(old(db), r, d, seen)
    {
      var ride := db.rides[r];
      WriteRide(r, ride.(status := Accepted, driver := Some(d), batch := None, version := ride.version + 1));
      db := db.(drivers := db.drivers[d := db.drivers[d].(status := Busy, activeRide := Some(r))]);
      db := db.(available := db.available - {d});
      db := db.(geo := db.geo - {d});
      db := db.(busy := db.busy + {d});
      db := db.(activeKey := db.activeKey[d := r]);
      db := db.(responses := db.responses[Offer(d, r) := Won]);
      db := db.(pending := db.pending - {Offer(d, r)});
      db := db.(reservations := db.reservations - {d});
      db := db.(inflight := db.inflight[r := Owed(seen.id, Others(seen, d), None)]);
    }

    /** `acceptRide`. */
    method AcceptRide(r: RideId, d: DriverId) returns (reply: Reply)
      modifies this`db
      ensures db == Accept(old(db), r, d)
      ensures reply == Done <==> r in old(db).rides && AcceptCode(old(db), r, d, old(db).now, TokenOf(r, old(db).rides[r].batch)) == 0
    {
      var batch := if r in db.rides then db.rides[r].batch else None;
      var version := RunAcceptScript(r, d, batch, db.now);
      if version <= 0 {
        return Failed(RideAlreadyAccepted(version));
      }
      var ride := db.rides[r];
      db := db.(inflight := db.inflight[r := db.inflight[r].(read := Some(ride))]);
      SettleAccept(r);
      return Done;
    }

    /** The rest of an accept call that has read the ride back: it releases the losers and publishes. */
    method SettleAccept(r: RideId)
      requires r in db.inflight && db.inflight[r].read.Some?
      modifies this`db
      ensures db == AcceptCleanup(old(db), r)
    {
      var owed := db.inflight[r];
      var ride := owed.read.value;
      ReleaseDriverReservations(r, Some(Batch(owed.batch, owed.losers, 0)), owed.losers);
      ClearPendingMembership(r, owed.losers);
      db := db.(inflight := db.inflight - {r});
      Emit(StatusUpdate(r, ride.version, ride.status));
      Emit(StatusUpdate(r, ride.version, ride.status));
    }

    // ----- the ride lifecycle -----

    /** `requestRide`. */
    method RequestARide(customer: CustomerId) returns (reply: Reply, ride: RideId)
      modifies this`db
      ensures db == RequestRide(c, old(db), customer)
      ensures reply == if HasActiveRide(old(db), customer) then Failed(ActiveRideExists) else Done
      ensures reply == Done ==> ride == old(db).nextRide && ride in db.rides
                                && db.rides[ride] == Ride(customer, None, Requested, 0, c.initialRadius, None, None, 1)
    {
      ride := db.nextRide;
      if customer in db.customerRide {
        var active := db.customerRide[customer];
        if active in db.rides && !Terminal(db.rides[active].status) {
          return Failed(ActiveRideExists), ride;
        }
      }
      db := db.(nextRide := ride + 1);
      WriteRide(ride, Ride(customer, None, Requested, 0, c.initialRadius, None, None, 1));
      db := db.(customerRide := db.customerRide[customer := ride]);
      db := db.(activeRides := db.activeRides + {ride});
      return Done, ride;
    }

    /** `transitionRide`. */
    method TransitionRide(r: RideId, next: RideStatus) returns (reply: Reply)
      modifies this`db
      ensures db == Transition(old(db), r, next)
      ensures reply == if r !in old(db).rides then Failed(RideNotFound)
                       else if old(db).rides[r].status != next && next !in RideTransitions(old(db).rides[r].status)
                       then Failed(InvalidRideTransition) else Done
    {
      if r !in db.rides {
        return Failed(RideNotFound);
      }
      var ride := db.rides[r];
      if ride.status == next {
        return Done;
      }
      if next !in RideTransitions(ride.status) {
        return Failed(InvalidRideTransition);
      }
      WriteStatus(r, next);
      if Terminal(next) {
        CleanupTerminalRideKeys(r);
      }
      return Done;
    }

    method WriteStatus(r: RideId, next: RideStatus)
      requires r in db.rides
      modifies this`db
      ensures db == Moved(old(db), r, next)
    {
      var ride := db.rides[r];
      var moved := ride.(status := next, version := ride.version + 1,
                         cancellation := if next == Cancelled then Some(ByActor) else ride.cancellation);
      WriteRide(r, moved);
      Emit(StatusUpdate(r, moved.version, next));
      Emit(StatusUpdate(r, moved.version, next));
    }

    /** `markDriverArriving`, `startRide` and `completeRide`. */
    method DriverMoves(r: RideId, d: DriverId, next: RideStatus) returns (reply: Reply)
      modifies this`db
      ensures db == DriverTransition(old(db), r, d, next)
      ensures reply == if r !in old(db).rides || old(db).rides[r].driver != Some(d) then Failed(RideDriverMismatch)
                       else if old(db).rides[r].status == next || next in RideTransitions(old(db).rides[r].status) then Done
                       else Failed(InvalidRideTransition)
    {
      if r !in db.rides || db.rides[r].driver != Some(d) {
        return Failed(RideDriverMismatch);
      }
      reply := TransitionRide(r, next);
    }

    /** `cancelRide`. */
    method CancelARide(r: RideId) returns (reply: Reply)
      modifies this`db
      ensures db == CancelRide(old(db), r)
      ensures reply == Failed(RideNotFound) <==> r !in old(db).rides
    {
      if r !in db.rides {
        return Failed(RideNotFound);
      }
      if Terminal(db.rides[r].status) {
        return Done;
      }
      reply := TransitionRide(r, Cancelled);
    }

    // ----- driver presence -----

    /** `persistDriverRealtimeState`. */
    method PersistDriverRealtimeState(d: DriverId, driver: Driver)
      modifies this`db
      ensures db == Persist(old(db), d, driver)
    {
      db := db.(drivers := db.drivers[d := driver]);
      db := db.(online := db.online + {d});
      db := db.(heartbeats := db.heartbeats + {d});
      if driver.status == Online && driver.activeRide.None? {
        db := db.(available := db.available + {d});
        db := db.(busy := db.busy - {d});
        if driver.located {
          db := db.(geo := db.geo + {d});
        }
      } else {
        db := db.(available := db.available - {d});
        db := db.(geo := db.geo - {d});
        if driver.status == Busy {
          db := db.(busy := db.busy + {d});
        } else {
          db := db.(busy := db.busy - {d});
        }
      }
      if driver.activeRide.Some? {
        db := db.(activeKey := db.activeKey[d := driver.activeRide.value]);
      } else {
        db := db.(activeKey := db.activeKey - {d});
      }
    }

    method FindActiveRide(d: DriverId) returns (active: Option<RideId>)
      ensures active == ActiveRideOf(db, d)
    {
      if d in db.activeKey {
        return Some(db.activeKey[d]);
      }
      if d in db.drivers {
        return db.drivers[d].activeRide;
      }
      return None;
    }

    /** `goOnline`. */
    method ComeOnline(d: DriverId, located: bool)
      modifies this`db
      ensures db == GoOnline(old(db), d, located)
    {
      var active := FindActiveRide(d);
      PersistDriverRealtimeState(d, Driver(if active.Some? then Busy else Online, active, located));
    }

    /** `heartbeat`. */
    method Beat(d: DriverId, located: bool) returns (reply: Reply)
      modifies this`db
      ensures db == Heartbeat(old(db), d, located)
      ensures reply == if d in old(db).drivers then Done else Failed(DriverNotOnline)
    {
      if d !in db.drivers {
        return Failed(DriverNotOnline);
      }
      if db.drivers[d].status != Offline {
        PersistDriverRealtimeState(d, db.drivers[d].(located := located));
      }
      return Done;
    }

    /** `restoreDriverSession`. */
    method Restore(d: DriverId)
      modifies this`db
      ensures db == RestoreSession(old(db), d)
    {
      if d !in db.drivers || db.drivers[d].status == Offline {
        return;
      }
      PersistDriverRealtimeState(d, db.drivers[d].(located := true));
    }

    /** `goOffline`; it also reports the rides the driver still has offers for. */
    method LeaveOnline(d: DriverId) returns (pendingRides: seq<RideId>)
      modifies this`db
      ensures db == GoOffline(old(db), d)
      ensures forall r :: r in pendingRides <==> Offer(d, r) in old(db).pending
    {
      pendingRides := PendingRides(d);
      var active := FindActiveRide(d);
      var known := d in db.drivers;
      db := db.(online := db.online - {d});
      db := db.(available := db.available - {d});
      db := db.(busy := db.busy - {d});
      db := db.(geo := db.geo - {d});
      db := db.(heartbeats := db.heartbeats - {d});
      db := db.(reservations := db.reservations - {d});
      db := db.(drivers := db.drivers[d := Driver(Offline, active, known)]);
    }

    /** SMEMBERS of the driver's pending-dispatch set, in some order. */
    method PendingRides(d: DriverId) returns (rs: seq<RideId>)
      ensures forall r :: r in rs <==> Offer(d, r) in db.pending
    {
      var rest := set o | o in db.pending && o.driver == d;
      rs := [];
      while rest != {}
        invariant forall o :: o in rest ==> o in db.pending && o.driver == d
        invariant forall r :: r in rs <==> Offer(d, r) in db.pending && Offer(d, r) !in rest
      {
        var o :| o in rest;
        assert o == Offer(d, o.ride);
        rest := rest - {o};
        rs := rs + [o.ride];
      }
    }
  }
}
