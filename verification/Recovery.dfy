/** The periodic scans: stale drivers, and dispatching rides nobody is working on. */
module Recovery {
  import opened Wrappers
  import opened Types
  import opened Steps
  import opened Invariants
  import opened Sweep
  import opened Store

  /** What `goOffline` reports about a driver it took offline. */
  datatype Gone = Gone(driver: DriverId, rides: seq<RideId>)

  /** One report for each of `ds`, listing the rides the driver had open offers for in state `s`. */
  ghost predicate Reports(s: State, gone: seq<Gone>, ds: set<DriverId>) {
    && |gone| == |ds|
    && (forall d :: d in ds ==> exists g :: g in gone && g.driver == d)
    && (forall g :: g in gone ==> g.driver in ds && forall r :: r in g.rides <==> Offer(g.driver, r) in s.pending)
  }

  lemma OneMoreReport(s: State, gone: seq<Gone>, ds: set<DriverId>, g: Gone)
    requires Reports(s, gone, ds) && g.driver !in ds && forall r :: r in g.rides <==> Offer(g.driver, r) in s.pending
    ensures Reports(s, gone + [g], ds + {g.driver})
  {
    forall d | d in ds + {g.driver} ensures exists h :: h in gone + [g] && h.driver == d {
      if d in ds {
        var h :| h in gone && h.driver == d;
        assert h in gone + [g];
      } else {
        assert g in gone + [g];
      }
    }
  }

  /** GEOSEARCH: any distinct members of the geo index, in any order. */
  method NearestAvailableDrivers(store: Redis) returns (near: seq<DriverId>)
    ensures Candidates(store.db, near)
  {
    near := [];
    var rest := store.db.geo;
    while rest != {}
      invariant rest <= store.db.geo && Candidates(store.db, near)
      invariant forall d :: d in near ==> d !in rest
    {
      var d :| d in rest;
      rest := rest - {d};
      if * {
        near := near + [d];
      }
    }
  }

  /** `scanStaleDrivers`; a driver lock that is busy ends it without a report. */
  method ScanStaleDrivers(store: Redis) returns (gone: Option<seq<Gone>>, ghost visited: set<DriverId>)
    modifies store`db
    ensures visited <= StaleDrivers(old(store.db)) && store.db == AllOffline(old(store.db), visited)
    ensures gone.Some? ==> visited == StaleDrivers(old(store.db)) && Reports(old(store.db), gone.value, visited)
  {
    ghost var s := store.db;
    visited := {};
    NobodyOffline(s);
    var reports: seq<Gone> := [];
    var rest := store.db.online;
    while rest != {}
      invariant rest <= s.online && visited == s.online - rest - s.heartbeats
      invariant store.db == AllOffline(s, visited)
      invariant Reports(s, reports, visited)
    {
      var d :| d in rest;
      rest := rest - {d};
      if d in store.db.heartbeats {
        assert visited == s.online - rest - s.heartbeats;
        continue;
      }
      if * {
        return None, visited;
      }
      OneMoreOffline(s, visited, d);
      var rides := store.LeaveOnline(d);
      OneMoreReport(s, reports, visited, Gone(d, rides));
      visited := visited + {d};
      reports := reports + [Gone(d, rides)];
    }
    assert visited == StaleDrivers(s);
    return Some(reports), visited;
  }

  lemma OneMoreDrop(c: Config, s: State, drops: seq<Drop>, drop: Drop)
    requires CandidatesAtEach(c, s, drops) && Candidates(DropAll(c, s, drops), drop.near)
    ensures CandidatesAtEach(c, s, drops + [drop]) && DropAll(c, s, drops + [drop]) == DropOne(c, DropAll(c, s, drops), drop)
    decreases |drops|
  {
    if drops == [] {
      assert drops + [drop] == [drop] && [drop][1..] == [];
    } else {
      assert (drops + [drop])[1..] == drops[1..] + [drop];
      OneMoreDrop(c, DropOne(c, s, drops[0]), drops[1..], drop);
    }
  }

  /** The rejections `drops`, made one after the other since state `s`. */
  ghost predicate Dropping(c: Config, s: State, t: State, drops: seq<Drop>) {
    CandidatesAtEach(c, s, drops) && t == DropAll(c, s, drops)
  }

  /** Every offer of the report has been rejected. */
  ghost predicate ReportDropped(g: Gone, drops: seq<Drop>) {
    forall r :: r in g.rides ==> IsDropped(drops, Offer(g.driver, r))
  }

  lemma StillDropped(g: Gone, drops: seq<Drop>, more: seq<Drop>)
    requires ReportDropped(g, drops) && drops <= more
    ensures ReportDropped(g, more)
  {
    forall r | r in g.rides ensures IsDropped(more, Offer(g.driver, r)) {
      var i :| 0 <= i < |drops| && drops[i].offer == Offer(g.driver, r);
      assert more[i] == drops[i];
    }
  }

  /** `markDriverUnavailableDuringDispatch`; false if the ride lock is busy. */
  method MarkDriverUnavailableDuringDispatch(store: Redis, ghost s: State, r: RideId, d: DriverId, reason: string,
                                             ghost drops: seq<Drop>)
    returns (ok: bool, ghost more: seq<Drop>)
    requires store.c.batchSize >= 1 && Dropping(store.c, s, store.db, drops)
    modifies store`db
    ensures Dropping(store.c, s, store.db, more)
    ensures if ok then |more| == |drops| + 1 && more[..|drops|] == drops && more[|drops|].offer == Offer(d, r) && more[|drops|].reason == reason
            else more == drops
  {
    if * {
      return false, drops;
    }
    var near := NearestAvailableDrivers(store);
    OneMoreDrop(store.c, s, drops, Drop(Offer(d, r), reason, near));
    store.HandleDriverRejection(r, d, reason, near);
    return true, drops + [Drop(Offer(d, r), reason, near)];
  }

  /** `handleDriverDrop`: a rejection for every ride the driver still had an open offer for, until one fails. */
  method HandleDriverDrop(store: Redis, ghost s: State, g: Gone, reason: string, ghost drops: seq<Drop>)
    returns (ok: bool, ghost more: seq<Drop>)
    requires store.c.batchSize >= 1 && Dropping(store.c, s, store.db, drops)
    modifies store`db
    ensures Dropping(store.c, s, store.db, more) && drops <= more
    ensures forall i :: |drops| <= i < |more| ==> more[i].offer.driver == g.driver && more[i].reason == reason
    ensures ok ==> ReportDropped(g, more)
  {
    more := drops;
    for i := 0 to |g.rides|
      invariant Dropping(store.c, s, store.db, more) && drops <= more
      invariant forall k :: |drops| <= k < |more| ==> more[k].offer.driver == g.driver && more[k].reason == reason
      invariant |more| == |drops| + i
      invariant forall j :: 0 <= j < i ==> more[|drops| + j].offer == Offer(g.driver, g.rides[j])
    {
      ghost var before := more;
      ok, more := MarkDriverUnavailableDuringDispatch(store, s, g.rides[i], g.driver, reason, more);
      assert forall k :: 0 <= k < |before| ==> more[k] == before[k];
      if !ok {
        return false, more;
      }
    }
    forall r | r in g.rides ensures IsDropped(more, Offer(g.driver, r)) {
      var j :| 0 <= j < |g.rides| && g.rides[j] == r;
      assert more[|drops| + j].offer == Offer(g.driver, r);
    }
    return true, more;
  }

  /** The second half of the sweep: every reported driver is dropped from every ride it had an offer for, until a lock is busy. */
  method DropFromDispatch(store: Redis, gone: seq<Gone>, ghost s: State, ghost ds: set<DriverId>)
    returns (ok: bool, ghost drops: seq<Drop>)
    requires store.c.batchSize >= 1 && store.db == s
    requires forall g :: g in gone ==> g.driver in ds
    modifies store`db
    ensures Dropping(store.c, s, store.db, drops)
    ensures forall i :: 0 <= i < |drops| ==> drops[i].offer.driver in ds
    ensures ok ==> forall j :: 0 <= j < |gone| ==> ReportDropped(gone[j], drops)
  {
    drops := [];
    for i := 0 to |gone|
      invariant Dropping(store.c, s, store.db, drops)
      invariant forall k :: 0 <= k < |drops| ==> drops[k].offer.driver in ds
      invariant forall j :: 0 <= j < i ==> ReportDropped(gone[j], drops)
    {
      ghost var before := drops;
      ok, drops := HandleDriverDrop(store, s, gone[i], "HEARTBEAT_TIMEOUT", drops);
      assert gone[i] in gone && forall k :: 0 <= k < |before| ==> drops[k] == before[k];
      if !ok {
        return false, drops;
      }
      forall j | 0 <= j < i ensures ReportDropped(gone[j], drops) {
        StillDropped(gone[j], before, drops);
      }
    }
    return true, drops;
  }

  lemma EverythingDropped(s: State, gone: seq<Gone>, drops: seq<Drop>)
    requires Reports(s, gone, StaleDrivers(s))
    requires forall i :: 0 <= i < |drops| ==> drops[i].offer.driver in StaleDrivers(s)
    requires forall j :: 0 <= j < |gone| ==> ReportDropped(gone[j], drops)
    ensures CoversStale(s, drops)
  {
    forall o | o in s.pending && o.driver in StaleDrivers(s) ensures exists i :: 0 <= i < |drops| && drops[i].offer == o {
      var g :| g in gone && g.driver == o.driver;
      var j :| 0 <= j < |gone| && gone[j] == g;
      assert Offer(g.driver, o.ride) == o && IsDropped(drops, o);
    }
  }

  /**
   * `scanStaleDriversAndRecover`, whatever GEOSEARCH returns to the dispatches it triggers: the sweep of the drivers it
   * visited, with the rejections it made. When no lock is busy it visits every stale driver, rejects every offer of theirs
   * and counts them.
   */
  method ScanStaleDriversAndRecover(store: Redis) returns (count: Option<nat>, ghost visited: set<DriverId>, ghost drops: seq<Drop>)
    requires Inv(store.db) && store.c.batchSize >= 1
    modifies store`db
    ensures visited <= StaleDrivers(old(store.db)) && CandidatesAtEach(store.c, AllOffline(old(store.db), visited), drops)
    ensures store.db == SweepCut(store.c, old(store.db), visited, drops)
    ensures count.Some? ==>
              && visited == StaleDrivers(old(store.db)) && count.value == |visited|
              && CoversStale(old(store.db), drops) && Swept(old(store.db), store.db)
  {
    ghost var s := store.db;
    var gone;
    gone, visited := ScanStaleDrivers(store);
    drops := [];
    if gone.None? {
      return None, visited, drops;
    }
    var ok;
    ok, drops := DropFromDispatch(store, gone.value, store.db, visited);
    if !ok {
      return None, visited, drops;
    }
    EverythingDropped(s, gone.value, drops);
    SweepDelivers(store.c, s, drops);
    return Some(|gone.value|), visited, drops;
  }

  // ----- rides without a running batch -----

  datatype Job = StartJob(ride: RideId) | TimeoutJob(ride: RideId, batch: BatchId)

  /** The job `recoverDispatchingRides` queues for a ride of the active set, if any. */
  predicate NeedsJob(s: State, job: Job) {
    && job.ride in s.activeRides && job.ride in s.rides && s.rides[job.ride].status == Dispatching
    && match job
       case StartJob(r) => s.rides[r].batch.None?
       case TimeoutJob(r, b) => s.rides[r].batch.Some? && s.rides[r].batch.value.id == b && s.rides[r].batch.value.expiresAt <= s.now
  }

  /**
   * `recoverDispatchingRides`: ids without a ride hash leave the active set, nothing else changes, and an active dispatching
   * ride gets a job exactly when it has no running batch.
   */
  method RecoverDispatchingRides(store: Redis) returns (jobs: seq<Job>, recovered: nat)
    modifies store`db
    ensures store.db == old(store.db).(activeRides := store.db.activeRides) && recovered == |jobs|
    ensures forall r :: r in store.db.activeRides <==> r in old(store.db).activeRides && r in store.db.rides
    ensures forall job :: job in jobs <==> NeedsJob(store.db, job)
    ensures forall r :: r in store.db.activeRides && store.db.rides[r].status == Dispatching ==>
              (BatchRunning(store.db, r) <==> forall job :: job in jobs ==> job.ride != r)
  {
    ghost var s := store.db;
    jobs := [];
    var rest := store.db.activeRides;
    while rest != {}
      invariant store.db == s.(activeRides := store.db.activeRides) && rest <= s.activeRides
      invariant forall r :: r in store.db.activeRides <==> r in s.activeRides && (r in s.rides || r in rest)
      invariant forall job :: job in jobs <==> NeedsJob(s, job) && job.ride !in rest
    {
      var r :| r in rest;
      rest := rest - {r};
      if r !in store.db.rides {
        store.db := store.db.(activeRides := store.db.activeRides - {r});
        continue;
      }
      var ride := store.db.rides[r];
      if ride.status != Dispatching {
        continue;
      }
      if ride.batch.None? {
        jobs := jobs + [StartJob(r)];
      } else if ride.batch.value.expiresAt <= store.db.now {
        jobs := jobs + [TimeoutJob(r, ride.batch.value.id)];
      }
    }
    recovered := |jobs|;
    forall r | r in store.db.activeRides && store.db.rides[r].status == Dispatching && !BatchRunning(store.db, r)
      ensures exists job :: job in jobs && job.ride == r
    {
      var batch := store.db.rides[r].batch;
      var job := if batch.None? then StartJob(r) else TimeoutJob(r, batch.value.id);
      assert NeedsJob(s, job);
      assert job in jobs;
    }
  }
}
