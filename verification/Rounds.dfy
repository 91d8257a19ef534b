/** One dispatch round: how it can end, how the search widens, and which drivers it contacts. */
module Rounds {
  import opened Wrappers
  import opened Types
  import opened Lifecycle
  import opened Steps
  import opened Invariants
  import opened Preservation
  import opened Runs
  import opened Evolution
  import opened Guarantees

  // ----- the four outcomes -----

  predicate Dispatchable(s: State, r: RideId) {
    r in s.rides && (s.rides[r].status == Requested || s.rides[r].status == Dispatching)
  }

  /**
   * The driver may be contacted this round: not notified yet, or round 2 is reached; ONLINE with a heartbeat, on no ride, not
   * on cooldown, and not reserved but by the batch that is to be closed first.
   */
  predicate MayContact(s: State, r: RideId, d: DriverId)
    requires r in s.rides
  {
    && (Offer(d, r) !in s.notified || s.rides[r].round > 1)
    && d in s.drivers && s.drivers[d].status == Online && d in s.heartbeats && d !in s.activeKey && d !in s.cooldowns
    && (d in s.reservations ==> s.rides[r].batch.Some? && HoldsTokenOf(s, r, s.rides[r].batch.value, d))
  }

  predicate HoldsTokenOf(s: State, r: RideId, b: Batch, d: DriverId) {
    d in s.reservations && s.reservations[d] == Token(r, b.id) && d in b.drivers
  }

  /** Some candidate is such a driver. */
  ghost predicate SomebodyReservable(s: State, r: RideId, near: seq<DriverId>)
    requires r in s.rides
  {
    exists d :: d in near && MayContact(s, r, d)
  }

  predicate OutOfRounds(c: Config, ride: Ride) {
    ride.round >= c.maxRounds || EntryRadius(c, ride) >= c.maxRadius
  }

  /** A fresh, non-empty batch: every driver in it is reserved, pending, indexed, notified and sent a request. */
  ghost predicate BatchSent(s: State, t: State, r: RideId) {
    && r in t.rides && t.rides[r].status == Dispatching && t.rides[r].batch.Some?
    && var b := t.rides[r].batch.value;
    && b.id >= s.nextBatch && b.drivers != []
    && (forall d :: d in b.drivers ==>
          && d in t.reservations && t.reservations[d] == Token(r, b.id)
          && IsPending(t.responses, Offer(d, r), b.id)
          && Offer(d, r) in t.pending && Offer(d, r) in t.notified)
    && |b.drivers| <= |t.log|
    && t.log[|t.log| - |b.drivers|..] == RequestsTo(b.drivers, r, b.id)
  }

  predicate SearchExpanded(c: Config, s: State, t: State, r: RideId) {
    && r in s.rides && r in t.rides && t.rides[r].status == Dispatching && t.rides[r].batch.None?
    && t.rides[r].round == s.rides[r].round + 1
    && t.rides[r].radius == MinReal(EntryRadius(c, s.rides[r]) * 2.0, c.maxRadius)
  }

  /** Cancelled for want of drivers, and no key of the ride is left behind. */
  ghost predicate GivenUp(t: State, r: RideId) {
    && r in t.rides && t.rides[r].status == Cancelled && t.rides[r].cancellation == Some(NoDriversAvailable)
    && r !in t.activeRides
    && (forall k :: k in t.customerRide ==> t.customerRide[k] != r)
    && (forall d :: d in t.reservations ==> t.reservations[d].ride != r)
    && (forall o :: o in t.pending ==> o.ride != r)
  }

  lemma PickEmpty(s: State, candidates: seq<DriverId>, n: nat)
    requires n >= 1
    ensures Pick(s, candidates, n) == [] <==> forall d :: d in candidates ==> !Reservable(s, d)
  {
    var all := ReservableAmong(s, candidates);
    if all != [] {
      assert all[0] in all;
    }
  }

  /** The state a dispatch searches from. */
  function ReadyToSearch(c: Config, s: State, r: RideId): State
    requires r in s.rides
  {
    ExpireBatch(StartIfRequested(c, s, r), r)
  }

  lemma SearchFindsSomebody(c: Config, s: State, r: RideId, near: seq<DriverId>)
    requires Dispatchable(s, r) && ValidConfig(c) && RideShape(s.rides[r], s.nextBatch)
    ensures SomebodyReservable(s, r, near) <==>
            Pick(ReadyToSearch(c, s, r), Eligible(ReadyToSearch(c, s, r), r, s.rides[r].round, near), c.batchSize) != []
  {
    var u := ReadyToSearch(c, s, r);
    forall d ensures MayContact(s, r, d) <==> (Offer(d, r) !in u.notified || s.rides[r].round > 1) && Reservable(u, d) {
      ContactIff(c, s, r, d);
    }
    PickFinds(u, r, s.rides[r].round, near, c.batchSize, (d: DriverId) => MayContact(s, r, d));
  }

  lemma PickFinds(u: State, r: RideId, round: nat, near: seq<DriverId>, n: nat, may: DriverId -> bool)
    requires n > 0 && forall d :: may(d) <==> (Offer(d, r) !in u.notified || round > 1) && Reservable(u, d)
    ensures (exists d :: d in near && may(d)) <==> Pick(u, Eligible(u, r, round, near), n) != []
  {
    PickEmpty(u, Eligible(u, r, round, near), n);
  }

  lemma SendIsBatchSent(c: Config, s: State, u: State, r: RideId, chosen: seq<DriverId>)
    requires r in u.rides && u.rides[r].status == Dispatching && s.nextBatch <= u.nextBatch && chosen != []
    ensures BatchSent(s, SendBatch(c, u, r, chosen), r)
  {
    var t := SendBatch(c, u, r, chosen);
    var requests := RequestsTo(chosen, r, u.nextBatch);
    assert t.log == u.log + requests && |requests| == |chosen|;
    assert t.log[|t.log| - |chosen|..] == requests;
  }

  lemma CancelIsGivenUp(c: Config, s: State, r: RideId)
    requires Inv(s) && r in s.rides && s.rides[r].status == Dispatching && s.rides[r].batch.None?
    ensures GivenUp(CancelExhausted(s, r), r)
  {
    var t := CancelExhausted(s, r);
    ExhaustedKeeps(s, r);
    ExhaustedRide(s, r);
    assert t.inflight == s.inflight;
    NothingOutstanding(t, r);
  }

  lemma SearchOutcome(c: Config, s: State, u: State, r: RideId, round: nat, radius: real, near: seq<DriverId>)
    requires Inv(u) && Candidates(u, near) && r in u.rides && u.rides[r].status == Dispatching && u.rides[r].batch.None?
    requires s.nextBatch <= u.nextBatch
    ensures var t := Search(c, u, r, round, radius, near);
            var found := Pick(u, Eligible(u, r, round, near), c.batchSize) != [];
            && (found ==> BatchSent(s, t, r))
            && (!found && (round >= c.maxRounds || radius >= c.maxRadius) ==> GivenUp(t, r))
            && (!found && !(round >= c.maxRounds || radius >= c.maxRadius) ==>
                  && t.rides == u.rides[r := t.rides[r]] && t.rides[r].status == Dispatching && t.rides[r].batch.None?
                  && t.rides[r].round == round + 1 && t.rides[r].radius == MinReal(radius * 2.0, c.maxRadius))
  {
    var candidates := Eligible(u, r, round, near);
    var chosen := Pick(u, candidates, c.batchSize);
    var ghosts := GhostsScanned(u, candidates, c.batchSize);
    var v := RemoveGhosts(u, ghosts);
    GhostsKeep(u, ghosts);
    if chosen != [] {
      SendIsBatchSent(c, s, v, r, chosen);
    } else if round >= c.maxRounds || radius >= c.maxRadius {
      CancelIsGivenUp(c, v, r);
    }
  }

  lemma ReadyKeeps(c: Config, s: State, r: RideId)
    requires Inv(s) && Dispatchable(s, r)
    ensures Inv(ReadyToSearch(c, s, r)) && ReadyRide(c, s, r)
  {
    var u := StartIfRequested(c, s, r);
    ReadyShape(c, s, r);
    StartKeeps(c, s, r);
    assert u.rides[r].status == Dispatching by { StartRide(c, s, r); }
    ExpireKeeps(u, r);
  }

  predicate ReadyRide(c: Config, s: State, r: RideId)
    requires r in s.rides
  {
    var u := ReadyToSearch(c, s, r);
    && r in u.rides && u.rides[r].status == Dispatching && u.rides[r].batch.None?
    && u.nextBatch == s.nextBatch && u.geo == s.geo
  }

  lemma ReadyShape(c: Config, s: State, r: RideId)
    requires Dispatchable(s, r) && RideShape(s.rides[r], s.nextBatch)
    ensures ReadyRide(c, s, r)
  {
  }

  lemma SearchingDispatch(c: Config, s: State, r: RideId, near: seq<DriverId>)
    requires Dispatchable(s, r) && RideShape(s.rides[r], s.nextBatch)
    ensures Dispatch(c, s, r, near) ==
            if BatchRunning(s, r) then s
            else Search(c, ReadyToSearch(c, s, r), r, s.rides[r].round, EntryRadius(c, s.rides[r]), near)
  {
  }

  lemma OutcomesExcludeEachOther(c: Config, s: State, t: State, r: RideId)
    requires Dispatchable(s, r) && RideShape(s.rides[r], s.nextBatch)
    ensures !(t == s && BatchSent(s, t, r)) && !(t == s && GivenUp(t, r)) && !(t == s && SearchExpanded(c, s, t, r))
    ensures !(BatchSent(s, t, r) && GivenUp(t, r)) && !(BatchSent(s, t, r) && SearchExpanded(c, s, t, r))
    ensures !(GivenUp(t, r) && SearchExpanded(c, s, t, r))
  {
  }

  lemma SearchingOutcome(c: Config, s: State, r: RideId, near: seq<DriverId>)
    requires Inv(s) && Candidates(s, near) && Dispatchable(s, r) && ValidConfig(c) && !BatchRunning(s, r)
    ensures var t := Dispatch(c, s, r, near);
            && (SomebodyReservable(s, r, near) ==> BatchSent(s, t, r))
            && (!SomebodyReservable(s, r, near) && OutOfRounds(c, s.rides[r]) ==> GivenUp(t, r))
            && (!SomebodyReservable(s, r, near) && !OutOfRounds(c, s.rides[r]) ==> SearchExpanded(c, s, t, r))
  {
    ReadyKeeps(c, s, r);
    SearchingDispatch(c, s, r, near);
    SearchFindsSomebody(c, s, r, near);
    ReadyOutcome(c, s, ReadyToSearch(c, s, r), r, near);
  }

  lemma ReadyOutcome(c: Config, s: State, u: State, r: RideId, near: seq<DriverId>)
    requires Inv(u) && Candidates(u, near) && r in s.rides && r in u.rides && u.rides[r].status == Dispatching && u.rides[r].batch.None?
    requires s.nextBatch <= u.nextBatch
    ensures var t := Search(c, u, r, s.rides[r].round, EntryRadius(c, s.rides[r]), near);
            var found := Pick(u, Eligible(u, r, s.rides[r].round, near), c.batchSize) != [];
            && (found ==> BatchSent(s, t, r))
            && (!found && OutOfRounds(c, s.rides[r]) ==> GivenUp(t, r))
            && (!found && !OutOfRounds(c, s.rides[r]) ==> SearchExpanded(c, s, t, r))
  {
    SearchOutcome(c, s, u, r, s.rides[r].round, EntryRadius(c, s.rides[r]), near);
  }

  /** Every dispatch of a ride that is still to be assigned ends in exactly one of four ways, and this is when. */
  lemma DispatchOutcome(c: Config, s: State, r: RideId, near: seq<DriverId>)
    requires Reachable(c, s) && Candidates(s, near) && Dispatchable(s, r) && ValidConfig(c)
    ensures var t := Dispatch(c, s, r, near);
            var searching := !BatchRunning(s, r);
            && (t == s <==> !searching)
            && (BatchSent(s, t, r) <==> searching && SomebodyReservable(s, r, near))
            && (GivenUp(t, r) <==> searching && !SomebodyReservable(s, r, near) && OutOfRounds(c, s.rides[r]))
            && (SearchExpanded(c, s, t, r) <==> searching && !SomebodyReservable(s, r, near) && !OutOfRounds(c, s.rides[r]))
  {
    ReachableKeeps(c, s);
    if BatchRunning(s, r) {
      SearchingDispatch(c, s, r, near);
    } else {
      SearchingOutcome(c, s, r, near);
    }
    OutcomesExcludeEachOther(c, s, Dispatch(c, s, r, near), r);
  }

  // ----- which drivers a batch holds -----

  lemma {:induction false} FilterTwice(p: DriverId -> bool, q: DriverId -> bool, both: DriverId -> bool, xs: seq<DriverId>)
    requires forall d :: both(d) <==> p(d) && q(d)
    ensures Filter(q, Filter(p, xs)) == Filter(both, xs)
  {
    if xs != [] {
      FilterTwice(p, q, both, xs[1..]);
      if p(xs[0]) {
        assert ([xs[0]] + Filter(p, xs[1..]))[1..] == Filter(p, xs[1..]);
      }
    }
  }

  /** An element is among the first `n` that satisfy `p` when it does and fewer than `n` before it do. */
  lemma {:induction false} AmongFirst(p: DriverId -> bool, xs: seq<DriverId>, n: nat, i: nat)
    requires Distinct(xs) && i < |xs|
    ensures xs[i] in Take(Filter(p, xs), n) <==> p(xs[i]) && |Filter(p, xs[..i])| < n
  {
    var rest := xs[1..];
    var found := Filter(p, rest);
    assert p(xs[0]) && n > 0 ==> Take(Filter(p, xs), n) == [xs[0]] + Take(found, n - 1);
    if i > 0 {
      assert xs[..i] == [xs[0]] + rest[..i - 1] && xs[..i][1..] == rest[..i - 1] && rest[i - 1] == xs[i];
      assert xs[0] != xs[i];
      AmongFirst(p, rest, if p(xs[0]) && n > 0 then n - 1 else n, i - 1);
    }
  }

  /** The stateful scan keeps to the order of the list: a driver is in the batch when fewer than `batchSize` nearer ones could be. */
  lemma NearestFirst(c: Config, s: State, r: RideId, near: seq<DriverId>, i: nat)
    requires Reachable(c, s) && Candidates(s, near) && Dispatchable(s, r) && ValidConfig(c) && !BatchRunning(s, r)
    requires SomebodyReservable(s, r, near) && i < |near|
    ensures var t := Dispatch(c, s, r, near);
            && r in t.rides && t.rides[r].batch.Some?
            && (near[i] in t.rides[r].batch.value.drivers <==>
                  MayContact(s, r, near[i]) && |Filter((d: DriverId) => MayContact(s, r, d), near[..i])| < c.batchSize)
  {
    ReachableKeeps(c, s);
    var u := ReadyToSearch(c, s, r);
    ReadyShape(c, s, r);
    SearchingDispatch(c, s, r, near);
    SearchFindsSomebody(c, s, r, near);
    BatchOfSearch(c, u, r, s.rides[r].round, EntryRadius(c, s.rides[r]), near);
    ChosenIsFiltered(c, s, r, near);
    AmongFirst((d: DriverId) => MayContact(s, r, d), near, c.batchSize, i);
  }

  lemma BatchOfSearch(c: Config, u: State, r: RideId, round: nat, radius: real, near: seq<DriverId>)
    requires r in u.rides && Pick(u, Eligible(u, r, round, near), c.batchSize) != []
    ensures var t := Search(c, u, r, round, radius, near);
            r in t.rides && t.rides[r].batch.Some? && t.rides[r].batch.value.drivers == Pick(u, Eligible(u, r, round, near), c.batchSize)
  {
  }

  lemma ContactIff(c: Config, s: State, r: RideId, d: DriverId)
    requires Dispatchable(s, r) && RideShape(s.rides[r], s.nextBatch)
    ensures var u := ReadyToSearch(c, s, r);
            MayContact(s, r, d) <==> (Offer(d, r) !in u.notified || s.rides[r].round > 1) && Reservable(u, d)
  {
    var u := ReadyToSearch(c, s, r);
    assert u.notified == s.notified;
    assert Reservable(u, d) <==> Reservable(ExpireBatch(s, r), d);
  }

  lemma ChosenIsFiltered(c: Config, s: State, r: RideId, near: seq<DriverId>)
    requires Dispatchable(s, r) && RideShape(s.rides[r], s.nextBatch)
    ensures var u := ReadyToSearch(c, s, r);
            Pick(u, Eligible(u, r, s.rides[r].round, near), c.batchSize)
            == Take(Filter((d: DriverId) => MayContact(s, r, d), near), c.batchSize)
  {
    var u := ReadyToSearch(c, s, r);
    forall d ensures MayContact(s, r, d) <==> (Offer(d, r) !in u.notified || s.rides[r].round > 1) && Reservable(u, d) {
      ContactIff(c, s, r, d);
    }
    PickIsFiltered(u, r, s.rides[r].round, near, c.batchSize, (d: DriverId) => MayContact(s, r, d));
  }

  lemma PickIsFiltered(u: State, r: RideId, round: nat, near: seq<DriverId>, n: nat, may: DriverId -> bool)
    requires forall d :: may(d) <==> (Offer(d, r) !in u.notified || round > 1) && Reservable(u, d)
    ensures Pick(u, Eligible(u, r, round, near), n) == Take(Filter(may, near), n)
  {
    FilterTwice((d: DriverId) => Offer(d, r) !in u.notified || round > 1, (d: DriverId) => Reservable(u, d), may, near);
  }

  // ----- radius expansion -----

  function Pow2(k: nat): (p: real)
    ensures p >= 1.0
  {
    if k == 0 then 1.0 else 2.0 * Pow2(k - 1)
  }

  /** The radius the k-th dispatch of a fresh ride searches, counting from 0. */
  function RadiusAt(c: Config, k: nat): real {
    MinReal(c.initialRadius * Pow2(k), c.maxRadius)
  }

  predicate GivesUpAt(c: Config, k: nat) {
    k >= c.maxRounds || c.initialRadius * Pow2(k) >= c.maxRadius
  }

  /** The first dispatch that gives up, searched for from `k` on. */
  function LastRoundFrom(c: Config, k: nat): (n: nat)
    ensures k <= n && GivesUpAt(c, n) && forall i :: k <= i < n ==> !GivesUpAt(c, i)
    decreases c.maxRounds - k
  {
    if GivesUpAt(c, k) then k else LastRoundFrom(c, k + 1)
  }

  function LastRound(c: Config): nat {
    LastRoundFrom(c, 0)
  }

  /** What a dispatch that finds nobody does to a ride without a batch. */
  function Fruitless(c: Config, ride: Ride): Ride {
    var version := if ride.status == Requested then ride.version + 2 else ride.version + 1;
    if OutOfRounds(c, ride) then
      ride.(status := Cancelled, cancellation := Some(NoDriversAvailable), version := version,
            round := if ride.status == Requested then 1 else ride.round,
            radius := if ride.status == Requested then c.initialRadius else ride.radius)
    else
      ride.(status := Dispatching, round := ride.round + 1, version := version,
            radius := MinReal(EntryRadius(c, ride) * 2.0, c.maxRadius))
  }

  lemma FruitlessDispatch(c: Config, s: State, r: RideId, near: seq<DriverId>)
    requires Dispatchable(s, r) && ValidConfig(c) && RideShape(s.rides[r], s.nextBatch) && s.rides[r].batch.None?
    requires !SomebodyReservable(s, r, near)
    ensures Dispatch(c, s, r, near).rides == s.rides[r := Fruitless(c, s.rides[r])]
  {
    SearchingDispatch(c, s, r, near);
    SearchFindsSomebody(c, s, r, near);
    ReadyShape(c, s, r);
    FruitlessSearch(c, ReadyToSearch(c, s, r), r, s.rides[r].round, EntryRadius(c, s.rides[r]), near);
    ReadyRides(c, s, r);
  }

  lemma ReadyRides(c: Config, s: State, r: RideId)
    requires Dispatchable(s, r) && s.rides[r].batch.None?
    ensures ReadyToSearch(c, s, r).rides == s.rides[r := StartIfRequested(c, s, r).rides[r]]
    ensures StartIfRequested(c, s, r).rides[r] ==
            if s.rides[r].status == Dispatching then s.rides[r]
            else s.rides[r].(status := Dispatching, round := 1, radius := c.initialRadius, version := s.rides[r].version + 1)
  {
  }

  lemma FruitlessSearch(c: Config, s: State, r: RideId, round: nat, radius: real, near: seq<DriverId>)
    requires r in s.rides && Pick(s, Eligible(s, r, round, near), c.batchSize) == []
    ensures Search(c, s, r, round, radius, near).rides == s.rides[r :=
              if round >= c.maxRounds || radius >= c.maxRadius then
                s.rides[r].(status := Cancelled, cancellation := Some(NoDriversAvailable), batch := None, version := s.rides[r].version + 1)
              else
                s.rides[r].(round := round + 1, radius := MinReal(radius * 2.0, c.maxRadius), batch := None,
                            version := s.rides[r].version + 1)]
  {
    ExhaustedRide(RemoveGhosts(s, GhostsScanned(s, Eligible(s, r, round, near), c.batchSize)), r);
  }

  /** The ride after `k` fruitless dispatches. */
  ghost predicate AfterFruitless(c: Config, created: Ride, k: nat, ride: Ride) {
    if k == 0 then ride == created
    else if k <= LastRound(c) then
      ride.status == Dispatching && ride.batch.None? && ride.round == k && ride.radius == RadiusAt(c, k)
    else
      ride.status == Cancelled && ride.cancellation == Some(NoDriversAvailable)
  }

  predicate Fresh(c: Config, ride: Ride) {
    ride.status == Requested && ride.round == 0 && ride.radius == c.initialRadius && ride.batch.None?
  }

  lemma DoubleRadius(c: Config, k: nat)
    requires ValidConfig(c)
    ensures MinReal(RadiusAt(c, k) * 2.0, c.maxRadius) == RadiusAt(c, k + 1)
    ensures RadiusAt(c, k) > 0.0
    ensures RadiusAt(c, k) >= c.maxRadius <==> c.initialRadius * Pow2(k) >= c.maxRadius
  {
    assert c.initialRadius * Pow2(k + 1) == 2.0 * (c.initialRadius * Pow2(k));
    assert c.initialRadius * Pow2(k) > 0.0;
  }

  /** One more fruitless dispatch: the k-th one sees round `k` and radius min(initial * 2^k, max), and gives up exactly at the last round. */
  lemma FruitlessStep(c: Config, created: Ride, k: nat, ride: Ride)
    requires ValidConfig(c) && Fresh(c, created) && k <= LastRound(c) && AfterFruitless(c, created, k, ride)
    ensures ride.round == k && EntryRadius(c, ride) == RadiusAt(c, k)
    ensures OutOfRounds(c, ride) <==> k == LastRound(c)
    ensures AfterFruitless(c, created, k + 1, Fruitless(c, ride))
  {
    DoubleRadius(c, k);
    assert Pow2(0) == 1.0;
    assert OutOfRounds(c, ride) <==> GivesUpAt(c, k);
  }

  /** The step dispatches ride `r` while it still is to be assigned. */
  predicate IsDispatchOf(s: State, step: Step, r: RideId) {
    step.Dispatches? && step.ride == r && Dispatchable(s, r)
  }

  predicate IsCancelOf(s: State, step: Step, r: RideId) {
    step.Cancels? && step.ride == r && Dispatchable(s, r)
  }

  /** From state `i` to state `n`, nobody can be reserved for ride `r` when it is dispatched, and nobody cancels it. */
  ghost predicate NobodyAnswersToSearch(ss: seq<State>, steps: seq<Step>, i: nat, n: nat, r: RideId)
    requires n <= |steps| < |ss|
  {
    forall j {:trigger steps[j]} :: i <= j < n ==>
      && (IsDispatchOf(ss[j], steps[j], r) ==> !SomebodyReservable(ss[j], r, steps[j].near))
      && !IsCancelOf(ss[j], steps[j], r)
  }

  // ----- a ride nobody has been offered changes by its dispatches only -----

  /** No driver has ever been offered the ride. */
  ghost predicate NeverOffered(s: State, r: RideId) {
    forall o :: o in s.responses ==> o.ride != r
  }

  /** The ride does not exist, is over, or is still to be assigned and has no batch. */
  predicate Unoffered(s: State, r: RideId) {
    r in s.rides ==> Terminal(s.rides[r].status) || (s.rides[r].batch.None? && s.rides[r].driver.None?)
  }

  /** Neither the ride hash nor its responses have changed. */
  ghost predicate LeavesRide(s: State, t: State, r: RideId) {
    && (r in s.rides ==> r in t.rides && t.rides[r] == s.rides[r])
    && (NeverOffered(s, r) ==> NeverOffered(t, r))
  }

  lemma SearchLeavesOthers(c: Config, s: State, q: RideId, round: nat, radius: real, near: seq<DriverId>, r: RideId)
    requires q in s.rides && NeverOffered(s, r)
    requires q != r || Pick(s, Eligible(s, q, round, near), c.batchSize) == []
    ensures NeverOffered(Search(c, s, q, round, radius, near), r)
  {
    CancelLeavesResponses(RemoveGhosts(s, GhostsScanned(s, Eligible(s, q, round, near), c.batchSize)), q);
  }

  lemma CancelLeavesResponses(s: State, q: RideId)
    requires q in s.rides
    ensures CancelExhausted(s, q).responses == s.responses
  {
  }

  lemma DispatchLeavesOthers(c: Config, s: State, q: RideId, near: seq<DriverId>, r: RideId)
    requires q != r && (q in s.rides ==> RideShape(s.rides[q], s.nextBatch))
    ensures LeavesRide(s, Dispatch(c, s, q, near), r)
  {
    if Dispatchable(s, q) {
      DispatchRide(c, s, q, near);
      ReadyShape(c, s, q);
      SearchingDispatch(c, s, q, near);
      if NeverOffered(s, r) {
        ReadyNeverOffered(c, s, q, r);
        SearchLeavesOthers(c, ReadyToSearch(c, s, q), q, s.rides[q].round, EntryRadius(c, s.rides[q]), near, r);
      }
    }
  }

  lemma ReadyNeverOffered(c: Config, s: State, q: RideId, r: RideId)
    requires q in s.rides && NeverOffered(s, r)
    ensures NeverOffered(ReadyToSearch(c, s, q), r)
  {
  }

  lemma FruitlessNeverOffered(c: Config, s: State, r: RideId, near: seq<DriverId>)
    requires Dispatchable(s, r) && ValidConfig(c) && RideShape(s.rides[r], s.nextBatch) && NeverOffered(s, r)
    requires !SomebodyReservable(s, r, near)
    ensures NeverOffered(Dispatch(c, s, r, near), r)
  {
    SearchingDispatch(c, s, r, near);
    SearchFindsSomebody(c, s, r, near);
    ReadyShape(c, s, r);
    ReadyNeverOffered(c, s, r, r);
    SearchLeavesOthers(c, ReadyToSearch(c, s, r), r, s.rides[r].round, EntryRadius(c, s.rides[r]), near, r);
  }

  lemma TimeoutLeaves(c: Config, s: State, q: RideId, b: BatchId, near: seq<DriverId>, r: RideId)
    requires (q in s.rides ==> RideShape(s.rides[q], s.nextBatch)) && Unoffered(s, r)
    ensures LeavesRide(s, BatchTimeout(c, s, q, b, near), r)
  {
    if q in s.rides && s.rides[q].status == Dispatching && q != r {
      var u := ExpireBatch(s, q);
      ExpireLeaves(s, q, r);
      DispatchLeavesOthers(c, u, q, near, r);
    }
  }

  lemma ExpireLeaves(s: State, q: RideId, r: RideId)
    requires q in s.rides && s.rides[q].status == Dispatching && q != r && RideShape(s.rides[q], s.nextBatch)
    ensures var u := ExpireBatch(s, q); LeavesRide(s, u, r) && q in u.rides && RideShape(u.rides[q], u.nextBatch)
  {
  }

  lemma RejectLeaves(c: Config, s: State, q: RideId, d: DriverId, reason: string, near: seq<DriverId>, r: RideId)
    requires (q in s.rides ==> RideShape(s.rides[q], s.nextBatch)) && NeverOffered(s, r)
    ensures LeavesRide(s, Reject(c, s, q, d, reason, near), r)
  {
    if CanReject(s, q, d) {
      RejectionRide(c, s, q, d, reason);
      DispatchLeavesOthers(c, RecordRejection(c, s, q, d, reason), q, near, r);
    }
  }

  lemma AcceptLeaves(c: Config, s: State, step: Step, r: RideId)
    requires (step.Accepts? || step.ScriptRuns? || step.AcceptFinishes?) && NeverOffered(s, r)
    ensures LeavesRide(s, Apply(c, s, step), r)
  {
    if step.ScriptRuns? {
      ScriptLeaves(s, step.ride, step.driver, step.seen, step.at, r);
    } else if step.Accepts? && step.ride in s.rides {
      ScriptLeaves(s, step.ride, step.driver, s.rides[step.ride].batch, s.now, r);
    }
  }

  lemma ScriptLeaves(s: State, q: RideId, d: DriverId, seen: Option<Batch>, at: int, r: RideId)
    requires NeverOffered(s, r)
    ensures LeavesRide(s, AcceptScript(s, q, d, seen, at), r)
  {
  }

  lemma TransitionLeaves(s: State, q: RideId, next: RideStatus, r: RideId)
    requires q in s.rides && (q != r || Terminal(s.rides[r].status))
    ensures LeavesRide(s, Transition(s, q, next), r)
  {
    TransitionHash(s, q, next);
    if CanTransition(s, q, next) {
      CleanupLeavesResponses(Moved(s, q, next), q);
    }
  }

  lemma CleanupLeavesResponses(s: State, q: RideId)
    requires q in s.rides
    ensures CleanupTerminal(s, q).responses == s.responses
  {
  }

  lemma TransitionStepLeaves(c: Config, s: State, step: Step, r: RideId)
    requires Inv(s) && Transitions(step) && Unoffered(s, r) && !IsCancelOf(s, step, r)
    ensures LeavesRide(s, Apply(c, s, step), r)
  {
    if step.ride in s.rides {
      var next := if step.Arrives? then Arriving else if step.Starts? then Ongoing else if step.Completes? then Completed else Cancelled;
      if step.ride != r || Terminal(s.rides[r].status) {
        TransitionLeaves(s, step.ride, next, r);
      } else {
        UnassignedRefuses(c, s, step);
      }
    }
  }

  /** Without a driver, a ride can only be cancelled. */
  lemma UnassignedRefuses(c: Config, s: State, step: Step)
    requires Transitions(step) && step.ride in s.rides && RideShape(s.rides[step.ride], s.nextBatch)
    requires s.rides[step.ride].driver.None? && !Terminal(s.rides[step.ride].status) && !IsCancelOf(s, step, step.ride)
    ensures Apply(c, s, step) == s
  {
  }

  lemma OtherStepLeaves(c: Config, s: State, step: Step, r: RideId)
    requires step.Requests? || !(ConcernsRide(step) || Transitions(step))
    requires s.nextRide !in s.rides
    ensures LeavesRide(s, Apply(c, s, step), r)
  {
  }

  /** Nothing but its own dispatches and cancellation happens to a ride nobody has been offered. */
  lemma StepLeaves(c: Config, s: State, step: Step, r: RideId)
    requires Inv(s) && NeverOffered(s, r) && Unoffered(s, r) && !IsDispatchOf(s, step, r) && !IsCancelOf(s, step, r)
    ensures LeavesRide(s, Apply(c, s, step), r)
  {
    if step.Dispatches? {
      if step.ride != r {
        DispatchLeavesOthers(c, s, step.ride, step.near, r);
      }
    } else if step.BatchTimesOut? {
      TimeoutLeaves(c, s, step.ride, step.batch, step.near, r);
    } else if step.Rejects? {
      RejectLeaves(c, s, step.ride, step.driver, step.reason, step.near, r);
    } else if step.Accepts? || step.ScriptRuns? || step.AcceptFinishes? {
      AcceptLeaves(c, s, step, r);
    } else if Transitions(step) {
      TransitionStepLeaves(c, s, step, r);
    } else {
      OtherStepLeaves(c, s, step, r);
    }
  }

  ghost predicate NotOfferedYet(s: State, r: RideId) {
    (r in s.rides ==> s.rides[r].status == Requested) ==> NeverOffered(s, r)
  }

  /** A ride that has not been dispatched has never been offered to anybody. */
  lemma RequestedNeverOffered(c: Config, ss: seq<State>, steps: seq<Step>, i: nat, r: RideId)
    requires IsRun(c, ss, steps) && i < |ss|
    ensures NotOfferedYet(ss[i], r)
  {
    forall k | 0 < k <= i && NotOfferedYet(ss[k - 1], r) ensures NotOfferedYet(ss[k], r) {
      NotOfferedNext(c, ss, steps, k, r);
    }
    NotOfferedAllAlong(ss, i, r);
  }

  lemma NotOfferedNext(c: Config, ss: seq<State>, steps: seq<Step>, k: nat, r: RideId)
    requires IsRun(c, ss, steps) && 0 < k < |ss| && NotOfferedYet(ss[k - 1], r)
    ensures NotOfferedYet(ss[k], r)
  {
    RunKeeps(c, ss, steps, k - 1);
    StepNotOffered(c, ss[k - 1], steps[k - 1], r);
  }

  lemma StepNotOffered(c: Config, s: State, step: Step, r: RideId)
    requires Inv(s) && NotOfferedYet(s, r)
    ensures NotOfferedYet(Apply(c, s, step), r)
  {
    var t := Apply(c, s, step);
    if r in t.rides ==> t.rides[r].status == Requested {
      RequestedSince(c, s, step, r);
      StepLeaves(c, s, step, r);
    }
  }

  lemma {:induction false} NotOfferedAllAlong(ss: seq<State>, i: nat, r: RideId)
    requires i < |ss| && ss[0].responses == map[]
    requires forall k :: 0 < k <= i && NotOfferedYet(ss[k - 1], r) ==> NotOfferedYet(ss[k], r)
    ensures NotOfferedYet(ss[i], r)
  {
    if i > 0 {
      NotOfferedAllAlong(ss, i - 1, r);
    }
  }

  lemma RequestedSince(c: Config, s: State, step: Step, r: RideId)
    requires Inv(s)
    requires var t := Apply(c, s, step); r in t.rides ==> t.rides[r].status == Requested
    ensures r in s.rides ==> s.rides[r].status == Requested
    ensures Unoffered(s, r) && !IsDispatchOf(s, step, r) && !IsCancelOf(s, step, r)
  {
    StepEvolves(c, s, step);
    if r in s.rides {
      NoWayBackToRequested(s.rides[r], Apply(c, s, step).rides[r], s.nextBatch);
      StaysRequested(c, s, step, r);
    }
  }

  lemma NoWayBackToRequested(a: Ride, b: Ride, nextBatch: nat)
    requires Evolves(a, b, nextBatch) && b.status == Requested
    ensures a.status == Requested
  {
  }

  lemma StaysRequested(c: Config, s: State, step: Step, r: RideId)
    requires r in s.rides && s.rides[r].status == Requested && RideShape(s.rides[r], s.nextBatch)
    requires var t := Apply(c, s, step); r in t.rides && t.rides[r].status == Requested
    requires s.rides[r].batch.None?
    ensures !IsDispatchOf(s, step, r) && !IsCancelOf(s, step, r)
  {
    if IsDispatchOf(s, step, r) {
      DispatchLeavesRequested(c, s, r, step.near);
    } else if IsCancelOf(s, step, r) {
      TransitionHash(s, r, Cancelled);
    }
  }

  lemma DispatchLeavesRequested(c: Config, s: State, r: RideId, near: seq<DriverId>)
    requires r in s.rides && s.rides[r].status == Requested && RideShape(s.rides[r], s.nextBatch)
    ensures var t := Dispatch(c, s, r, near); r in t.rides && t.rides[r].status != Requested
  {
    SearchingDispatch(c, s, r, near);
    ReadyShape(c, s, r);
    SearchRide(c, ReadyToSearch(c, s, r), r, s.rides[r].round, EntryRadius(c, s.rides[r]), near);
  }

  // ----- counting the dispatches -----

  function DispatchesOf(ss: seq<State>, steps: seq<Step>, i: nat, n: nat, r: RideId): nat
    requires i <= n <= |steps| < |ss|
    decreases n - i
  {
    if i == n then 0
    else DispatchesOf(ss, steps, i, n - 1, r) + if IsDispatchOf(ss[n - 1], steps[n - 1], r) then 1 else 0
  }

  /** From ride `a` to ride `b`, one more fruitless dispatch has happened. */
  ghost predicate OneMore(c: Config, created: Ride, a: Ride, b: Ride) {
    forall k: nat :: k <= LastRound(c) + 1 && AfterFruitless(c, created, k, a) ==>
      k <= LastRound(c) && AfterFruitless(c, created, k + 1, b)
  }

  lemma ExpansionStep(c: Config, s: State, r: RideId, near: seq<DriverId>, created: Ride)
    requires ValidConfig(c) && Dispatchable(s, r) && RideShape(s.rides[r], s.nextBatch) && Fresh(c, created)
    requires !SomebodyReservable(s, r, near)
    ensures r in Dispatch(c, s, r, near).rides && OneMore(c, created, s.rides[r], Dispatch(c, s, r, near).rides[r])
  {
    var t := Dispatch(c, s, r, near);
    if s.rides[r].batch.None? {
      FruitlessDispatch(c, s, r, near);
    } else {
      DispatchRide(c, s, r, near);
    }
    forall k: nat | k <= LastRound(c) + 1 && AfterFruitless(c, created, k, s.rides[r])
      ensures k <= LastRound(c) && AfterFruitless(c, created, k + 1, t.rides[r])
    {
      FruitlessStep(c, created, k, s.rides[r]);
    }
  }

  ghost predicate OneMoreEachTime(c: Config, ss: seq<State>, steps: seq<Step>, i: nat, n: nat, r: RideId, created: Ride)
    requires n <= |steps| < |ss|
  {
    && (forall j :: i <= j <= n ==> r in ss[j].rides)
    && (forall j :: i <= j < n ==>
          if IsDispatchOf(ss[j], steps[j], r) then OneMore(c, created, ss[j].rides[r], ss[j + 1].rides[r])
          else ss[j + 1].rides[r] == ss[j].rides[r])
  }

  /** A ride that is still REQUESTED is as its request stored it. */
  ghost predicate AsStored(c: Config, s: State, r: RideId) {
    r in s.rides && s.rides[r].status == Requested ==>
      Fresh(c, s.rides[r]) && s.rides[r].driver.None? && s.rides[r].version == 1
  }

  /** In every state of every run, a REQUESTED ride has round 0, the initial radius, no batch, no driver and version 1. */
  lemma RequestedIsFresh(c: Config, ss: seq<State>, steps: seq<Step>, i: nat, r: RideId)
    requires IsRun(c, ss, steps) && i < |ss|
    ensures AsStored(c, ss[i], r)
  {
    forall k | 0 < k <= i && AsStored(c, ss[k - 1], r) ensures AsStored(c, ss[k], r) {
      AsStoredNext(c, ss, steps, k, r);
    }
    AsStoredAllAlong(c, ss, i, r);
  }

  lemma AsStoredNext(c: Config, ss: seq<State>, steps: seq<Step>, k: nat, r: RideId)
    requires IsRun(c, ss, steps) && 0 < k < |ss| && AsStored(c, ss[k - 1], r)
    ensures AsStored(c, ss[k], r)
  {
    RunKeeps(c, ss, steps, k - 1);
    RequestedNeverOffered(c, ss, steps, k - 1, r);
    StepAsStored(c, ss[k - 1], steps[k - 1], r);
  }

  lemma StepAsStored(c: Config, s: State, step: Step, r: RideId)
    requires Inv(s) && AsStored(c, s, r) && NotOfferedYet(s, r)
    ensures AsStored(c, Apply(c, s, step), r)
  {
    var t := Apply(c, s, step);
    if r in t.rides && t.rides[r].status == Requested {
      RequestedSince(c, s, step, r);
      if r in s.rides {
        StepLeaves(c, s, step, r);
      } else {
        NewRideAsStored(c, s, step, r);
      }
    }
  }

  lemma NewRideAsStored(c: Config, s: State, step: Step, r: RideId)
    requires Inv(s) && r !in s.rides && r in Apply(c, s, step).rides
    ensures AsStored(c, Apply(c, s, step), r)
  {
    if step.Dispatches? || step.BatchTimesOut? || step.Rejects? {
      DispatchCreatesNone(c, s, step, r);
      assert false;
    } else if Transitions(step) {
      TransitionCreatesNone(c, s, step, r);
      assert false;
    } else if step.Requests? {
      RequestAsStored(c, s, step.customer, r);
    } else {
      OthersCreateNone(c, s, step, r);
      assert false;
    }
  }

  lemma RequestAsStored(c: Config, s: State, customer: CustomerId, r: RideId)
    requires r !in s.rides && r in RequestRide(c, s, customer).rides
    ensures AsStored(c, RequestRide(c, s, customer), r)
  {
  }

  lemma OthersCreateNone(c: Config, s: State, step: Step, r: RideId)
    requires r !in s.rides && !step.Requests? && !Transitions(step)
    requires !(step.Dispatches? || step.BatchTimesOut? || step.Rejects?)
    ensures r !in Apply(c, s, step).rides
  {
  }

  lemma DispatchCreatesNone(c: Config, s: State, step: Step, r: RideId)
    requires Inv(s) && r !in s.rides && (step.Dispatches? || step.BatchTimesOut? || step.Rejects?)
    ensures r !in Apply(c, s, step).rides
  {
    match step
    case Dispatches(q, near) => if q in s.rides { DispatchRide(c, s, q, near); }
    case BatchTimesOut(q, b, near) => if q in s.rides { TimeoutCreatesNone(c, s, q, b, near, r); }
    case Rejects(q, d, reason, near) => if q in s.rides { RejectCreatesNone(c, s, q, d, reason, near, r); }
  }

  lemma TimeoutCreatesNone(c: Config, s: State, q: RideId, b: BatchId, near: seq<DriverId>, r: RideId)
    requires q in s.rides && RideShape(s.rides[q], s.nextBatch) && r !in s.rides
    ensures r !in BatchTimeout(c, s, q, b, near).rides
  {
    if s.rides[q].status == Dispatching {
      var u := ExpireBatch(s, q);
      assert RideShape(u.rides[q], u.nextBatch) && r !in u.rides;
      DispatchRide(c, u, q, near);
    }
  }

  lemma RejectCreatesNone(c: Config, s: State, q: RideId, d: DriverId, reason: string, near: seq<DriverId>, r: RideId)
    requires q in s.rides && RideShape(s.rides[q], s.nextBatch) && r !in s.rides
    ensures r !in Reject(c, s, q, d, reason, near).rides
  {
    if CanReject(s, q, d) {
      RejectionRide(c, s, q, d, reason);
      DispatchRide(c, RecordRejection(c, s, q, d, reason), q, near);
    }
  }

  lemma TransitionCreatesNone(c: Config, s: State, step: Step, r: RideId)
    requires r !in s.rides && Transitions(step)
    ensures r !in Apply(c, s, step).rides
  {
    if step.ride in s.rides {
      TransitionHash(s, step.ride,
                     if step.Arrives? then Arriving else if step.Starts? then Ongoing else if step.Completes? then Completed else Cancelled);
    }
  }

  lemma {:induction false} AsStoredAllAlong(c: Config, ss: seq<State>, i: nat, r: RideId)
    requires i < |ss| && ss[0].rides == map[]
    requires forall k :: 0 < k <= i && AsStored(c, ss[k - 1], r) ==> AsStored(c, ss[k], r)
    ensures AsStored(c, ss[i], r)
  {
    if i > 0 {
      AsStoredAllAlong(c, ss, i - 1, r);
    }
  }

  /** The ride is over, or still to be assigned without anybody having been offered it. */
  ghost predicate StillUnoffered(s: State, r: RideId) {
    r in s.rides && NeverOffered(s, r) && Unoffered(s, r)
  }

  lemma UnofferedStep(c: Config, s: State, step: Step, r: RideId)
    requires Inv(s) && ValidConfig(c) && StillUnoffered(s, r)
    requires IsDispatchOf(s, step, r) ==> !SomebodyReservable(s, r, step.near)
    requires !IsCancelOf(s, step, r)
    ensures StillUnoffered(Apply(c, s, step), r)
    ensures !IsDispatchOf(s, step, r) ==> Apply(c, s, step).rides[r] == s.rides[r]
  {
    if IsDispatchOf(s, step, r) {
      FruitlessDispatch(c, s, r, step.near);
      FruitlessNeverOffered(c, s, r, step.near);
    } else {
      StepLeaves(c, s, step, r);
    }
  }

  lemma RunUnoffered(c: Config, ss: seq<State>, steps: seq<Step>, i: nat, n: nat, r: RideId)
    requires ValidConfig(c) && IsRun(c, ss, steps) && i <= n <= |steps|
    requires r in ss[i].rides && Fresh(c, ss[i].rides[r]) && NobodyAnswersToSearch(ss, steps, i, n, r)
    ensures forall j :: i <= j <= n ==> StillUnoffered(ss[j], r)
  {
    RequestedNeverOffered(c, ss, steps, i, r);
    RunKeeps(c, ss, steps, i);
    forall j | i <= j < n && StillUnoffered(ss[j], r) ensures StillUnoffered(ss[j + 1], r) {
      UnofferedAt(c, ss, steps, i, n, r, j);
    }
    forall j | i <= j <= n ensures StillUnoffered(ss[j], r) {
      UnofferedAllAlong(ss, i, j, r);
    }
  }

  lemma {:induction false} UnofferedAllAlong(ss: seq<State>, i: nat, j: nat, r: RideId)
    requires i <= j < |ss| && StillUnoffered(ss[i], r)
    requires forall k :: i <= k < j && StillUnoffered(ss[k], r) ==> StillUnoffered(ss[k + 1], r)
    ensures StillUnoffered(ss[j], r)
    decreases j
  {
    if i < j {
      UnofferedAllAlong(ss, i, j - 1, r);
      assert StillUnoffered(ss[j - 1 + 1], r);
    }
  }

  lemma UnofferedAt(c: Config, ss: seq<State>, steps: seq<Step>, i: nat, n: nat, r: RideId, j: nat)
    requires ValidConfig(c) && IsRun(c, ss, steps) && i <= j < n <= |steps|
    requires NobodyAnswersToSearch(ss, steps, i, n, r) && StillUnoffered(ss[j], r)
    ensures StillUnoffered(ss[j + 1], r)
    ensures !IsDispatchOf(ss[j], steps[j], r) ==> ss[j + 1].rides[r] == ss[j].rides[r]
  {
    RunKeeps(c, ss, steps, j);
    UnofferedStep(c, ss[j], steps[j], r);
    assert ss[j + 1] == Apply(c, ss[j], steps[j]);
  }

  lemma FruitlessRun(c: Config, ss: seq<State>, steps: seq<Step>, i: nat, n: nat, r: RideId)
    requires ValidConfig(c) && IsRun(c, ss, steps) && i <= n <= |steps|
    requires r in ss[i].rides && Fresh(c, ss[i].rides[r]) && NobodyAnswersToSearch(ss, steps, i, n, r)
    ensures OneMoreEachTime(c, ss, steps, i, n, r, ss[i].rides[r])
  {
    RunUnoffered(c, ss, steps, i, n, r);
    assert forall j :: i <= j <= n ==> StillUnoffered(ss[j], r);
    forall j | i <= j < n
      ensures if IsDispatchOf(ss[j], steps[j], r) then OneMore(c, ss[i].rides[r], ss[j].rides[r], ss[j + 1].rides[r])
              else ss[j + 1].rides[r] == ss[j].rides[r]
    {
      if IsDispatchOf(ss[j], steps[j], r) {
        RunKeeps(c, ss, steps, j);
        ExpansionStep(c, ss[j], r, steps[j].near, ss[i].rides[r]);
        assert ss[j + 1] == Apply(c, ss[j], steps[j]);
      } else {
        UnofferedAt(c, ss, steps, i, n, r, j);
      }
    }
  }

  lemma {:induction false} CountFruitless(c: Config, ss: seq<State>, steps: seq<Step>, i: nat, n: nat, r: RideId, created: Ride)
    requires i <= n <= |steps| < |ss| && OneMoreEachTime(c, ss, steps, i, n, r, created) && ss[i].rides[r] == created
    ensures DispatchesOf(ss, steps, i, n, r) <= LastRound(c) + 1
    ensures AfterFruitless(c, created, DispatchesOf(ss, steps, i, n, r), ss[n].rides[r])
    decreases n
  {
    if i < n {
      CountFruitless(c, ss, steps, i, n - 1, r, created);
      assert IsDispatchOf(ss[n - 1], steps[n - 1], r) ==> OneMore(c, created, ss[n - 1].rides[r], ss[n].rides[r]);
    }
  }

  /**
   * If no candidate is ever reservable, dispatch number k sees round k and radius min(initial * 2^k, max), and dispatch
   * number LastRound(c), the first to reach the round or the radius limit, cancels the ride for want of drivers.
   */
  lemma ExpansionClosedForm(c: Config, ss: seq<State>, steps: seq<Step>, i: nat, n: nat, r: RideId)
    requires ValidConfig(c) && IsRun(c, ss, steps) && i <= n <= |steps|
    requires r in ss[i].rides && ss[i].rides[r].status == Requested && NobodyAnswersToSearch(ss, steps, i, n, r)
    ensures r in ss[n].rides && DispatchesOf(ss, steps, i, n, r) <= LastRound(c) + 1
    ensures AfterFruitless(c, ss[i].rides[r], DispatchesOf(ss, steps, i, n, r), ss[n].rides[r])
  {
    RequestedIsFresh(c, ss, steps, i, r);
    FruitlessRun(c, ss, steps, i, n, r);
    CountFruitless(c, ss, steps, i, n, r, ss[i].rides[r]);
  }

  /** The same from the request on: `k` fruitless dispatches after it, the ride is where the closed form says. */
  lemma ExpansionFromRequest(c: Config, ss: seq<State>, steps: seq<Step>, i: nat, n: nat, customer: CustomerId)
    requires ValidConfig(c) && IsRun(c, ss, steps) && i < n <= |steps|
    requires steps[i] == Requests(customer) && ss[i + 1] != ss[i]
    requires NobodyAnswersToSearch(ss, steps, i + 1, n, ss[i].nextRide)
    ensures var r, k := ss[i].nextRide, DispatchesOf(ss, steps, i + 1, n, ss[i].nextRide);
            && r in ss[n].rides && k <= LastRound(c) + 1
            && (if k == 0 then ss[n].rides[r].status == Requested
                else if k <= LastRound(c) then
                  ss[n].rides[r].status == Dispatching && ss[n].rides[r].round == k && ss[n].rides[r].radius == RadiusAt(c, k)
                else ss[n].rides[r].status == Cancelled && ss[n].rides[r].cancellation == Some(NoDriversAvailable))
  {
    var r := ss[i].nextRide;
    assert ss[i + 1] == RequestRide(c, ss[i], customer);
    ExpansionClosedForm(c, ss, steps, i + 1, n, r);
  }
}
