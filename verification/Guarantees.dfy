/** What the invariants promise in every reachable state, and what holds over whole runs. */
module Guarantees {
  import opened Wrappers
  import opened Types
  import opened Lifecycle
  import opened Steps
  import opened Invariants
  import opened Preservation
  import opened Runs
  import opened Evolution
  import opened Writes

  // ----- in every state -----

  /** A ride is bound to a driver exactly when the driver's key and hash both name it. */
  lemma AssignmentBijection(c: Config, s: State, r: RideId, d: DriverId)
    requires Reachable(c, s)
    ensures Driving(s.rides, r, d) <==> (d in s.activeKey && s.activeKey[d] == r)
    ensures Driving(s.rides, r, d) <==> (d in s.drivers && s.drivers[d].activeRide == Some(r))
    ensures Driving(s.rides, r, d) ==> d in s.drivers && (s.drivers[d].status == Busy || s.drivers[d].status == Offline)
    ensures forall q :: Driving(s.rides, r, d) && Driving(s.rides, q, d) ==> q == r
    ensures d in s.drivers && s.drivers[d].status == Online ==> forall q :: !Driving(s.rides, q, d)
  {
    ReachableKeeps(c, s);
  }

  /** A reservation belongs to an unanswered driver of a current batch, or a committed accept call still owes its release. */
  lemma NoOrphanReservation(c: Config, s: State, d: DriverId)
    requires Reachable(c, s) && d in s.reservations
    ensures var t := s.reservations[d];
            || (&& t.ride in s.rides && s.rides[t.ride].status == Dispatching
                && s.rides[t.ride].batch.Some? && s.rides[t.ride].batch.value.id == t.batch
                && d in s.rides[t.ride].batch.value.drivers
                && IsPending(s.responses, Offer(d, t.ride), t.batch))
            || (t.ride in s.inflight && s.inflight[t.ride].batch == t.batch && d in s.inflight[t.ride].losers
                && t.ride in s.rides && s.rides[t.ride].status != Dispatching)
  {
    ReachableKeeps(c, s);
  }

  /** The pending-dispatch index holds exactly the open offers of a ride no accept call is still completing. */
  lemma PendingIndexExact(c: Config, s: State, r: RideId, d: DriverId)
    requires Reachable(c, s) && r !in s.inflight
    ensures Offer(d, r) in s.pending <==>
            && r in s.rides && s.rides[r].status == Dispatching && s.rides[r].batch.Some?
            && IsPending(s.responses, Offer(d, r), s.rides[r].batch.value.id)
  {
    ReachableKeeps(c, s);
  }

  lemma LiveBatchHasUnansweredDriver(c: Config, s: State, r: RideId)
    requires Reachable(c, s) && r in s.rides && s.rides[r].status == Dispatching && s.rides[r].batch.Some?
    ensures exists d :: d in s.rides[r].batch.value.drivers && IsPending(s.responses, Offer(d, r), s.rides[r].batch.value.id)
  {
    ReachableKeeps(c, s);
  }

  /** The pool sets and the driver hashes agree. */
  lemma PoolsAgree(c: Config, s: State, d: DriverId)
    requires Reachable(c, s)
    ensures s.geo <= s.available <= s.online && s.busy <= s.online && s.available !! s.busy
    ensures d in s.available ==> d in s.drivers && s.drivers[d].status == Online && s.drivers[d].activeRide.None? && d !in s.activeKey
    ensures d in s.busy ==> d in s.drivers && s.drivers[d].status == Busy && exists r :: Driving(s.rides, r, d)
    ensures d in s.heartbeats ==>
              && d in s.drivers
              && (s.drivers[d].status == Online <==> d in s.available)
              && (s.drivers[d].status == Busy <==> d in s.busy)
    ensures d in s.reservations ==> d in s.online
  {
    ReachableKeeps(c, s);
    if d in s.busy {
      assert Driving(s.rides, s.activeKey[d], d);
    }
  }

  /** A customer has at most one non-terminal ride, the one the customer's key names, and `rides:active` lists those rides. */
  lemma OneRidePerCustomer(c: Config, s: State, p: RideId, q: RideId)
    requires Reachable(c, s)
    ensures p in s.activeRides <==> p in s.rides && !Terminal(s.rides[p].status)
    ensures p in s.activeRides <==> p in s.rides && s.rides[p].customer in s.customerRide && s.customerRide[s.rides[p].customer] == p
    ensures p in s.activeRides && q in s.activeRides && q in s.rides && p in s.rides ==>
              (s.rides[p].customer == s.rides[q].customer <==> p == q)
  {
    ReachableKeeps(c, s);
  }

  // ----- over runs -----

  /** How a ride hash relates to a later one of the same ride. */
  predicate Later(a: Ride, b: Ride) {
    || a == b
    || (&& !Terminal(a.status)
        && a.version < b.version
        && a.customer == b.customer
        && (a.status == b.status || Rank(a.status) < Rank(b.status))
        && (a.driver.Some? ==> b.driver == a.driver)
        && a.round <= b.round)
  }

  /** Consecutive states of a run, as far as rides go. */
  ghost predicate History(ss: seq<State>) {
    && |ss| > 0 && ss[0].rides == map[]
    && forall i :: 0 < i < |ss| ==> AllEvolve(ss[i - 1], ss[i])
  }

  lemma RunIsHistory(c: Config, ss: seq<State>, steps: seq<Step>)
    requires IsRun(c, ss, steps)
    ensures History(ss)
  {
    forall i | 0 < i < |ss| ensures AllEvolve(ss[i - 1], ss[i]) {
      RunKeeps(c, ss, steps, i - 1);
      StepEvolves(c, ss[i - 1], steps[i - 1]);
      assert ss[i] == Apply(c, ss[i - 1], steps[i - 1]);
    }
  }

  lemma {:induction false} Advance(ss: seq<State>, i: nat, j: nat, r: RideId)
    requires History(ss) && i <= j < |ss| && r in ss[i].rides
    ensures r in ss[j].rides && Later(ss[i].rides[r], ss[j].rides[r])
    decreases j
  {
    if i < j {
      Advance(ss, i, j - 1, r);
      assert AllEvolve(ss[j - 1], ss[j]);
    }
  }

  /** A ride never disappears, its rank, round and version never fall, a set driver never changes, a terminal hash is final. */
  lemma RidesOnlyAdvance(c: Config, ss: seq<State>, steps: seq<Step>, i: nat, j: nat, r: RideId)
    requires IsRun(c, ss, steps) && i <= j < |ss| && r in ss[i].rides
    ensures r in ss[j].rides && Later(ss[i].rides[r], ss[j].rides[r])
  {
    RunIsHistory(c, ss, steps);
    Advance(ss, i, j, r);
  }

  /**
   * Every write of a ride hash, also between two writes of one call, raises its version by one and leaves the status or moves
   * it along an edge of the transition table, up in rank; a terminal hash is never written again.
   */
  lemma StatusFollowsTable(c: Config, ss: seq<State>, steps: seq<Step>, i: nat, r: RideId)
    requires IsRun(c, ss, steps) && i < |steps| && r in ss[i + 1].rides
    ensures forall k :: 0 < k < |StatesOf(c, ss[i], steps[i])| ==>
              OneWrite(StatesOf(c, ss[i], steps[i])[k - 1], StatesOf(c, ss[i], steps[i])[k])
    ensures r !in ss[i].rides ==> ss[i + 1].rides[r].status == Requested
    ensures r in ss[i].rides && ss[i + 1].rides[r].status != ss[i].rides[r].status ==>
              && ss[i + 1].rides[r].status in RideTransitions(ss[i].rides[r].status)
              && Rank(ss[i].rides[r].status) < Rank(ss[i + 1].rides[r].status)
    ensures r in ss[i].rides && Terminal(ss[i].rides[r].status) ==> ss[i + 1].rides[r] == ss[i].rides[r]
  {
    RunIsHistory(c, ss, steps);
    assert AllEvolve(ss[i], ss[i + 1]);
    RunKeeps(c, ss, steps, i);
    forall k | 0 < k < |StatesOf(c, ss[i], steps[i])|
      ensures OneWrite(StatesOf(c, ss[i], steps[i])[k - 1], StatesOf(c, ss[i], steps[i])[k])
    {
      EveryWriteFollowsTable(c, ss[i], steps[i], k);
    }
  }

  /** A version number is used for one content of the ride hash only. */
  lemma VersionNamesContent(c: Config, ss: seq<State>, steps: seq<Step>, i: nat, j: nat, r: RideId)
    requires IsRun(c, ss, steps) && i < |ss| && j < |ss| && r in ss[i].rides && r in ss[j].rides
    ensures ss[i].rides[r].version == ss[j].rides[r].version ==> ss[i].rides[r] == ss[j].rides[r]
  {
    if i <= j {
      RidesOnlyAdvance(c, ss, steps, i, j, r);
    } else {
      RidesOnlyAdvance(c, ss, steps, j, i, r);
    }
  }

  /** The driver check made before the ride lock is taken still holds at any later time, in particular under the lock. */
  lemma DriverCheckIsStable(c: Config, ss: seq<State>, steps: seq<Step>, i: nat, j: nat, r: RideId, d: DriverId)
    requires IsRun(c, ss, steps) && i <= j < |ss|
    requires r in ss[i].rides && ss[i].rides[r].driver == Some(d)
    ensures r in ss[j].rides && ss[j].rides[r].driver == Some(d)
  {
    RidesOnlyAdvance(c, ss, steps, i, j, r);
  }

  function Before(status: RideStatus): RideStatus
    requires status == Arriving || status == Ongoing || status == Completed
  {
    match status
    case Arriving => Accepted
    case Ongoing => Arriving
    case Completed => Ongoing
  }

  lemma {:induction false} EnteredFrom(ss: seq<State>, n: nat, r: RideId, status: RideStatus) returns (m: nat)
    requires History(ss) && n < |ss| && r in ss[n].rides && ss[n].rides[r].status == status
    requires status == Arriving || status == Ongoing || status == Completed
    ensures m < n && r in ss[m].rides && ss[m].rides[r].status == Before(status) && ss[m].rides[r].driver == ss[n].rides[r].driver
  {
    assert n > 0 && AllEvolve(ss[n - 1], ss[n]);
    if ss[n - 1].rides[r].status == status {
      m := EnteredFrom(ss, n - 1, r, status);
    } else {
      m := n - 1;
    }
  }

  /** A COMPLETED ride went through ACCEPTED, ARRIVING and ONGOING, in this order, with the driver it ends with. */
  lemma CompletedWentThrough(c: Config, ss: seq<State>, steps: seq<Step>, n: nat, r: RideId)
    returns (accepted: nat, arriving: nat, ongoing: nat, d: DriverId)
    requires IsRun(c, ss, steps) && n < |ss| && r in ss[n].rides && ss[n].rides[r].status == Completed
    ensures accepted < arriving < ongoing < n
    ensures r in ss[accepted].rides && ss[accepted].rides[r].status == Accepted && ss[accepted].rides[r].driver == Some(d)
    ensures r in ss[arriving].rides && ss[arriving].rides[r].status == Arriving && ss[arriving].rides[r].driver == Some(d)
    ensures r in ss[ongoing].rides && ss[ongoing].rides[r].status == Ongoing && ss[ongoing].rides[r].driver == Some(d)
    ensures ss[n].rides[r].driver == Some(d)
  {
    RunIsHistory(c, ss, steps);
    ongoing := EnteredFrom(ss, n, r, Completed);
    arriving := EnteredFrom(ss, ongoing, r, Ongoing);
    accepted := EnteredFrom(ss, arriving, r, Arriving);
    RunKeeps(c, ss, steps, n);
    d := ss[n].rides[r].driver.value;
  }

  // ----- acceptance over runs -----

  /** The step is an accept call, or the script of one, that passes every guard. */
  predicate Wins(s: State, step: Step, r: RideId) {
    || (step.Accepts? && step.ride == r && r in s.rides
        && AcceptCode(s, r, step.driver, s.now, TokenOf(r, s.rides[r].batch)) == 0)
    || (step.ScriptRuns? && step.ride == r && AcceptCode(s, r, step.driver, step.at, TokenOf(r, step.seen)) == 0)
  }

  /** The winner is recorded, and it is the ride's only winner, at any later time. */
  lemma SingleWinner(c: Config, ss: seq<State>, steps: seq<Step>, i: nat, j: nat, r: RideId)
    requires IsRun(c, ss, steps) && i < j < |steps| && Wins(ss[i], steps[i], r)
    ensures !Wins(ss[j], steps[j], r)
    ensures r in ss[j].rides && ss[j].rides[r].driver == Some(steps[i].driver)
  {
    assert ss[i + 1] == Apply(c, ss[i], steps[i]);
    WinnerIsRecorded(c, ss[i], steps[i], r);
    RidesOnlyAdvance(c, ss, steps, i + 1, j, r);
  }

  lemma WinnerIsRecorded(c: Config, s: State, step: Step, r: RideId)
    requires Wins(s, step, r)
    ensures var t := Apply(c, s, step);
            r in t.rides && t.rides[r].driver == Some(step.driver) && t.rides[r].status == Accepted
  {
  }

  /** A call commits only in the batch it read, so the drivers it then releases are that live batch without the winner. */
  lemma CommitsInTheBatchItRead(c: Config, ss: seq<State>, steps: seq<Step>, i: nat, r: RideId)
    requires IsRun(c, ss, steps) && i < |steps| && steps[i].ScriptRuns? && Wins(ss[i], steps[i], r)
    ensures r in ss[i].rides && ss[i].rides[r].batch.Some? && r in ss[i + 1].inflight
    ensures var live, owed := ss[i].rides[r].batch.value, ss[i + 1].inflight[r];
            && steps[i].seen == Some(live) && steps[i].driver in live.drivers && owed.batch == live.id
            && forall e :: e in owed.losers <==> e in live.drivers && e != steps[i].driver
  {
    RunKeeps(c, ss, steps, i);
    CommitOwes(ss[i], r, steps[i].driver, steps[i].seen, steps[i].at);
    ScriptSeesCurrentBatch(ss[i], r, steps[i].driver, steps[i].seen, steps[i].at);
    assert ss[i + 1] == AcceptScript(ss[i], r, steps[i].driver, steps[i].seen, steps[i].at);
  }

  /** A commit leaves the releases of the batch it was read with to be made. */
  lemma CommitOwes(s: State, r: RideId, d: DriverId, seen: Option<Batch>, at: int)
    requires AcceptCode(s, r, d, at, TokenOf(r, seen)) == 0
    ensures seen.Some? && r in s.rides && s.rides[r].batch.Some? && r in AcceptScript(s, r, d, seen, at).inflight
    ensures var owed := AcceptScript(s, r, d, seen, at).inflight[r];
            owed.batch == seen.value.id && forall e :: e in owed.losers <==> e in seen.value.drivers && e != d
  {
    assert AcceptScript(s, r, d, seen, at).inflight[r] == Owed(seen.value.id, Others(seen.value, d), None);
  }

  /** Batch records never change: one read at any earlier time equals the current one whenever the ids agree. */
  lemma EarlierReadIsCurrent(c: Config, ss: seq<State>, steps: seq<Step>, i: nat, j: nat, r: RideId, d: DriverId, at: int)
    requires IsRun(c, ss, steps) && i <= j < |ss| && r in ss[i].rides
    ensures Enabled(ss[j], ScriptRuns(r, d, ss[i].rides[r].batch, at))
  {
    if ss[i].rides[r].batch.Some? {
      RunKeeps(c, ss, steps, i);
      RunIsHistory(c, ss, steps);
      BatchHistory(ss, i, j, r);
    }
  }

  lemma {:induction false} BatchHistory(ss: seq<State>, i: nat, j: nat, r: RideId)
    requires History(ss) && i <= j < |ss| && r in ss[i].rides && ss[i].rides[r].batch.Some?
    requires ss[i].rides[r].batch.value.id < ss[i].nextBatch
    ensures r in ss[j].rides && ss[i].rides[r].batch.value.id < ss[j].nextBatch
    ensures ss[j].rides[r].batch == ss[i].rides[r].batch || ss[j].rides[r].batch.None?
         || ss[j].rides[r].batch.value.id > ss[i].rides[r].batch.value.id
    decreases j
  {
    if i < j {
      BatchHistory(ss, i, j - 1, r);
      assert AllEvolve(ss[j - 1], ss[j]);
    }
  }
}
