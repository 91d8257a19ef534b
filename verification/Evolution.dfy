/** How one ride may change, from one step to the next and over whole runs. */
module Evolution {
  import opened Wrappers
  import opened Types
  import opened Lifecycle
  import opened Steps
  import opened Invariants
  import opened Runs

  /** The change of one ride hash in one step; `nextBatch` is the first batch id not drawn before it. */
  predicate Evolves(a: Ride, b: Ride, nextBatch: nat) {
    || a == b
    || (&& !Terminal(a.status)
        && a.version < b.version
        && a.customer == b.customer
        && (b.status == a.status || (b.status in RideTransitions(a.status) && Rank(a.status) < Rank(b.status)))
        && (a.driver == b.driver || (a.driver.None? && a.status == Dispatching && b.status == Accepted))
        && (b.status == Completed ==> a.status == Ongoing)
        && (b.status == Ongoing && a.status != Ongoing ==> a.status == Arriving)
        && (b.status == Arriving && a.status != Arriving ==> a.status == Accepted)
        && a.round <= b.round
        && (b.batch == a.batch || b.batch.None? || b.batch.value.id >= nextBatch))
  }

  /** Every ride that exists in `s` still exists in `t` and has evolved; a new one is REQUESTED. */
  ghost predicate AllEvolve(s: State, t: State) {
    && s.nextBatch <= t.nextBatch
    && (forall r :: r in t.rides && r !in s.rides ==> t.rides[r].status == Requested && t.rides[r].driver.None? && t.rides[r].batch.None?)
    && (forall r :: r in s.rides ==> r in t.rides && Evolves(s.rides[r], t.rides[r], s.nextBatch))
    && s.notified <= t.notified
  }

  /** Only ride `r` may differ. */
  ghost predicate OnlyRide(s: State, t: State, r: RideId) {
    && r in s.rides && r in t.rides
    && t.rides == s.rides[r := t.rides[r]]
    && s.nextBatch <= t.nextBatch && s.notified <= t.notified
  }

  lemma OneRideEvolves(s: State, t: State, r: RideId)
    requires OnlyRide(s, t, r) && Evolves(s.rides[r], t.rides[r], s.nextBatch)
    ensures AllEvolve(s, t)
  {
  }

  lemma ExhaustedRide(s: State, r: RideId)
    requires r in s.rides
    ensures var t := CancelExhausted(s, r);
            && t.rides == s.rides[r := s.rides[r].(status := Cancelled, cancellation := Some(NoDriversAvailable), batch := None,
                                                   version := s.rides[r].version + 1)]
            && t.notified == s.notified && t.nextBatch == s.nextBatch + 1
  {
    var over := s.rides[r].(status := Cancelled, cancellation := Some(NoDriversAvailable), batch := None, version := s.rides[r].version + 1);
    CleanupLeaves(s.(rides := s.rides[r := over], nextBatch := s.nextBatch + 1,
                     log := s.log + [StatusUpdate(r, over.version, Cancelled)]), r);
  }

  /** What a search leaves of its ride `a`: a fresh batch, a wider search, or a cancellation. */
  predicate Searched(a: Ride, b: Ride, round: nat, batch: BatchId) {
    && b.version == a.version + 1 && b.customer == a.customer && b.driver == a.driver
    && (b.status == a.status || b.status == Cancelled)
    && (b.round == a.round || b.round == round + 1)
    && (b.batch.None? || b.batch.value.id == batch)
  }

  lemma SearchRide(c: Config, s: State, r: RideId, round: nat, radius: real, near: seq<DriverId>)
    requires r in s.rides
    ensures var t := Search(c, s, r, round, radius, near);
            OnlyRide(s, t, r) && Searched(s.rides[r], t.rides[r], round, s.nextBatch)
  {
    var candidates := Eligible(s, r, round, near);
    var chosen := Pick(s, candidates, c.batchSize);
    var u := RemoveGhosts(s, GhostsScanned(s, candidates, c.batchSize));
    if chosen != [] {
      SendRide(c, u, r, chosen, round);
    } else if round >= c.maxRounds || radius >= c.maxRadius {
      ExhaustedRide(u, r);
    } else {
      ExpandRide(c, u, r, round, radius);
    }
  }

  lemma SendRide(c: Config, s: State, r: RideId, chosen: seq<DriverId>, round: nat)
    requires r in s.rides
    ensures var t := SendBatch(c, s, r, chosen);
            OnlyRide(s, t, r) && Searched(s.rides[r], t.rides[r], round, s.nextBatch)
  {
  }

  lemma ExpandRide(c: Config, s: State, r: RideId, round: nat, radius: real)
    requires r in s.rides
    ensures var t := ExpandSearch(c, s, r, round, radius);
            OnlyRide(s, t, r) && Searched(s.rides[r], t.rides[r], round, s.nextBatch)
  {
  }

  lemma StartRide(c: Config, s: State, r: RideId)
    requires r in s.rides && RideShape(s.rides[r], s.nextBatch)
    requires s.rides[r].status == Requested || s.rides[r].status == Dispatching
    ensures var t := StartIfRequested(c, s, r);
            && OnlyRide(s, t, r) && t.nextBatch == s.nextBatch && Evolves(s.rides[r], t.rides[r], s.nextBatch)
            && t.rides[r].status == Dispatching && t.rides[r].driver.None?
            && (s.rides[r].status == Requested ==> t.rides[r].round == 1 && s.rides[r].round == 0)
            && (s.rides[r].status == Dispatching ==> t.rides[r] == s.rides[r])
  {
  }

  lemma ExpireRide(s: State, r: RideId)
    requires r in s.rides && s.rides[r].status == Dispatching
    ensures var t := ExpireBatch(s, r);
            && OnlyRide(s, t, r) && t.nextBatch == s.nextBatch && Evolves(s.rides[r], t.rides[r], s.nextBatch)
            && t.rides[r].status == Dispatching && t.rides[r].driver == s.rides[r].driver && t.rides[r].round == s.rides[r].round
            && s.rides[r].version <= t.rides[r].version
  {
  }

  lemma DispatchRide(c: Config, s: State, r: RideId, near: seq<DriverId>)
    requires r in s.rides && RideShape(s.rides[r], s.nextBatch)
    ensures var t := Dispatch(c, s, r, near);
            OnlyRide(s, t, r) && Evolves(s.rides[r], t.rides[r], s.nextBatch)
  {
    if s.rides[r].status == Requested || s.rides[r].status == Dispatching {
      var t := StartIfRequested(c, s, r);
      StartRide(c, s, r);
      if !BatchRunning(t, r) {
        var round, radius := s.rides[r].round, EntryRadius(c, s.rides[r]);
        ExpireRide(t, r);
        SearchRide(c, ExpireBatch(t, r), r, round, radius, near);
        ReadyThenSearched(s, t, ExpireBatch(t, r), Search(c, ExpireBatch(t, r), r, round, radius, near), r);
      }
    }
  }

  /** A ride that is started, closed and searched for has evolved. */
  lemma ReadyThenSearched(s: State, t: State, u: State, v: State, r: RideId)
    requires OnlyRide(s, t, r) && OnlyRide(t, u, r) && OnlyRide(u, v, r)
    requires s.nextBatch == t.nextBatch == u.nextBatch
    requires Evolves(s.rides[r], t.rides[r], s.nextBatch) && Evolves(t.rides[r], u.rides[r], s.nextBatch)
    requires t.rides[r].status == u.rides[r].status == Dispatching && t.rides[r].driver.None? && u.rides[r].driver.None?
    requires s.rides[r].round <= t.rides[r].round == u.rides[r].round && s.rides[r].driver.None?
    requires Searched(u.rides[r], v.rides[r], s.rides[r].round, u.nextBatch)
    requires s.rides[r].status == Dispatching ==> t.rides[r].round == s.rides[r].round
    requires s.rides[r].status == Requested ==> t.rides[r].round == s.rides[r].round + 1
    ensures OnlyRide(s, v, r) && Evolves(s.rides[r], v.rides[r], s.nextBatch)
  {
  }

  /** A change that leaves the ride dispatching followed by a dispatch. */
  lemma ThenDispatch(c: Config, s: State, u: State, r: RideId, near: seq<DriverId>)
    requires OnlyRide(s, u, r) && u.nextBatch == s.nextBatch && RideShape(u.rides[r], u.nextBatch)
    requires Evolves(s.rides[r], u.rides[r], s.nextBatch) && s.rides[r].status == u.rides[r].status == Dispatching
    ensures AllEvolve(s, Dispatch(c, u, r, near))
  {
    DispatchRide(c, u, r, near);
    OnlyRideTwice(s, u, Dispatch(c, u, r, near), r);
    OneRideEvolves(s, Dispatch(c, u, r, near), r);
  }

  lemma OnlyRideTwice(s: State, u: State, t: State, r: RideId)
    requires OnlyRide(s, u, r) && OnlyRide(u, t, r) && u.nextBatch == s.nextBatch
    requires Evolves(s.rides[r], u.rides[r], s.nextBatch) && Evolves(u.rides[r], t.rides[r], s.nextBatch)
    requires s.rides[r].status == u.rides[r].status == Dispatching
    ensures OnlyRide(s, t, r) && Evolves(s.rides[r], t.rides[r], s.nextBatch)
  {
    EvolvesTwice(s.rides[r], u.rides[r], t.rides[r], s.nextBatch);
  }

  lemma EvolvesTwice(a: Ride, b: Ride, d: Ride, nextBatch: nat)
    requires Evolves(a, b, nextBatch) && Evolves(b, d, nextBatch) && a.status == b.status == Dispatching
    ensures Evolves(a, d, nextBatch)
  {
  }

  lemma RejectionRide(c: Config, s: State, r: RideId, d: DriverId, reason: string)
    requires r in s.rides && s.rides[r].status == Dispatching && RideShape(s.rides[r], s.nextBatch)
    ensures var t := RecordRejection(c, s, r, d, reason);
            && OnlyRide(s, t, r) && t.nextBatch == s.nextBatch && RideShape(t.rides[r], t.nextBatch)
            && Evolves(s.rides[r], t.rides[r], s.nextBatch) && t.rides[r].status == Dispatching
  {
  }

  lemma TransitionRide(s: State, r: RideId, next: RideStatus)
    requires r in s.rides && (next == Arriving || next == Ongoing || Terminal(next))
    ensures var t := Transition(s, r, next);
            OnlyRide(s, t, r) && Evolves(s.rides[r], t.rides[r], s.nextBatch)
  {
    TransitionHash(s, r, next);
  }

  lemma TransitionHash(s: State, r: RideId, next: RideStatus)
    requires r in s.rides
    ensures var t := Transition(s, r, next);
            && t.notified == s.notified && t.nextBatch == s.nextBatch
            && t.rides == if !CanTransition(s, r, next) then s.rides else
                 s.rides[r := s.rides[r].(status := next, version := s.rides[r].version + 1,
                                          cancellation := if next == Cancelled then Some(ByActor) else s.rides[r].cancellation)]
  {
    if CanTransition(s, r, next) && Terminal(next) {
      CleanupLeaves(Moved(s, r, next), r);
    }
  }

  /** Cleaning up after a terminal ride touches neither ride hashes nor the log. */
  lemma CleanupLeaves(s: State, r: RideId)
    requires r in s.rides
    ensures var t := CleanupTerminal(s, r);
            && t.rides == s.rides && t.notified == s.notified && t.nextBatch == s.nextBatch && t.log == s.log && t.inflight == s.inflight
  {
  }

  lemma ScriptRide(s: State, r: RideId, d: DriverId, seen: Option<Batch>, at: int)
    requires r in s.rides
    ensures var t := AcceptScript(s, r, d, seen, at);
            OnlyRide(s, t, r) && Evolves(s.rides[r], t.rides[r], s.nextBatch)
  {
  }

  lemma TimeoutEvolves(c: Config, s: State, r: RideId, b: BatchId, near: seq<DriverId>)
    requires r in s.rides ==> RideShape(s.rides[r], s.nextBatch)
    ensures AllEvolve(s, BatchTimeout(c, s, r, b, near))
  {
    if r in s.rides && s.rides[r].status == Dispatching {
      ExpireRide(s, r);
      ThenDispatch(c, s, ExpireBatch(s, r), r, near);
    }
  }

  lemma RejectEvolves(c: Config, s: State, r: RideId, d: DriverId, reason: string, near: seq<DriverId>)
    requires r in s.rides ==> RideShape(s.rides[r], s.nextBatch)
    ensures AllEvolve(s, Reject(c, s, r, d, reason, near))
  {
    if CanReject(s, r, d) {
      RejectionRide(c, s, r, d, reason);
      OneRideEvolves(s, RecordRejection(c, s, r, d, reason), r);
      ThenDispatch(c, s, RecordRejection(c, s, r, d, reason), r, near);
    }
  }

  lemma DispatchStepEvolves(c: Config, s: State, step: Step)
    requires step.Dispatches? || step.BatchTimesOut? || step.Rejects?
    requires step.ride in s.rides ==> RideShape(s.rides[step.ride], s.nextBatch)
    ensures AllEvolve(s, Apply(c, s, step))
  {
    match step
    case Dispatches(r, near) =>
      if r in s.rides { DispatchRide(c, s, r, near); OneRideEvolves(s, Dispatch(c, s, r, near), r); }
    case BatchTimesOut(r, b, near) => TimeoutEvolves(c, s, r, b, near);
    case Rejects(r, d, reason, near) => RejectEvolves(c, s, r, d, reason, near);
  }

  /** The rest of an accept call touches no ride hash. */
  lemma SettleLeaves(s: State, r: RideId)
    ensures var t := AcceptCleanup(AcceptReadBack(s, r), r);
            t.rides == s.rides && t.nextBatch == s.nextBatch && t.notified == s.notified
  {
  }

  lemma AcceptStepEvolves(c: Config, s: State, step: Step)
    requires step.Accepts? || step.ScriptRuns? || step.AcceptFinishes?
    ensures AllEvolve(s, Apply(c, s, step))
  {
    var t := Apply(c, s, step);
    if step.ride in s.rides {
      if step.Accepts? {
        ScriptRide(s, step.ride, step.driver, s.rides[step.ride].batch, s.now);
        SettleLeaves(AcceptScript(s, step.ride, step.driver, s.rides[step.ride].batch, s.now), step.ride);
        OneRideEvolves(s, t, step.ride);
      } else if step.ScriptRuns? {
        ScriptRide(s, step.ride, step.driver, step.seen, step.at);
        OneRideEvolves(s, t, step.ride);
      }
    }
  }

  lemma TransitionStepEvolves(c: Config, s: State, step: Step)
    requires Transitions(step)
    ensures AllEvolve(s, Apply(c, s, step))
  {
    if step.ride in s.rides {
      var next := if step.Arrives? then Arriving else if step.Starts? then Ongoing else if step.Completes? then Completed else Cancelled;
      TransitionRide(s, step.ride, next);
      OneRideEvolves(s, Transition(s, step.ride, next), step.ride);
    }
  }

  lemma OtherStepEvolves(c: Config, s: State, step: Step)
    requires step.Requests? || ConcernsDriver(step) || !(ConcernsRide(step) || Transitions(step))
    requires s.nextRide !in s.rides
    ensures AllEvolve(s, Apply(c, s, step))
  {
    if ConcernsDriver(step) {
      PresenceLeavesRides(c, s, step);
    } else if step.Requests? {
      RequestEvolves(c, s, step.customer);
    }
  }

  lemma RequestEvolves(c: Config, s: State, customer: CustomerId)
    requires s.nextRide !in s.rides
    ensures AllEvolve(s, RequestRide(c, s, customer))
  {
  }

  lemma PresenceLeavesRides(c: Config, s: State, step: Step)
    requires ConcernsDriver(step)
    ensures var t := Apply(c, s, step); t.rides == s.rides && t.nextBatch == s.nextBatch && t.notified == s.notified
  {
  }

  /** Whatever happens, every ride evolves. */
  lemma StepEvolves(c: Config, s: State, step: Step)
    requires Inv(s)
    ensures AllEvolve(s, Apply(c, s, step))
  {
    if step.Dispatches? || step.BatchTimesOut? || step.Rejects? {
      DispatchStepEvolves(c, s, step);
    } else if step.Accepts? || step.ScriptRuns? || step.AcceptFinishes? {
      AcceptStepEvolves(c, s, step);
    } else if Transitions(step) {
      TransitionStepEvolves(c, s, step);
    } else {
      OtherStepEvolves(c, s, step);
    }
  }
}
