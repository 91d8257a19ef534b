/** How a reservation ends: by its own ride, by expiry, or because its driver is gone. */
module Reservations {
  import opened Wrappers
  import opened Types
  import opened Steps
  import opened Invariants
  import opened Runs
  import opened Rounds

  /** The driver's reservation, if it has one, is as it was. */
  predicate KeepsToken(s: State, t: State, d: DriverId) {
    d in s.reservations ==> d in t.reservations && t.reservations[d] == s.reservations[d]
  }

  /** The driver is reserved for another ride than `r`, and is no ghost. */
  predicate ReservedElsewhere(s: State, d: DriverId, r: RideId) {
    d in s.reservations && s.reservations[d].ride != r && !Ghost(s, d)
  }

  lemma CleanupKeepsToken(s: State, r: RideId, d: DriverId)
    requires r in s.rides && d in s.reservations && s.reservations[d].ride != r
    ensures KeepsToken(s, CleanupTerminal(s, r), d)
  {
  }

  lemma CancelKeepsToken(s: State, r: RideId, d: DriverId)
    requires r in s.rides && d in s.reservations && s.reservations[d].ride != r
    ensures KeepsToken(s, CancelExhausted(s, r), d)
  {
  }

  lemma SendKeepsToken(c: Config, s: State, r: RideId, chosen: seq<DriverId>, d: DriverId)
    requires r in s.rides && d !in chosen
    ensures KeepsToken(s, SendBatch(c, s, r, chosen), d)
  {
  }

  lemma SearchKeepsToken(c: Config, s: State, r: RideId, round: nat, radius: real, near: seq<DriverId>, d: DriverId)
    requires r in s.rides && Distinct(near) && ReservedElsewhere(s, d, r)
    ensures KeepsToken(s, Search(c, s, r, round, radius, near), d)
  {
    var candidates := Eligible(s, r, round, near);
    var u := RemoveGhosts(s, GhostsScanned(s, candidates, c.batchSize));
    assert KeepsToken(s, u, d);
    ChosenDrivers(s, r, round, near, c.batchSize);
    SendKeepsToken(c, u, r, Pick(s, candidates, c.batchSize), d);
    CancelKeepsToken(u, r, d);
  }

  lemma ReadyKeepsToken(c: Config, s: State, r: RideId, d: DriverId)
    requires r in s.rides && ReservedElsewhere(s, d, r)
    ensures var u := ReadyToSearch(c, s, r); KeepsToken(s, u, d) && ReservedElsewhere(u, d, r)
    ensures KeepsToken(s, StartIfRequested(c, s, r), d)
  {
  }

  lemma DispatchKeepsToken(c: Config, s: State, r: RideId, near: seq<DriverId>, d: DriverId)
    requires Distinct(near) && ReservedElsewhere(s, d, r)
    ensures KeepsToken(s, Dispatch(c, s, r, near), d)
  {
    if r in s.rides {
      ReadyKeepsToken(c, s, r, d);
      SearchKeepsToken(c, ReadyToSearch(c, s, r), r, s.rides[r].round, EntryRadius(c, s.rides[r]), near, d);
    }
  }

  lemma TimeoutKeepsToken(c: Config, s: State, r: RideId, b: BatchId, near: seq<DriverId>, d: DriverId)
    requires Distinct(near) && ReservedElsewhere(s, d, r)
    ensures KeepsToken(s, BatchTimeout(c, s, r, b, near), d)
  {
    if r in s.rides {
      DispatchKeepsToken(c, ExpireBatch(s, r), r, near, d);
    }
  }

  lemma RejectKeepsToken(c: Config, s: State, r: RideId, e: DriverId, reason: string, near: seq<DriverId>, d: DriverId)
    requires Distinct(near) && ReservedElsewhere(s, d, r)
    ensures KeepsToken(s, Reject(c, s, r, e, reason, near), d)
  {
    if CanReject(s, r, e) {
      var u := RecordRejection(c, s, r, e, reason);
      assert KeepsToken(s, u, d);
      DispatchKeepsToken(c, u, r, near, d);
    }
  }

  lemma AcceptKeepsToken(c: Config, s: State, step: Step, d: DriverId)
    requires step.Accepts? || step.ScriptRuns? || step.AcceptFinishes?
    requires d in s.reservations && s.reservations[d].ride != step.ride
    ensures KeepsToken(s, Apply(c, s, step), d)
  {
    if step.ScriptRuns? {
      ScriptKeepsToken(s, step.ride, step.driver, step.seen, step.at, d);
    } else if step.Accepts? && step.ride in s.rides {
      ScriptKeepsToken(s, step.ride, step.driver, s.rides[step.ride].batch, s.now, d);
      LosersOnly(AcceptReadBack(AcceptScript(s, step.ride, step.driver, s.rides[step.ride].batch, s.now), step.ride), step.ride, d);
    } else if step.AcceptFinishes? {
      LosersOnly(s, step.ride, d);
    }
  }

  lemma ScriptKeepsToken(s: State, r: RideId, e: DriverId, seen: Option<Batch>, at: int, d: DriverId)
    requires d in s.reservations && s.reservations[d].ride != r
    ensures KeepsToken(s, AcceptScript(s, r, e, seen, at), d)
  {
  }

  lemma LosersOnly(s: State, r: RideId, d: DriverId)
    requires d in s.reservations ==> s.reservations[d].ride != r
    ensures KeepsToken(s, AcceptCleanup(s, r), d)
  {
  }

  lemma TransitionKeepsToken(s: State, r: RideId, next: RideStatus, d: DriverId)
    requires d in s.reservations && s.reservations[d].ride != r
    ensures KeepsToken(s, Transition(s, r, next), d)
  {
    if r in s.rides {
      CleanupKeepsToken(Moved(s, r, next), r, d);
    }
  }

  /** The step is a call on behalf of ride `r`. */
  predicate IsCallOf(step: Step, r: RideId) {
    ((ConcernsRide(step) && !step.Requests?) || Transitions(step)) && step.ride == r
  }

  /** The step's reservation check wipes the driver. */
  predicate WipesGhost(s: State, step: Step, d: DriverId) {
    (step.Dispatches? || step.BatchTimesOut? || step.Rejects?) && Ghost(s, d)
  }

  lemma DispatchStepKeepsToken(c: Config, s: State, step: Step, d: DriverId)
    requires Enabled(s, step) && (step.Dispatches? || step.BatchTimesOut? || step.Rejects?) && ReservedElsewhere(s, d, step.ride)
    ensures KeepsToken(s, Apply(c, s, step), d)
  {
    match step
    case Dispatches(r, near) => DispatchKeepsToken(c, s, r, near, d);
    case BatchTimesOut(r, b, near) => TimeoutKeepsToken(c, s, r, b, near, d);
    case Rejects(r, e, reason, near) => RejectKeepsToken(c, s, r, e, reason, near, d);
  }

  lemma OtherStepKeepsToken(c: Config, s: State, step: Step, d: DriverId)
    requires step.Requests? || !(ConcernsRide(step) || Transitions(step))
    requires step != ReservationExpires(d) && step != Leaves(d)
    ensures KeepsToken(s, Apply(c, s, step), d)
  {
  }

  lemma StepKeepsToken(c: Config, s: State, step: Step, d: DriverId)
    requires Enabled(s, step) && d in s.reservations
    requires !IsCallOf(step, s.reservations[d].ride) && step != ReservationExpires(d) && step != Leaves(d) && !WipesGhost(s, step, d)
    ensures KeepsToken(s, Apply(c, s, step), d)
  {
    if step.Dispatches? || step.BatchTimesOut? || step.Rejects? {
      DispatchStepKeepsToken(c, s, step, d);
    } else if step.Accepts? || step.ScriptRuns? || step.AcceptFinishes? {
      AcceptKeepsToken(c, s, step, d);
    } else if Transitions(step) {
      TransitionKeepsToken(s, step.ride,
                           if step.Arrives? then Arriving else if step.Starts? then Ongoing else if step.Completes? then Completed else Cancelled, d);
    } else {
      OtherStepKeepsToken(c, s, step, d);
    }
  }

  /**
   * In any run, a driver's reservation for a ride ends or changes only in a call of that very ride, by expiry, when the driver
   * goes offline, or when a reservation check finds the driver without hash or heartbeat. No call releases the token of
   * another ride.
   */
  lemma OnlyItsRideReleases(c: Config, ss: seq<State>, steps: seq<Step>, i: nat, d: DriverId)
    requires IsRun(c, ss, steps) && i < |steps| && d in ss[i].reservations && !KeepsToken(ss[i], ss[i + 1], d)
    ensures || IsCallOf(steps[i], ss[i].reservations[d].ride)
            || steps[i] == ReservationExpires(d) || steps[i] == Leaves(d) || WipesGhost(ss[i], steps[i], d)
  {
    var s, step := ss[i], steps[i];
    if !IsCallOf(step, s.reservations[d].ride) && step != ReservationExpires(d) && step != Leaves(d) && !WipesGhost(s, step, d) {
      StepKeepsToken(c, s, step, d);
    }
  }
}
