/** Runs of the whole system: any service call, script firing, key expiry or clock tick, in any order. */
module Runs {
  import opened Wrappers
  import opened Types
  import opened Lifecycle
  import opened Steps
  import opened Invariants
  import opened Preservation

  datatype Step =
    | Requests(customer: CustomerId)
    | Dispatches(ride: RideId, near: seq<DriverId>)
    | BatchTimesOut(ride: RideId, batch: BatchId, near: seq<DriverId>)
    | Rejects(ride: RideId, driver: DriverId, reason: string, near: seq<DriverId>)
    | Accepts(ride: RideId, driver: DriverId)
    | ScriptRuns(ride: RideId, driver: DriverId, seen: Option<Batch>, at: int)
    | AcceptReads(ride: RideId)
    | AcceptFinishes(ride: RideId)
    | Arrives(ride: RideId, driver: DriverId)
    | Starts(ride: RideId, driver: DriverId)
    | Completes(ride: RideId, driver: DriverId)
    | Cancels(ride: RideId)
    | ComesOnline(driver: DriverId, located: bool)
    | Beats(driver: DriverId, located: bool)
    | Leaves(driver: DriverId)
    | Reconnects(driver: DriverId)
    | HeartbeatExpires(driver: DriverId)
    | ReservationExpires(driver: DriverId)
    | CooldownExpires(driver: DriverId)
    | ClockAdvances(ms: nat)

  /** GEOSEARCH returns distinct members of the geo index; a batch record read earlier under the current id is the current one. */
  predicate Enabled(s: State, step: Step) {
    match step
    case Dispatches(_, near) => Candidates(s, near)
    case BatchTimesOut(_, _, near) => Candidates(s, near)
    case Rejects(_, _, _, near) => Candidates(s, near)
    case ScriptRuns(r, _, seen, _) =>
      seen.Some? && r in s.rides && s.rides[r].batch.Some? && seen.value.id == s.rides[r].batch.value.id ==> seen == s.rides[r].batch
    case _ => true
  }

  function Apply(c: Config, s: State, step: Step): State {
    match step
    case Requests(customer) => RequestRide(c, s, customer)
    case Dispatches(r, near) => Dispatch(c, s, r, near)
    case BatchTimesOut(r, b, near) => BatchTimeout(c, s, r, b, near)
    case Rejects(r, d, reason, near) => Reject(c, s, r, d, reason, near)
    case Accepts(r, d) => Accept(s, r, d)
    case ScriptRuns(r, d, seen, at) => AcceptScript(s, r, d, seen, at)
    case AcceptReads(r) => AcceptReadBack(s, r)
    case AcceptFinishes(r) => AcceptCleanup(s, r)
    case Arrives(r, d) => DriverTransition(s, r, d, Arriving)
    case Starts(r, d) => DriverTransition(s, r, d, Ongoing)
    case Completes(r, d) => DriverTransition(s, r, d, Completed)
    case Cancels(r) => CancelRide(s, r)
    case ComesOnline(d, located) => GoOnline(s, d, located)
    case Beats(d, located) => Heartbeat(s, d, located)
    case Leaves(d) => GoOffline(s, d)
    case Reconnects(d) => RestoreSession(s, d)
    case HeartbeatExpires(d) => s.(heartbeats := s.heartbeats - {d})
    case ReservationExpires(d) => s.(reservations := s.reservations - {d})
    case CooldownExpires(d) => s.(cooldowns := s.cooldowns - {d})
    case ClockAdvances(ms) => s.(now := s.now + ms)
  }

  /** A run from the empty store: `ss` are its states, `steps[i]` leads from `ss[i]` to `ss[i + 1]`. */
  ghost predicate IsRun(c: Config, ss: seq<State>, steps: seq<Step>) {
    && |ss| == |steps| + 1
    && ss[0] == EmptyState(ss[0].now)
    && forall i :: 0 <= i < |steps| ==> Enabled(ss[i], steps[i]) && ss[i + 1] == Apply(c, ss[i], steps[i])
  }

  ghost predicate Reachable(c: Config, s: State) {
    exists ss: seq<State>, steps: seq<Step> :: IsRun(c, ss, steps) && ss[|steps|] == s
  }

  // ----- candidate lists -----

  lemma {:induction false} FilterDistinct(p: DriverId -> bool, xs: seq<DriverId>)
    requires Distinct(xs)
    ensures Distinct(Filter(p, xs))
  {
    if xs != [] {
      assert forall i, j :: 0 <= i < j < |xs[1..]| ==> xs[1..][i] == xs[i + 1] && xs[1..][j] == xs[j + 1];
      FilterDistinct(p, xs[1..]);
      assert xs[0] !in xs[1..];
    }
  }

  lemma EligibleDistinct(s: State, r: RideId, round: nat, near: seq<DriverId>)
    requires Distinct(near)
    ensures Distinct(Eligible(s, r, round, near))
  {
    FilterDistinct((d: DriverId) => Offer(d, r) !in s.notified || round > 1, near);
  }

  /** The chosen drivers are distinct, reservable members of the candidate list that may still be contacted. */
  lemma ChosenDrivers(s: State, r: RideId, round: nat, near: seq<DriverId>, n: nat)
    requires Distinct(near)
    ensures var chosen := Pick(s, Eligible(s, r, round, near), n);
            && Distinct(chosen) && |chosen| <= n
            && forall d :: d in chosen ==> d in near && Reservable(s, d) && (Offer(d, r) !in s.notified || round > 1)
  {
    EligibleDistinct(s, r, round, near);
    FilterDistinct((d: DriverId) => Reservable(s, d), Eligible(s, r, round, near));
    var chosen := Pick(s, Eligible(s, r, round, near), n);
    forall d | d in chosen ensures d in near && Reservable(s, d) && (Offer(d, r) !in s.notified || round > 1) {
      assert d in ReservableAmong(s, Eligible(s, r, round, near));
      assert d in Eligible(s, r, round, near);
    }
  }

  // ----- every step keeps the invariants -----

  lemma SearchKeeps(c: Config, s: State, r: RideId, round: nat, radius: real, near: seq<DriverId>)
    requires Inv(s) && Candidates(s, near)
    requires r in s.rides && s.rides[r].status == Dispatching && s.rides[r].batch.None?
    ensures Inv(Search(c, s, r, round, radius, near))
  {
    var candidates := Eligible(s, r, round, near);
    var chosen := Pick(s, candidates, c.batchSize);
    var ghosts := GhostsScanned(s, candidates, c.batchSize);
    var t := RemoveGhosts(s, ghosts);
    GhostsKeep(s, ghosts);
    ChosenDrivers(s, r, round, near, c.batchSize);
    if chosen != [] {
      SendKeeps(c, t, r, chosen);
    } else if round >= c.maxRounds || radius >= c.maxRadius {
      ExhaustedKeeps(t, r);
    } else {
      ExpandKeeps(c, t, r, round, radius);
    }
  }

  lemma ExhaustedKeeps(s: State, r: RideId)
    requires Inv(s) && r in s.rides && s.rides[r].status == Dispatching && s.rides[r].batch.None?
    ensures Inv(CancelExhausted(s, r))
  {
    var over := ExhaustedIsEnding(s, r);
    TerminateKeeps(s, r, over, s.log + [StatusUpdate(r, over.version, Cancelled)], s.nextBatch + 1);
  }

  lemma ExhaustedIsEnding(s: State, r: RideId) returns (over: Ride)
    requires r in s.rides && s.rides[r].status == Dispatching && s.rides[r].batch.None? && RideShape(s.rides[r], s.nextBatch)
    ensures Ends(s, r, over, s.nextBatch + 1)
    ensures CancelExhausted(s, r) ==
            CleanupTerminal(Ended(s, r, over, s.log + [StatusUpdate(r, over.version, Cancelled)], s.nextBatch + 1), r)
  {
    over := s.rides[r].(status := Cancelled, cancellation := Some(NoDriversAvailable), batch := None, version := s.rides[r].version + 1);
  }

  lemma DispatchKeeps(c: Config, s: State, r: RideId, near: seq<DriverId>)
    requires Inv(s) && Candidates(s, near)
    ensures Inv(Dispatch(c, s, r, near))
  {
    if r in s.rides && (s.rides[r].status == Requested || s.rides[r].status == Dispatching) {
      var t := StartIfRequested(c, s, r);
      StartKeeps(c, s, r);
      if !BatchRunning(t, r) {
        SearchAfterExpiryKeeps(c, t, r, s.rides[r].round, EntryRadius(c, s.rides[r]), near);
      }
    }
  }

  lemma SearchAfterExpiryKeeps(c: Config, s: State, r: RideId, round: nat, radius: real, near: seq<DriverId>)
    requires Inv(s) && Candidates(s, near) && r in s.rides && s.rides[r].status == Dispatching
    ensures Inv(Search(c, ExpireBatch(s, r), r, round, radius, near))
  {
    ExpireKeeps(s, r);
    SearchKeeps(c, ExpireBatch(s, r), r, round, radius, near);
  }

  lemma TimeoutKeeps(c: Config, s: State, r: RideId, b: BatchId, near: seq<DriverId>)
    requires Inv(s) && Candidates(s, near)
    ensures Inv(BatchTimeout(c, s, r, b, near))
  {
    if BatchTimeout(c, s, r, b, near) != s {
      ExpireKeeps(s, r);
      DispatchKeeps(c, ExpireBatch(s, r), r, near);
    }
  }

  lemma RejectKeeps(c: Config, s: State, r: RideId, d: DriverId, reason: string, near: seq<DriverId>)
    requires Inv(s) && Candidates(s, near)
    ensures Inv(Reject(c, s, r, d, reason, near))
  {
    if CanReject(s, r, d) {
      RejectionKeeps(c, s, r, d, reason);
      if BatchExhausted(s, r, d) {
        DispatchKeeps(c, RecordRejection(c, s, r, d, reason), r, near);
      }
    }
  }

  lemma ScriptStepKeeps(s: State, r: RideId, d: DriverId, seen: Option<Batch>, at: int)
    requires Inv(s) && Enabled(s, ScriptRuns(r, d, seen, at))
    ensures Inv(AcceptScript(s, r, d, seen, at))
  {
    if AcceptCode(s, r, d, at, TokenOf(r, seen)) == 0 {
      ScriptSeesCurrentBatch(s, r, d, seen, at);
      ScriptKeeps(s, r, d, at);
    }
  }

  lemma AcceptKeeps(s: State, r: RideId, d: DriverId)
    requires Inv(s)
    ensures Inv(Accept(s, r, d))
  {
    if r in s.rides {
      var won := AcceptScript(s, r, d, s.rides[r].batch, s.now);
      ScriptStepKeeps(s, r, d, s.rides[r].batch, s.now);
      ReadBackKeeps(won, r);
      AcceptCleanupKeeps(AcceptReadBack(won, r), r);
    }
  }

  lemma TransitionKeeps(s: State, r: RideId, next: RideStatus)
    requires Inv(s) && (next == Arriving || next == Ongoing || Terminal(next))
    ensures Inv(Transition(s, r, next))
  {
    if CanTransition(s, r, next) {
      if Terminal(next) {
        var over := TransitionIsEnding(s, r, next);
        TerminateKeeps(s, r, over, s.log + [StatusUpdate(r, over.version, next), StatusUpdate(r, over.version, next)], s.nextBatch);
      } else {
        MoveKeeps(s, r, next);
      }
    }
  }

  lemma TransitionIsEnding(s: State, r: RideId, next: RideStatus) returns (over: Ride)
    requires CanTransition(s, r, next) && Terminal(next) && RideShape(s.rides[r], s.nextBatch)
    ensures Ends(s, r, over, s.nextBatch)
    ensures Transition(s, r, next) ==
            CleanupTerminal(Ended(s, r, over, s.log + [StatusUpdate(r, over.version, next), StatusUpdate(r, over.version, next)],
                                  s.nextBatch), r)
  {
    over := s.rides[r].(status := next, version := s.rides[r].version + 1,
                        cancellation := if next == Cancelled then Some(ByActor) else s.rides[r].cancellation);
  }

  lemma PresenceKeeps(s: State, d: DriverId, located: bool)
    requires Inv(s)
    ensures Inv(GoOnline(s, d, located)) && Inv(Heartbeat(s, d, located)) && Inv(RestoreSession(s, d)) && Inv(GoOffline(s, d))
  {
    OnlineKeeps(s, d, located);
    BeatKeeps(s, d, located);
    BeatKeeps(s, d, true);
    OfflineKeeps(s, d);
  }

  lemma OnlineKeeps(s: State, d: DriverId, located: bool)
    requires Inv(s)
    ensures Inv(GoOnline(s, d, located))
  {
    var active := ActiveRideOf(s, d);
    PersistKeeps(s, d, Driver(if active.Some? then Busy else Online, active, located));
  }

  lemma BeatKeeps(s: State, d: DriverId, located: bool)
    requires Inv(s)
    ensures Inv(Heartbeat(s, d, located)) && (located ==> RestoreSession(s, d) == Heartbeat(s, d, true))
  {
    if d in s.drivers && s.drivers[d].status != Offline {
      PersistKeeps(s, d, s.drivers[d].(located := located));
    }
  }

  predicate ConcernsRide(step: Step) {
    step.Requests? || step.Dispatches? || step.BatchTimesOut? || step.Rejects? || step.Accepts? || step.ScriptRuns?
    || step.AcceptFinishes?
  }

  predicate ConcernsDriver(step: Step) {
    step.ComesOnline? || step.Beats? || step.Leaves? || step.Reconnects?
  }

  predicate Transitions(step: Step) {
    step.Arrives? || step.Starts? || step.Completes? || step.Cancels?
  }

  lemma RideStepKeeps(c: Config, s: State, step: Step)
    requires Inv(s) && Enabled(s, step) && ConcernsRide(step)
    ensures Inv(Apply(c, s, step))
  {
    match step
    case Requests(customer) => RequestKeeps(c, s, customer);
    case Dispatches(r, near) => DispatchKeeps(c, s, r, near);
    case BatchTimesOut(r, b, near) => TimeoutKeeps(c, s, r, b, near);
    case Rejects(r, d, reason, near) => RejectKeeps(c, s, r, d, reason, near);
    case Accepts(r, d) => AcceptKeeps(s, r, d);
    case ScriptRuns(r, d, seen, at) => ScriptStepKeeps(s, r, d, seen, at);
    case AcceptFinishes(r) => AcceptCleanupKeeps(s, r);
  }

  lemma TransitionStepKeeps(c: Config, s: State, step: Step)
    requires Inv(s) && Transitions(step)
    ensures Inv(Apply(c, s, step))
  {
    TransitionKeeps(s, step.ride,
                    if step.Arrives? then Arriving else if step.Starts? then Ongoing else if step.Completes? then Completed else Cancelled);
  }

  lemma EnvironmentStepKeeps(c: Config, s: State, step: Step)
    requires Inv(s) && !ConcernsRide(step) && !ConcernsDriver(step) && !Transitions(step)
    ensures Inv(Apply(c, s, step))
  {
    if step.AcceptReads? {
      ReadBackKeeps(s, step.ride);
    }
  }

  lemma StepKeeps(c: Config, s: State, step: Step)
    requires Inv(s) && Enabled(s, step)
    ensures Inv(Apply(c, s, step))
  {
    if ConcernsRide(step) {
      RideStepKeeps(c, s, step);
    } else if Transitions(step) {
      TransitionStepKeeps(c, s, step);
    } else if ConcernsDriver(step) {
      PresenceKeeps(s, step.driver, if step.ComesOnline? || step.Beats? then step.located else true);
    } else {
      EnvironmentStepKeeps(c, s, step);
    }
  }

  /** The invariants hold in every state of every run. */
  lemma {:induction false} RunKeeps(c: Config, ss: seq<State>, steps: seq<Step>, i: nat)
    requires IsRun(c, ss, steps) && i < |ss|
    ensures Inv(ss[i])
  {
    if i > 0 {
      RunKeeps(c, ss, steps, i - 1);
      StepKeeps(c, ss[i - 1], steps[i - 1]);
    }
  }

  lemma ReachableKeeps(c: Config, s: State)
    requires Reachable(c, s)
    ensures Inv(s)
  {
    var ss: seq<State>, steps: seq<Step> :| IsRun(c, ss, steps) && ss[|steps|] == s;
    RunKeeps(c, ss, steps, |steps|);
  }
}
