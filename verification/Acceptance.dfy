/** When a ride is accepted, and what that writes, in terms of the keys alone. */
module Acceptance {
  import opened Wrappers
  import opened Types
  import opened Lifecycle
  import opened Steps
  import opened Invariants
  import opened Preservation
  import opened Runs
  import opened Evolution
  import opened Guarantees
  import opened Writes

  /** The ride is being dispatched, its batch has not expired, and the driver is an ONLINE member who holds its reservation and has not answered. */
  predicate MayAccept(s: State, r: RideId, d: DriverId, at: int) {
    && r in s.rides && s.rides[r].status == Dispatching && s.rides[r].batch.Some?
    && var b := s.rides[r].batch.value;
    && at <= b.expiresAt && d in b.drivers
    && Offer(d, r) in s.responses && s.responses[Offer(d, r)] == Pending(b.id)
    && d in s.reservations && s.reservations[d] == Token(r, b.id)
    && d in s.drivers && s.drivers[d].status == Online
  }

  predicate IsAcceptOf(step: Step, r: RideId) {
    (step.Accepts? || step.ScriptRuns?) && step.ride == r
  }

  /** The time the call states as that of its acceptance. */
  function AcceptedAt(s: State, step: Step): int
    requires step.Accepts? || step.ScriptRuns?
  {
    if step.Accepts? then s.now else step.at
  }

  /** The batch the call has read: the current one, or what it read before. */
  function BatchRead(s: State, step: Step): Option<Batch>
    requires (step.Accepts? || step.ScriptRuns?) && step.ride in s.rides
  {
    if step.Accepts? then s.rides[step.ride].batch else step.seen
  }

  lemma PassesIff(s: State, r: RideId, d: DriverId, seen: Option<Batch>, at: int)
    requires Inv(s) && Enabled(s, ScriptRuns(r, d, seen, at)) && r in s.rides && s.rides[r].status == Dispatching
    ensures AcceptCode(s, r, d, at, TokenOf(r, seen)) == 0 <==> MayAccept(s, r, d, at) && seen == s.rides[r].batch
  {
    if AcceptCode(s, r, d, at, TokenOf(r, seen)) == 0 {
      ScriptSeesCurrentBatch(s, r, d, seen, at);
    }
  }

  /** What an acceptance leaves behind. */
  ghost predicate IsAcceptance(s: State, t: State, r: RideId, d: DriverId) {
    && r in s.rides && d in s.drivers
    && t.rides == s.rides[r := s.rides[r].(status := Accepted, driver := Some(d), batch := None, version := s.rides[r].version + 1)]
    && t.drivers == s.drivers[d := s.drivers[d].(status := Busy, activeRide := Some(r))]
    && t.activeKey == s.activeKey[d := r]
    && t.available == s.available - {d} && t.geo == s.geo - {d} && t.busy == s.busy + {d} && t.online == s.online
    && t.responses == s.responses[Offer(d, r) := Won]
    && d !in t.reservations && Offer(d, r) !in t.pending
  }

  lemma AcceptStepIff(c: Config, s: State, step: Step, r: RideId)
    requires Inv(s) && Enabled(s, step) && IsAcceptOf(step, r) && r in s.rides && s.rides[r].status == Dispatching
    ensures var t := Apply(c, s, step);
            && r in t.rides
            && (t.rides[r].status == Accepted <==> MayAccept(s, r, step.driver, AcceptedAt(s, step)) && BatchRead(s, step) == s.rides[r].batch)
            && (t.rides[r].status == Accepted ==> IsAcceptance(s, t, r, step.driver))
            && (t.rides[r].status != Accepted ==> t == s)
  {
    PassesIff(s, r, step.driver, BatchRead(s, step), AcceptedAt(s, step));
    if AcceptCode(s, r, step.driver, AcceptedAt(s, step), TokenOf(r, BatchRead(s, step))) == 0 {
      var won := Committed(s, r, step.driver, BatchRead(s, step).value);
      CommitIsAcceptance(s, r, step.driver, BatchRead(s, step).value);
      if step.Accepts? {
        SettledIsAcceptance(s, won, r, step.driver);
      }
    }
  }

  lemma CommitIsAcceptance(s: State, r: RideId, d: DriverId, seen: Batch)
    requires r in s.rides && d in s.drivers
    ensures IsAcceptance(s, Committed(s, r, d, seen), r, d)
  {
  }

  lemma SettledIsAcceptance(s: State, won: State, r: RideId, d: DriverId)
    requires IsAcceptance(s, won, r, d)
    ensures IsAcceptance(s, AcceptCleanup(AcceptReadBack(won, r), r), r, d)
  {
  }

  // ----- nothing else accepts -----

  lemma DispatchKeepsDriver(c: Config, s: State, q: RideId, near: seq<DriverId>, r: RideId)
    requires r in s.rides && (q in s.rides ==> RideShape(s.rides[q], s.nextBatch))
    ensures var t := Dispatch(c, s, q, near); r in t.rides && t.rides[r].driver == s.rides[r].driver
  {
    if q in s.rides && (s.rides[q].status == Requested || s.rides[q].status == Dispatching) {
      var started := StartIfRequested(c, s, q);
      StartRide(c, s, q);
      ExpireRide(started, q);
      if !BatchRunning(started, q) {
        SearchRide(c, ExpireBatch(started, q), q, s.rides[q].round, EntryRadius(c, s.rides[q]), near);
      }
    }
  }

  lemma DispatchStepKeepsDriver(c: Config, s: State, step: Step, r: RideId)
    requires Inv(s) && r in s.rides && (step.Dispatches? || step.BatchTimesOut? || step.Rejects?)
    ensures var t := Apply(c, s, step); r in t.rides && t.rides[r].driver == s.rides[r].driver
  {
    match step
    case Dispatches(q, near) => DispatchKeepsDriver(c, s, q, near, r);
    case BatchTimesOut(q, b, near) => TimeoutKeepsDriver(c, s, q, b, near, r);
    case Rejects(q, d, reason, near) => RejectKeepsDriver(c, s, q, d, reason, near, r);
  }

  lemma TimeoutKeepsDriver(c: Config, s: State, q: RideId, b: BatchId, near: seq<DriverId>, r: RideId)
    requires r in s.rides && (q in s.rides ==> RideShape(s.rides[q], s.nextBatch))
    ensures var t := BatchTimeout(c, s, q, b, near); r in t.rides && t.rides[r].driver == s.rides[r].driver
  {
    if q in s.rides && s.rides[q].status == Dispatching {
      var u := ExpireBatch(s, q);
      assert r in u.rides && u.rides[r].driver == s.rides[r].driver && RideShape(u.rides[q], u.nextBatch);
      DispatchKeepsDriver(c, u, q, near, r);
    }
  }

  lemma RejectKeepsDriver(c: Config, s: State, q: RideId, d: DriverId, reason: string, near: seq<DriverId>, r: RideId)
    requires r in s.rides && (q in s.rides ==> RideShape(s.rides[q], s.nextBatch))
    ensures var t := Reject(c, s, q, d, reason, near); r in t.rides && t.rides[r].driver == s.rides[r].driver
  {
    if CanReject(s, q, d) {
      var u := RecordRejection(c, s, q, d, reason);
      assert r in u.rides && u.rides[r].driver == s.rides[r].driver && RideShape(u.rides[q], u.nextBatch);
      DispatchKeepsDriver(c, u, q, near, r);
    }
  }

  lemma TransitionKeepsDriver(s: State, q: RideId, next: RideStatus, r: RideId)
    requires r in s.rides
    ensures r in Transition(s, q, next).rides && Transition(s, q, next).rides[r].driver == s.rides[r].driver
  {
    if q in s.rides {
      TransitionHash(s, q, next);
    }
  }

  /** Only an accept call of the ride assigns it a driver. */
  lemma OthersKeepDriver(c: Config, s: State, step: Step, r: RideId)
    requires Inv(s) && r in s.rides && !IsAcceptOf(step, r)
    ensures var t := Apply(c, s, step); r in t.rides && t.rides[r].driver == s.rides[r].driver
  {
    if step.Dispatches? || step.BatchTimesOut? || step.Rejects? {
      DispatchStepKeepsDriver(c, s, step, r);
    } else if Transitions(step) {
      TransitionKeepsDriver(s, step.ride,
                            if step.Arrives? then Arriving else if step.Starts? then Ongoing else if step.Completes? then Completed else Cancelled, r);
    } else if step.Accepts? || step.ScriptRuns? {
      OtherAcceptKeepsDriver(c, s, step, r);
    } else {
      OtherStepKeepsDriver(c, s, step, r);
    }
  }

  lemma OtherAcceptKeepsDriver(c: Config, s: State, step: Step, r: RideId)
    requires r in s.rides && (step.Accepts? || step.ScriptRuns?) && step.ride != r
    ensures var t := Apply(c, s, step); r in t.rides && t.rides[r].driver == s.rides[r].driver
  {
  }

  lemma OtherStepKeepsDriver(c: Config, s: State, step: Step, r: RideId)
    requires r in s.rides && s.nextRide !in s.rides
    requires !(step.Dispatches? || step.BatchTimesOut? || step.Rejects? || step.Accepts? || step.ScriptRuns?) && !Transitions(step)
    ensures var t := Apply(c, s, step); r in t.rides && t.rides[r].driver == s.rides[r].driver
  {
  }

  /**
   * Exactly when a step of a run turns a DISPATCHING ride into an ACCEPTED one: it is an accept call of that ride which has
   * read the current batch, states a time at which the batch had not expired, and is made by an ONLINE, reserved, unanswered
   * member of it. The keys it writes are those of an acceptance.
   */
  lemma AcceptedIff(c: Config, ss: seq<State>, steps: seq<Step>, i: nat, r: RideId)
    requires IsRun(c, ss, steps) && i < |steps| && r in ss[i].rides && ss[i].rides[r].status == Dispatching
    ensures r in ss[i + 1].rides
    ensures ss[i + 1].rides[r].status == Accepted <==>
            && IsAcceptOf(steps[i], r)
            && BatchRead(ss[i], steps[i]) == ss[i].rides[r].batch
            && MayAccept(ss[i], r, steps[i].driver, AcceptedAt(ss[i], steps[i]))
    ensures ss[i + 1].rides[r].status == Accepted ==> IsAcceptance(ss[i], ss[i + 1], r, steps[i].driver)
  {
    RunKeeps(c, ss, steps, i);
    RunKeeps(c, ss, steps, i + 1);
    if IsAcceptOf(steps[i], r) {
      AcceptStepIff(c, ss[i], steps[i], r);
    } else {
      OthersKeepDriver(c, ss[i], steps[i], r);
    }
  }

  // ----- the codes of the script -----

  predicate Unassigned(s: State, r: RideId) {
    r in s.rides && s.rides[r].status == Dispatching && s.rides[r].driver.None?
  }

  /** The driver has been contacted for a batch that has not expired at `at`. */
  predicate Contacted(s: State, r: RideId, d: DriverId, at: int) {
    Unassigned(s, r) && s.rides[r].batch.Some? && at <= s.rides[r].batch.value.expiresAt && Offer(d, r) in s.notified
  }

  predicate Reserved(s: State, d: DriverId, token: Option<Token>) {
    token.Some? && d in s.reservations && s.reservations[d] == token.value
  }

  predicate FreeFor(s: State, d: DriverId, r: RideId) {
    d in s.drivers && s.drivers[d].status == Online && (d in s.activeKey ==> s.activeKey[d] == r)
  }

  /** Each result code of the script names the first guard that fails; 0 stands for success. */
  lemma CodesNameGuards(s: State, r: RideId, d: DriverId, at: int, token: Option<Token>)
    ensures var code := AcceptCode(s, r, d, at, token);
            && (code == -1 <==> r !in s.rides)
            && (r in s.rides ==> (code == -2 <==> s.rides[r].status != Dispatching))
            && (r in s.rides && s.rides[r].status == Dispatching ==> (code == -3 <==> s.rides[r].driver.Some?))
            && (Unassigned(s, r) ==> (code == -6 <==> s.rides[r].batch.None?))
            && (Unassigned(s, r) && s.rides[r].batch.Some? ==> (code == -7 <==> s.rides[r].batch.value.expiresAt < at))
            && (Unassigned(s, r) && s.rides[r].batch.Some? && at <= s.rides[r].batch.value.expiresAt ==>
                  (code == -4 <==> Offer(d, r) !in s.notified))
    ensures var code := AcceptCode(s, r, d, at, token);
            Contacted(s, r, d, at) ==>
              var asked := Offer(d, r) in s.responses && s.responses[Offer(d, r)] == Pending(s.rides[r].batch.value.id);
              && (code == -8 <==> !asked)
              && (code == -9 <==> asked && !Reserved(s, d, token))
              && (code == -5 <==> asked && Reserved(s, d, token) && !FreeFor(s, d, r))
              && (code == 0 <==> asked && Reserved(s, d, token) && FreeFor(s, d, r))
    ensures AcceptCode(s, r, d, at, token) == 0 ==> Contacted(s, r, d, at)
  {
  }
}
