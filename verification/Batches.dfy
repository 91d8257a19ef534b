/** What a batch is: whom it asks, how long it lives, and what becomes of the answers, in terms of the keys alone. */
module Batches {
  import opened Wrappers
  import opened Types
  import opened Steps
  import opened Invariants
  import opened Preservation
  import opened Runs
  import opened Evolution
  import opened Guarantees
  import opened Rounds

  // ----- whom a batch asks, and until when -----

  /** The step from `s` to `t` has given the ride a batch it did not have. */
  predicate IsNewBatch(s: State, t: State, r: RideId) {
    r in t.rides && t.rides[r].batch.Some? && t.rides[r].batch.value.id >= s.nextBatch
  }

  /** ONLINE, with a heartbeat, in the geo index, on no ride, not on cooldown, and reserved for no other ride. */
  predicate MayBeAsked(s: State, r: RideId, d: DriverId) {
    && d in s.drivers && s.drivers[d].status == Online && d in s.heartbeats && d in s.geo
    && d !in s.activeKey && d !in s.cooldowns
    && (d in s.reservations ==> s.reservations[d].ride == r)
  }

  /** A new batch lives for `responseTtl` from now, and asks at least one and at most `batchSize` drivers, all of whom may be asked. */
  ghost predicate GoodBatch(c: Config, s: State, t: State, r: RideId)
    requires IsNewBatch(s, t, r)
  {
    var b := t.rides[r].batch.value;
    && b.expiresAt == s.now + c.responseTtl
    && 1 <= |b.drivers| <= c.batchSize && Distinct(b.drivers)
    && forall d :: d in b.drivers ==> MayBeAsked(s, r, d)
  }

  /** The ride's own tokens aside, `u` has what `s` has to say about drivers. */
  ghost predicate SameDrivers(s: State, u: State, r: RideId) {
    && u.drivers == s.drivers && u.heartbeats == s.heartbeats && u.geo == s.geo && u.activeKey == s.activeKey && u.now == s.now
    && s.cooldowns <= u.cooldowns && s.nextBatch == u.nextBatch
    && (forall d :: d in s.reservations && s.reservations[d].ride != r ==> d in u.reservations && u.reservations[d] == s.reservations[d])
  }

  lemma SearchSendsGood(c: Config, s: State, u: State, r: RideId, round: nat, radius: real, near: seq<DriverId>)
    requires SameDrivers(s, u, r) && r in u.rides && u.rides[r].batch.None? && Candidates(s, near) && c.batchSize > 0
    ensures var t := Search(c, u, r, round, radius, near); IsNewBatch(s, t, r) ==> GoodBatch(c, s, t, r)
  {
    var chosen := Pick(u, Eligible(u, r, round, near), c.batchSize);
    ChosenDrivers(u, r, round, near, c.batchSize);
    var v := RemoveGhosts(u, GhostsScanned(u, Eligible(u, r, round, near), c.batchSize));
    if chosen == [] {
      NoBatchWithoutChosen(c, u, r, round, radius, near);
    } else {
      assert SendBatch(c, v, r, chosen).rides[r].batch == Some(Batch(u.nextBatch, chosen, u.now + c.responseTtl));
    }
  }

  lemma NoBatchWithoutChosen(c: Config, s: State, r: RideId, round: nat, radius: real, near: seq<DriverId>)
    requires r in s.rides && Pick(s, Eligible(s, r, round, near), c.batchSize) == []
    ensures var t := Search(c, s, r, round, radius, near); r in t.rides && t.rides[r].batch.None?
  {
    FruitlessSearch(c, s, r, round, radius, near);
  }

  lemma ReadySameDrivers(c: Config, s: State, u: State, r: RideId)
    requires SameDrivers(s, u, r) && r in u.rides
    ensures SameDrivers(s, StartIfRequested(c, u, r), r) && SameDrivers(s, ReadyToSearch(c, u, r), r)
  {
    var started := StartIfRequested(c, u, r);
    assert SameDrivers(s, started, r);
    ExpireSameDrivers(s, started, r);
  }

  lemma ExpireSameDrivers(s: State, u: State, r: RideId)
    requires SameDrivers(s, u, r) && r in u.rides
    ensures SameDrivers(s, ExpireBatch(u, r), r)
  {
  }

  lemma DispatchSendsGood(c: Config, s: State, u: State, r: RideId, near: seq<DriverId>)
    requires SameDrivers(s, u, r) && Candidates(s, near) && c.batchSize > 0
    requires (r in u.rides ==> RideShape(u.rides[r], u.nextBatch)) && !IsNewBatch(s, u, r)
    ensures var t := Dispatch(c, u, r, near); IsNewBatch(s, t, r) ==> GoodBatch(c, s, t, r)
  {
    if Dispatchable(u, r) {
      SearchingDispatch(c, u, r, near);
      ReadyShape(c, u, r);
      ReadySameDrivers(c, s, u, r);
      SearchSendsGood(c, s, ReadyToSearch(c, u, r), r, u.rides[r].round, EntryRadius(c, u.rides[r]), near);
    }
  }

  lemma TimeoutSendsGood(c: Config, s: State, r: RideId, b: BatchId, near: seq<DriverId>)
    requires (r in s.rides ==> RideShape(s.rides[r], s.nextBatch)) && Candidates(s, near) && c.batchSize > 0
    ensures var t := BatchTimeout(c, s, r, b, near); IsNewBatch(s, t, r) ==> GoodBatch(c, s, t, r)
  {
    if r in s.rides && s.rides[r].status == Dispatching {
      var u := ExpireBatch(s, r);
      ClosedSameDrivers(s, r);
      assert !IsNewBatch(s, u, r);
      DispatchSendsGood(c, s, u, r, near);
    }
  }

  lemma ClosedSameDrivers(s: State, r: RideId)
    requires r in s.rides && RideShape(s.rides[r], s.nextBatch)
    ensures var u := ExpireBatch(s, r);
            SameDrivers(s, u, r) && r in u.rides && u.rides[r].batch.None? && RideShape(u.rides[r], u.nextBatch)
  {
  }

  lemma RejectSendsGood(c: Config, s: State, r: RideId, d: DriverId, reason: string, near: seq<DriverId>)
    requires Inv(s) && Candidates(s, near) && c.batchSize > 0
    ensures var t := Reject(c, s, r, d, reason, near); IsNewBatch(s, t, r) ==> GoodBatch(c, s, t, r)
  {
    if CanReject(s, r, d) {
      RejectedSameDrivers(c, s, r, d, reason);
      DispatchSendsGood(c, s, RecordRejection(c, s, r, d, reason), r, near);
    }
  }

  lemma RejectedSameDrivers(c: Config, s: State, r: RideId, d: DriverId, reason: string)
    requires CanReject(s, r, d) && RideShape(s.rides[r], s.nextBatch)
    ensures var u := RecordRejection(c, s, r, d, reason);
            SameDrivers(s, u, r) && !IsNewBatch(s, u, r) && RideShape(u.rides[r], u.nextBatch)
  {
  }

  lemma OtherDispatchSendsNone(c: Config, s: State, step: Step, r: RideId)
    requires Inv(s) && (step.Dispatches? || step.BatchTimesOut? || step.Rejects?) && step.ride != r
    ensures !IsNewBatch(s, Apply(c, s, step), r)
  {
    match step
    case Dispatches(q, near) => ElsewhereSendsNone(c, s, s, q, near, r);
    case BatchTimesOut(q, b, near) => OtherTimeoutSendsNone(c, s, q, b, near, r);
    case Rejects(q, d, reason, near) => OtherRejectSendsNone(c, s, q, d, reason, near, r);
  }

  lemma ElsewhereSendsNone(c: Config, s: State, u: State, q: RideId, near: seq<DriverId>, r: RideId)
    requires q != r && !IsNewBatch(s, u, r) && (q in u.rides ==> RideShape(u.rides[q], u.nextBatch))
    ensures !IsNewBatch(s, Dispatch(c, u, q, near), r)
  {
    if q in u.rides {
      DispatchRide(c, u, q, near);
    }
  }

  lemma OtherTimeoutSendsNone(c: Config, s: State, q: RideId, b: BatchId, near: seq<DriverId>, r: RideId)
    requires Inv(s) && q != r
    ensures !IsNewBatch(s, BatchTimeout(c, s, q, b, near), r)
  {
    if q in s.rides && s.rides[q].status == Dispatching {
      ClosedSameDrivers(s, q);
      ExpireElsewhere(s, q, r);
      ElsewhereSendsNone(c, s, ExpireBatch(s, q), q, near, r);
    }
  }

  lemma ExpireElsewhere(s: State, q: RideId, r: RideId)
    requires q in s.rides && q != r && !IsNewBatch(s, s, r)
    ensures !IsNewBatch(s, ExpireBatch(s, q), r)
  {
  }

  lemma OtherRejectSendsNone(c: Config, s: State, q: RideId, d: DriverId, reason: string, near: seq<DriverId>, r: RideId)
    requires Inv(s) && q != r
    ensures !IsNewBatch(s, Reject(c, s, q, d, reason, near), r)
  {
    if CanReject(s, q, d) {
      var u := RecordRejection(c, s, q, d, reason);
      RejectedSameDrivers(c, s, q, d, reason);
      assert r in u.rides ==> r in s.rides && u.rides[r] == s.rides[r];
      ElsewhereSendsNone(c, s, u, q, near, r);
    }
  }

  lemma OtherStepSendsNone(c: Config, s: State, step: Step, r: RideId)
    requires Inv(s) && !(step.Dispatches? || step.BatchTimesOut? || step.Rejects?)
    ensures !IsNewBatch(s, Apply(c, s, step), r)
  {
    if Transitions(step) {
      TransitionSendsNone(s, step.ride,
                          if step.Arrives? then Arriving else if step.Starts? then Ongoing else if step.Completes? then Completed else Cancelled, r);
    } else if step.Accepts? || step.ScriptRuns? {
      AcceptSendsNone(c, s, step, r);
    } else {
      QuietStepSendsNone(c, s, step, r);
    }
  }

  lemma TransitionSendsNone(s: State, q: RideId, next: RideStatus, r: RideId)
    requires forall p :: p in s.rides ==> RideShape(s.rides[p], s.nextBatch)
    ensures !IsNewBatch(s, Transition(s, q, next), r)
  {
    if q in s.rides {
      TransitionHash(s, q, next);
    }
  }

  lemma AcceptSendsNone(c: Config, s: State, step: Step, r: RideId)
    requires (step.Accepts? || step.ScriptRuns?) && forall p :: p in s.rides ==> RideShape(s.rides[p], s.nextBatch)
    ensures !IsNewBatch(s, Apply(c, s, step), r)
  {
  }

  lemma QuietStepSendsNone(c: Config, s: State, step: Step, r: RideId)
    requires forall p :: p in s.rides ==> RideShape(s.rides[p], s.nextBatch)
    requires !(step.Dispatches? || step.BatchTimesOut? || step.Rejects? || step.Accepts? || step.ScriptRuns?) && !Transitions(step)
    ensures !IsNewBatch(s, Apply(c, s, step), r)
  {
  }

  /** Whatever step of a run gives a ride a new batch, it is a good one. */
  lemma NewBatchIsGood(c: Config, ss: seq<State>, steps: seq<Step>, i: nat, r: RideId)
    requires IsRun(c, ss, steps) && i < |steps| && c.batchSize > 0 && IsNewBatch(ss[i], ss[i + 1], r)
    ensures GoodBatch(c, ss[i], ss[i + 1], r)
  {
    RunKeeps(c, ss, steps, i);
    var s, step := ss[i], steps[i];
    if step.Dispatches? && step.ride == r {
      DispatchSendsGood(c, s, s, r, step.near);
    } else if step.BatchTimesOut? && step.ride == r {
      TimeoutSendsGood(c, s, r, step.batch, step.near);
    } else if step.Rejects? && step.ride == r {
      RejectSendsGood(c, s, r, step.driver, step.reason, step.near);
    } else if step.Dispatches? || step.BatchTimesOut? || step.Rejects? {
      OtherDispatchSendsNone(c, s, step, r);
      assert false;
    } else {
      OtherStepSendsNone(c, s, step, r);
      assert false;
    }
  }

  /** A dispatch that sends keeps round and radius of the ride; the first dispatch sets them to 1 and the initial radius. */
  lemma SendingKeepsRound(c: Config, s: State, r: RideId, near: seq<DriverId>)
    requires Dispatchable(s, r) && RideShape(s.rides[r], s.nextBatch) && IsNewBatch(s, Dispatch(c, s, r, near), r)
    ensures var a, b := s.rides[r], Dispatch(c, s, r, near).rides[r];
            && b.status == Dispatching && b.driver == a.driver && b.customer == a.customer
            && (if a.status == Requested then b.round == 1 && b.radius == c.initialRadius else b.round == a.round && b.radius == a.radius)
  {
    var u := ReadyToSearch(c, s, r);
    SearchingDispatch(c, s, r, near);
    ReadyShape(c, s, r);
    SearchSending(c, u, r, s.rides[r].round, EntryRadius(c, s.rides[r]), near);
    ReadyRound(c, s, r);
  }

  lemma ReadyRound(c: Config, s: State, r: RideId)
    requires Dispatchable(s, r)
    ensures var a, b := s.rides[r], ReadyToSearch(c, s, r).rides[r];
            && b.status == Dispatching && b.driver == a.driver && b.customer == a.customer
            && (if a.status == Requested then b.round == 1 && b.radius == c.initialRadius else b.round == a.round && b.radius == a.radius)
  {
    var started := StartIfRequested(c, s, r);
    assert started.rides[r].status == Dispatching;
    ExpireKeepsRound(started, r);
  }

  lemma ExpireKeepsRound(s: State, r: RideId)
    requires r in s.rides
    ensures var b := ExpireBatch(s, r).rides[r]; b == s.rides[r].(batch := None, version := b.version)
  {
  }

  lemma SearchSending(c: Config, s: State, r: RideId, round: nat, radius: real, near: seq<DriverId>)
    requires r in s.rides && s.rides[r].batch.None?
    requires IsNewBatch(s, Search(c, s, r, round, radius, near), r)
    ensures var b := Search(c, s, r, round, radius, near).rides[r];
            b == s.rides[r].(batch := b.batch, version := s.rides[r].version + 1)
  {
    if Pick(s, Eligible(s, r, round, near), c.batchSize) == [] {
      NoBatchWithoutChosen(c, s, r, round, radius, near);
    }
  }

  // ----- how long a batch lives -----

  /** The batch is gone with its reservations, and whoever had not answered it has timed out or is asked again. */
  ghost predicate IsClosed(s: State, t: State, r: RideId, b: Batch) {
    && r in t.rides && (t.rides[r].batch.Some? ==> t.rides[r].batch.value.id >= s.nextBatch)
    && (forall d :: d in t.reservations ==> t.reservations[d] != Token(r, b.id))
    && (forall d :: d in b.drivers && IsPending(s.responses, Offer(d, r), b.id) ==>
          && Offer(d, r) in t.responses
          && t.responses[Offer(d, r)] == if IsNewBatch(s, t, r) && d in t.rides[r].batch.value.drivers
                                         then Pending(t.rides[r].batch.value.id) else TimedOut)
  }

  lemma SearchLeavesClosed(c: Config, s: State, u: State, r: RideId, round: nat, radius: real, near: seq<DriverId>, b: Batch)
    requires IsClosed(s, u, r, b) && u.rides[r].batch.None? && u.nextBatch == s.nextBatch && b.id < s.nextBatch
    ensures IsClosed(s, Search(c, u, r, round, radius, near), r, b)
  {
    var chosen := Pick(u, Eligible(u, r, round, near), c.batchSize);
    var v := RemoveGhosts(u, GhostsScanned(u, Eligible(u, r, round, near), c.batchSize));
    if chosen != [] {
      SendLeavesClosed(c, s, v, r, chosen, b);
    } else {
      NoBatchWithoutChosen(c, u, r, round, radius, near);
      CancelLeavesClosed(v, r, b);
    }
  }

  lemma SendLeavesClosed(c: Config, s: State, u: State, r: RideId, chosen: seq<DriverId>, b: Batch)
    requires IsClosed(s, u, r, b) && u.rides[r].batch.None? && u.nextBatch == s.nextBatch && b.id < s.nextBatch
    ensures IsClosed(s, SendBatch(c, u, r, chosen), r, b)
  {
    assert SendBatch(c, u, r, chosen).rides[r].batch.value.drivers == chosen;
  }

  lemma CancelLeavesClosed(s: State, r: RideId, b: Batch)
    requires r in s.rides
    ensures var t := CancelExhausted(s, r);
            t.responses == s.responses && forall d :: d in t.reservations ==> d in s.reservations && t.reservations[d] == s.reservations[d]
  {
  }

  lemma ExpireCloses(s: State, r: RideId)
    requires Inv(s) && r in s.rides && s.rides[r].status == Dispatching && s.rides[r].batch.Some?
    ensures var u := ExpireBatch(s, r);
            IsClosed(s, u, r, s.rides[r].batch.value) && u.rides[r].batch.None? && u.nextBatch == s.nextBatch
  {
    var b := s.rides[r].batch.value;
    forall d | d in s.reservations && s.reservations[d] == Token(r, b.id) ensures d in b.drivers {
      assert Live(s.rides, s.responses, r, d, b.id) || r in s.inflight;
    }
  }

  /** A dispatch before the batch expires changes nothing; one from then on closes the batch. */
  lemma DispatchRespectsExpiry(c: Config, s: State, r: RideId, near: seq<DriverId>)
    requires Inv(s) && r in s.rides && s.rides[r].status == Dispatching && s.rides[r].batch.Some?
    ensures var b := s.rides[r].batch.value;
            if s.now < b.expiresAt then Dispatch(c, s, r, near) == s else IsClosed(s, Dispatch(c, s, r, near), r, b)
  {
    SearchingDispatch(c, s, r, near);
    if s.now >= s.rides[r].batch.value.expiresAt {
      ExpireCloses(s, r);
      assert ReadyToSearch(c, s, r) == ExpireBatch(s, r);
      SearchLeavesClosed(c, s, ExpireBatch(s, r), r, s.rides[r].round, EntryRadius(c, s.rides[r]), near, s.rides[r].batch.value);
    }
  }

  /**
   * In any run: a batch sent at step `i` is left alone by every dispatch of its ride before `responseTtl` has passed, and
   * closed by any from then on.
   */
  lemma BatchLivesForTtl(c: Config, ss: seq<State>, steps: seq<Step>, i: nat, j: nat, r: RideId, near: seq<DriverId>)
    requires IsRun(c, ss, steps) && c.batchSize > 0 && i < j < |steps| && IsNewBatch(ss[i], ss[i + 1], r)
    requires steps[j] == Dispatches(r, near) && r in ss[j].rides && ss[j].rides[r].status == Dispatching
    requires ss[j].rides[r].batch.Some? && ss[j].rides[r].batch.value.id == ss[i + 1].rides[r].batch.value.id
    ensures if ss[j].now < ss[i].now + c.responseTtl then ss[j + 1] == ss[j]
            else IsClosed(ss[j], ss[j + 1], r, ss[i + 1].rides[r].batch.value)
  {
    NewBatchIsGood(c, ss, steps, i, r);
    RunKeeps(c, ss, steps, i + 1);
    RunKeeps(c, ss, steps, j);
    RunIsHistory(c, ss, steps);
    BatchHistory(ss, i + 1, j, r);
    DispatchRespectsExpiry(c, ss[j], r, near);
    assert ss[j + 1] == Dispatch(c, ss[j], r, near);
  }

  /** A timeout job closes its batch if that is still the current one, whatever the time, and does nothing otherwise. */
  lemma TimeoutClosesItsBatch(c: Config, s: State, r: RideId, b: BatchId, near: seq<DriverId>)
    requires Inv(s)
    ensures var t := BatchTimeout(c, s, r, b, near);
            if r in s.rides && s.rides[r].status == Dispatching && s.rides[r].batch.Some? && s.rides[r].batch.value.id == b
            then IsClosed(s, t, r, s.rides[r].batch.value) else t == s
  {
    if r in s.rides && s.rides[r].status == Dispatching && s.rides[r].batch.Some? && s.rides[r].batch.value.id == b {
      var u := ExpireBatch(s, r);
      ExpireCloses(s, r);
      ClosedSameDrivers(s, r);
      SearchingDispatch(c, u, r, near);
      ReadyIsClosed(c, u, r);
      SearchLeavesClosed(c, s, u, r, u.rides[r].round, EntryRadius(c, u.rides[r]), near, s.rides[r].batch.value);
    }
  }

  lemma ReadyIsClosed(c: Config, s: State, r: RideId)
    requires r in s.rides && s.rides[r].status == Dispatching && s.rides[r].batch.None?
    ensures ReadyToSearch(c, s, r) == s && !BatchRunning(s, r)
  {
  }

  // ----- rejections -----

  /** The driver has been contacted about the ride, and has not accepted it. */
  predicate MayReject(s: State, r: RideId, d: DriverId) {
    && r in s.rides && s.rides[r].status == Dispatching
    && Offer(d, r) in s.responses && s.responses[Offer(d, r)] != Won && s.responses[Offer(d, r)] != Declined("")
  }

  /** Somebody else still has to answer the current batch. */
  predicate OthersPending(s: State, r: RideId, d: DriverId)
    requires r in s.rides
  {
    && s.rides[r].batch.Some?
    && exists e | e in s.rides[r].batch.value.drivers :: e != d && IsPending(s.responses, Offer(e, r), s.rides[r].batch.value.id)
  }

  /** The rejection is on record: the answer, unless the driver is asked again at once, and the cooldown where there is one. */
  ghost predicate IsRejected(c: Config, s: State, t: State, r: RideId, d: DriverId, reason: string) {
    && Offer(d, r) in t.responses
    && t.responses[Offer(d, r)] == (if IsNewBatch(s, t, r) && d in t.rides[r].batch.value.drivers
                                    then Pending(t.rides[r].batch.value.id) else Declined(reason))
    && t.cooldowns == (if c.cooldownEnabled then s.cooldowns + {d} else s.cooldowns)
  }

  lemma SearchLeavesRejected(c: Config, s: State, u: State, r: RideId, round: nat, radius: real, near: seq<DriverId>, d: DriverId, reason: string)
    requires IsRejected(c, s, u, r, d, reason) && r in u.rides && u.rides[r].batch.None? && u.nextBatch == s.nextBatch
    ensures IsRejected(c, s, Search(c, u, r, round, radius, near), r, d, reason)
  {
    var chosen := Pick(u, Eligible(u, r, round, near), c.batchSize);
    var v := RemoveGhosts(u, GhostsScanned(u, Eligible(u, r, round, near), c.batchSize));
    if chosen != [] {
      SendLeavesRejected(c, s, v, r, chosen, d, reason);
    } else {
      NoBatchWithoutChosen(c, u, r, round, radius, near);
      CancelLeavesCooldowns(v, r);
    }
  }

  lemma SendLeavesRejected(c: Config, s: State, u: State, r: RideId, chosen: seq<DriverId>, d: DriverId, reason: string)
    requires IsRejected(c, s, u, r, d, reason) && r in u.rides && u.rides[r].batch.None? && u.nextBatch == s.nextBatch
    ensures IsRejected(c, s, SendBatch(c, u, r, chosen), r, d, reason)
  {
    assert SendBatch(c, u, r, chosen).rides[r].batch.value.drivers == chosen;
  }

  lemma CancelLeavesCooldowns(s: State, r: RideId)
    requires r in s.rides
    ensures CancelExhausted(s, r).responses == s.responses && CancelExhausted(s, r).cooldowns == s.cooldowns
  {
  }

  /**
   * A rejection of a ride the driver may reject is put on record. While others still have to answer, the batch stays and
   * nobody else's answer or reservation changes; when nobody does, the batch is gone. Any other rejection does nothing.
   */
  lemma RejectionTakesEffect(c: Config, s: State, r: RideId, d: DriverId, reason: string, near: seq<DriverId>)
    requires Inv(s)
    ensures var t := Reject(c, s, r, d, reason, near);
            if !MayReject(s, r, d) then t == s
            else
              && IsRejected(c, s, t, r, d, reason) && r in t.rides
              && (if OthersPending(s, r, d)
                  then t.rides[r] == s.rides[r].(version := s.rides[r].version + 1)
                       && t.responses == s.responses[Offer(d, r) := Declined(reason)]
                       && t.pending == s.pending - {Offer(d, r)}
                       && (forall e :: e != d && e in s.reservations ==> e in t.reservations && t.reservations[e] == s.reservations[e])
                  else t.rides[r].batch.Some? ==> t.rides[r].batch.value.id >= s.nextBatch)
  {
    if MayReject(s, r, d) {
      var u := RecordRejection(c, s, r, d, reason);
      RecordIsRejected(c, s, r, d, reason);
      if !OthersPending(s, r, d) {
        ReadyIsClosed(c, u, r);
        SearchingDispatch(c, u, r, near);
        SearchLeavesRejected(c, s, u, r, u.rides[r].round, EntryRadius(c, u.rides[r]), near, d, reason);
        SearchRide(c, u, r, u.rides[r].round, EntryRadius(c, u.rides[r]), near);
      }
    }
  }

  lemma RecordIsRejected(c: Config, s: State, r: RideId, d: DriverId, reason: string)
    requires MayReject(s, r, d) && RideShape(s.rides[r], s.nextBatch)
    ensures var u := RecordRejection(c, s, r, d, reason);
            && CanReject(s, r, d) && (BatchExhausted(s, r, d) <==> !OthersPending(s, r, d))
            && IsRejected(c, s, u, r, d, reason) && r in u.rides && u.rides[r].status == Dispatching && RideShape(u.rides[r], u.nextBatch)
            && u.nextBatch == s.nextBatch
            && (OthersPending(s, r, d) ==>
                  && u.rides[r] == s.rides[r].(version := s.rides[r].version + 1)
                  && u.responses == s.responses[Offer(d, r) := Declined(reason)] && u.pending == s.pending - {Offer(d, r)}
                  && (forall e :: e != d && e in s.reservations ==> e in u.reservations && u.reservations[e] == s.reservations[e]))
            && (!OthersPending(s, r, d) ==> u.rides[r].batch.None?)
  {
  }

  /** Over any run: a driver on cooldown is in no new batch, and a rejection puts the driver on cooldown where that is enabled. */
  lemma CooldownKeepsAway(c: Config, ss: seq<State>, steps: seq<Step>, i: nat, r: RideId, d: DriverId)
    requires IsRun(c, ss, steps) && i < |steps| && c.batchSize > 0
    ensures d in ss[i].cooldowns && IsNewBatch(ss[i], ss[i + 1], r) ==> d !in ss[i + 1].rides[r].batch.value.drivers
    ensures steps[i].Rejects? && steps[i].ride == r && steps[i].driver == d && MayReject(ss[i], r, d) && c.cooldownEnabled ==>
              d in ss[i + 1].cooldowns
  {
    RunKeeps(c, ss, steps, i);
    if IsNewBatch(ss[i], ss[i + 1], r) {
      NewBatchIsGood(c, ss, steps, i, r);
    }
    if steps[i].Rejects? && steps[i].ride == r && steps[i].driver == d && MayReject(ss[i], r, d) {
      RejectionTakesEffect(c, ss[i], r, d, steps[i].reason, steps[i].near);
    }
  }
}
