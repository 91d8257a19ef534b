/** The writes inside one step: each changes one ride hash at most, and tells of it before the next. */
module Writes {
  import opened Wrappers
  import opened Types
  import opened Lifecycle
  import opened Steps
  import opened Invariants
  import opened Runs
  import opened Evolution

  /** The states a dispatch passes through, one after each write of the ride hash with its messages. */
  function DispatchWrites(c: Config, s: State, r: RideId, near: seq<DriverId>): (ws: seq<State>)
    ensures |ws| > 0 && ws[|ws| - 1] == Dispatch(c, s, r, near)
  {
    if r !in s.rides || (s.rides[r].status != Requested && s.rides[r].status != Dispatching) then [s] else
      var started := StartIfRequested(c, s, r);
      if BatchRunning(started, r) then [started]
      else [started, ExpireBatch(started, r), Dispatch(c, s, r, near)]
  }

  /** The states a step passes through, from the one it starts in. */
  function StatesOf(c: Config, s: State, step: Step): (ws: seq<State>)
    ensures |ws| > 1 && ws[0] == s && ws[|ws| - 1] == Apply(c, s, step)
  {
    match step
    case Dispatches(r, near) => [s] + DispatchWrites(c, s, r, near)
    case BatchTimesOut(r, b, near) =>
      if r !in s.rides || s.rides[r].status != Dispatching || s.rides[r].batch.None? || s.rides[r].batch.value.id != b then [s, s]
      else [s, ExpireBatch(s, r)] + DispatchWrites(c, ExpireBatch(s, r), r, near)
    case Rejects(r, d, reason, near) =>
      if !CanReject(s, r, d) then [s, s]
      else if BatchExhausted(s, r, d) then [s, RecordRejection(c, s, r, d, reason)] + DispatchWrites(c, RecordRejection(c, s, r, d, reason), r, near)
      else [s, RecordRejection(c, s, r, d, reason)]
    case _ => [s, Apply(c, s, step)]
  }

  predicate Follows(a: RideStatus, b: RideStatus) {
    b in RideTransitions(a) && Rank(a) < Rank(b)
  }

  /** The ride hash is as it was, or has been written once. */
  predicate HashWrite(a: Ride, b: Ride) {
    a == b || (b.version == a.version + 1 && (b.status == a.status || Follows(a.status, b.status)))
  }

  predicate Differs(s: State, t: State, r: RideId) {
    r in s.rides && r in t.rides && t.rides[r] != s.rides[r]
  }

  ghost predicate OneWrite(s: State, t: State) {
    && (forall r :: r in s.rides ==> r in t.rides && HashWrite(s.rides[r], t.rides[r]))
    && (forall r :: r in t.rides && r !in s.rides ==> t.rides[r].status == Requested && t.rides[r].version == 1)
    && (forall q, r :: Differs(s, t, q) && Differs(s, t, r) ==> q == r)
  }

  function UpdateOf(rides: map<RideId, Ride>, r: RideId): Event
    requires r in rides
  {
    StatusUpdate(r, rides[r].version, rides[r].status)
  }

  /** Every new status message tells of a status that has just been written. */
  ghost predicate TellsOfWrites(s: State, t: State) {
    && s.log <= t.log
    && forall e :: e in t.log[|s.log|..] && e.StatusUpdate? ==>
         && e.ride in s.rides && e.ride in t.rides && s.rides[e.ride].status != t.rides[e.ride].status
         && e == UpdateOf(t.rides, e.ride)
  }

  /** Every changed status has been told. */
  ghost predicate ChangesTold(s: State, t: State) {
    forall r :: r in s.rides && r in t.rides && t.rides[r].status != s.rides[r].status ==> UpdateOf(t.rides, r) in t.log
  }

  /** A write of ride `r` that emits `messages`, told if it changes the status. */
  ghost predicate Written(s: State, t: State, r: RideId, messages: seq<Event>) {
    && r in s.rides && r in t.rides && t.rides == s.rides[r := t.rides[r]] && HashWrite(s.rides[r], t.rides[r])
    && t.log == s.log + messages
    && (forall e :: e in messages && e.StatusUpdate? ==> s.rides[r].status != t.rides[r].status && e == UpdateOf(t.rides, r))
    && (t.rides[r].status != s.rides[r].status ==> UpdateOf(t.rides, r) in messages)
  }

  ghost predicate ToldWrite(s: State, t: State) {
    OneWrite(s, t) && TellsOfWrites(s, t) && ChangesTold(s, t)
  }

  lemma WrittenIsTold(s: State, t: State, r: RideId, messages: seq<Event>)
    requires Written(s, t, r, messages)
    ensures ToldWrite(s, t)
  {
    assert t.log[|s.log|..] == messages;
    assert UpdateOf(t.rides, r) in messages ==> UpdateOf(t.rides, r) in t.log;
  }

  lemma StartWrite(c: Config, s: State, r: RideId)
    requires r in s.rides
    ensures ToldWrite(s, StartIfRequested(c, s, r))
  {
    if s.rides[r].status == Requested {
      var t := StartIfRequested(c, s, r);
      WrittenIsTold(s, t, r, [UpdateOf(t.rides, r)]);
    }
  }

  lemma ExpireWrite(s: State, r: RideId)
    requires r in s.rides
    ensures ToldWrite(s, ExpireBatch(s, r))
  {
    if s.rides[r].batch.Some? {
      WrittenIsTold(s, ExpireBatch(s, r), r, []);
    }
  }

  lemma SearchWrite(c: Config, s: State, r: RideId, round: nat, radius: real, near: seq<DriverId>)
    requires r in s.rides && s.rides[r].status == Dispatching
    ensures ToldWrite(s, Search(c, s, r, round, radius, near))
  {
    var candidates := Eligible(s, r, round, near);
    var chosen := Pick(s, candidates, c.batchSize);
    var u := RemoveGhosts(s, GhostsScanned(s, candidates, c.batchSize));
    if chosen != [] {
      SendWrite(c, u, r, chosen);
    } else if round >= c.maxRounds || radius >= c.maxRadius {
      CancelWrite(u, r);
    } else {
      WrittenIsTold(u, ExpandSearch(c, u, r, round, radius), r, []);
    }
    SameStart(s, u, Search(c, s, r, round, radius, near));
  }

  lemma SameStart(s: State, u: State, t: State)
    requires u.rides == s.rides && u.log == s.log && ToldWrite(u, t)
    ensures ToldWrite(s, t)
  {
    assert forall r :: Differs(s, t, r) ==> Differs(u, t, r);
  }

  lemma SendWrite(c: Config, s: State, r: RideId, chosen: seq<DriverId>)
    requires r in s.rides
    ensures ToldWrite(s, SendBatch(c, s, r, chosen))
  {
    WrittenIsTold(s, SendBatch(c, s, r, chosen), r, RequestsTo(chosen, r, s.nextBatch));
  }

  lemma CancelWrite(s: State, r: RideId)
    requires r in s.rides && s.rides[r].status == Dispatching
    ensures ToldWrite(s, CancelExhausted(s, r))
  {
    var t := CancelExhausted(s, r);
    ExhaustedRide(s, r);
    assert t.log == s.log + [UpdateOf(t.rides, r)];
    WrittenIsTold(s, t, r, [UpdateOf(t.rides, r)]);
  }

  lemma TransitionWrite(s: State, r: RideId, next: RideStatus)
    requires next == Arriving || next == Ongoing || Terminal(next)
    ensures ToldWrite(s, Transition(s, r, next))
  {
    if CanTransition(s, r, next) {
      var t := Transition(s, r, next);
      TransitionHash(s, r, next);
      if Terminal(next) {
        CleanupLeaves(Moved(s, r, next), r);
      }
      WrittenIsTold(s, t, r, [UpdateOf(t.rides, r), UpdateOf(t.rides, r)]);
    }
  }

  lemma AcceptWrite(s: State, r: RideId, d: DriverId)
    ensures ToldWrite(s, Accept(s, r, d))
  {
    var t := Accept(s, r, d);
    if r in s.rides && AcceptCode(s, r, d, s.now, TokenOf(r, s.rides[r].batch)) == 0 {
      WrittenIsTold(s, t, r, [UpdateOf(t.rides, r), UpdateOf(t.rides, r)]);
    }
  }

  /** Consecutive states of a step differ by one write. */
  ghost predicate WriteByWrite(ws: seq<State>) {
    forall k :: 0 < k < |ws| ==> ToldWrite(ws[k - 1], ws[k])
  }

  lemma DispatchWriteByWrite(c: Config, s: State, r: RideId, near: seq<DriverId>)
    requires r in s.rides ==> RideShape(s.rides[r], s.nextBatch)
    ensures WriteByWrite([s] + DispatchWrites(c, s, r, near))
  {
    if r in s.rides && (s.rides[r].status == Requested || s.rides[r].status == Dispatching) {
      var started := StartIfRequested(c, s, r);
      StartWrite(c, s, r);
      ExpireWrite(started, r);
      if !BatchRunning(started, r) {
        LastWrite(c, s, r, near);
      }
    }
  }

  lemma LastWrite(c: Config, s: State, r: RideId, near: seq<DriverId>)
    requires r in s.rides && RideShape(s.rides[r], s.nextBatch) && (s.rides[r].status == Requested || s.rides[r].status == Dispatching)
    requires !BatchRunning(StartIfRequested(c, s, r), r)
    ensures ToldWrite(ExpireBatch(StartIfRequested(c, s, r), r), Dispatch(c, s, r, near))
  {
    var started := StartIfRequested(c, s, r);
    StartRide(c, s, r);
    ExpireRide(started, r);
    SearchWrite(c, ExpireBatch(started, r), r, s.rides[r].round, EntryRadius(c, s.rides[r]), near);
  }

  /** A write, and then a dispatch. */
  lemma ThenDispatchWriteByWrite(c: Config, s: State, u: State, r: RideId, near: seq<DriverId>)
    requires ToldWrite(s, u) && (r in u.rides ==> RideShape(u.rides[r], u.nextBatch))
    ensures WriteByWrite([s, u] + DispatchWrites(c, u, r, near))
  {
    DispatchWriteByWrite(c, u, r, near);
    var ws, rest := [s, u] + DispatchWrites(c, u, r, near), [u] + DispatchWrites(c, u, r, near);
    forall k | 0 < k < |ws| ensures ToldWrite(ws[k - 1], ws[k]) {
      if k > 1 {
        assert ws[k] == rest[k - 1] && ws[k - 1] == rest[k - 2];
      }
    }
  }

  lemma RejectWriteByWrite(c: Config, s: State, r: RideId, d: DriverId, reason: string, near: seq<DriverId>)
    requires r in s.rides ==> RideShape(s.rides[r], s.nextBatch)
    ensures WriteByWrite(StatesOf(c, s, Rejects(r, d, reason, near)))
  {
    if CanReject(s, r, d) {
      var u := RecordRejection(c, s, r, d, reason);
      RejectionRide(c, s, r, d, reason);
      WrittenIsTold(s, u, r, []);
      ThenDispatchWriteByWrite(c, s, u, r, near);
    }
  }

  lemma TimeoutWriteByWrite(c: Config, s: State, r: RideId, b: BatchId, near: seq<DriverId>)
    requires r in s.rides ==> RideShape(s.rides[r], s.nextBatch)
    ensures WriteByWrite(StatesOf(c, s, BatchTimesOut(r, b, near)))
  {
    if r in s.rides && s.rides[r].status == Dispatching {
      ExpireWrite(s, r);
      ExpireRide(s, r);
      ThenDispatchWriteByWrite(c, s, ExpireBatch(s, r), r, near);
    }
  }

  lemma RequestWrite(c: Config, s: State, customer: CustomerId)
    requires s.nextRide !in s.rides
    ensures ToldWrite(s, RequestRide(c, s, customer))
  {
    assert RequestRide(c, s, customer).log == s.log;
  }

  lemma TransitionStepWrite(c: Config, s: State, step: Step)
    requires Transitions(step)
    ensures ToldWrite(s, Apply(c, s, step))
  {
    match step
    case Arrives(r, d) => DriverTransitionWrite(s, r, d, Arriving);
    case Starts(r, d) => DriverTransitionWrite(s, r, d, Ongoing);
    case Completes(r, d) => DriverTransitionWrite(s, r, d, Completed);
    case Cancels(r) => CancelRideWrite(s, r);
  }

  lemma CancelRideWrite(s: State, r: RideId)
    ensures ToldWrite(s, CancelRide(s, r))
  {
    NothingWritten(s);
    TransitionWrite(s, r, Cancelled);
  }

  lemma DriverTransitionWrite(s: State, r: RideId, d: DriverId, next: RideStatus)
    requires next == Arriving || next == Ongoing || Terminal(next)
    ensures ToldWrite(s, DriverTransition(s, r, d, next))
  {
    NothingWritten(s);
    TransitionWrite(s, r, next);
  }

  lemma NothingWritten(s: State)
    ensures ToldWrite(s, s)
  {
  }

  lemma NoRideWrite(c: Config, s: State, step: Step)
    requires !ConcernsRide(step) && !Transitions(step)
    ensures ToldWrite(s, Apply(c, s, step))
  {
    var t := Apply(c, s, step);
    assert t.rides == s.rides && t.log == s.log;
  }

  /** Every step but the two halves of a split accept call goes write by write. */
  lemma StepWriteByWrite(c: Config, s: State, step: Step)
    requires Inv(s) && !step.ScriptRuns? && !step.AcceptFinishes?
    ensures WriteByWrite(StatesOf(c, s, step))
  {
    if step.Dispatches? {
      DispatchWriteByWrite(c, s, step.ride, step.near);
    } else if step.BatchTimesOut? {
      TimeoutWriteByWrite(c, s, step.ride, step.batch, step.near);
    } else if step.Rejects? {
      RejectWriteByWrite(c, s, step.ride, step.driver, step.reason, step.near);
    } else {
      PlainStepWrite(c, s, step);
    }
  }

  lemma PlainStepWrite(c: Config, s: State, step: Step)
    requires s.nextRide !in s.rides && !step.ScriptRuns? && !step.AcceptFinishes?
    requires !step.Dispatches? && !step.BatchTimesOut? && !step.Rejects?
    ensures ToldWrite(s, Apply(c, s, step))
  {
    if step.Requests? {
      RequestWrite(c, s, step.customer);
    } else if step.Accepts? {
      AcceptWrite(s, step.ride, step.driver);
    } else if Transitions(step) {
      TransitionStepWrite(c, s, step);
    } else {
      NoRideWrite(c, s, step);
    }
  }

  /** The script is one write that is not told; the messages of its clean-up are about what is written then. */
  lemma SplitAcceptWrites(c: Config, s: State, step: Step)
    requires step.ScriptRuns? || step.AcceptFinishes?
    ensures OneWrite(s, Apply(c, s, step))
    ensures step.ScriptRuns? ==> Apply(c, s, step).log == s.log
    ensures step.AcceptFinishes? ==> Apply(c, s, step).rides == s.rides
  {
    if step.ScriptRuns? {
      ScriptWrite(s, step.ride, step.driver, step.seen, step.at);
    }
  }

  lemma ScriptWrite(s: State, r: RideId, d: DriverId, seen: Option<Batch>, at: int)
    ensures OneWrite(s, AcceptScript(s, r, d, seen, at))
  {
  }

  /** Every step of every run goes write by write, as far as ride hashes are concerned. */
  lemma EveryWriteFollowsTable(c: Config, s: State, step: Step, k: nat)
    requires Inv(s) && 0 < k < |StatesOf(c, s, step)|
    ensures OneWrite(StatesOf(c, s, step)[k - 1], StatesOf(c, s, step)[k])
  {
    if step.ScriptRuns? || step.AcceptFinishes? {
      SplitAcceptWrites(c, s, step);
    } else {
      StepWriteByWrite(c, s, step);
      assert ToldWrite(StatesOf(c, s, step)[k - 1], StatesOf(c, s, step)[k]);
    }
  }
}
