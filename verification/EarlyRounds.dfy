/** In the first two rounds of a ride no driver is contacted twice. */
module EarlyRounds {
  import opened Types
  import opened Steps
  import opened Invariants
  import opened Runs
  import opened Evolution
  import opened Guarantees
  import opened Rounds

  /** The step from `s` to `t` sends ride `r` a fresh batch, and the round read at its entry is at most 1. */
  predicate SendsEarly(s: State, t: State, r: RideId) {
    && r in s.rides && s.rides[r].round <= 1
    && r in t.rides && t.rides[r].batch.Some? && t.rides[r].batch.value.id >= s.nextBatch
  }

  /** The batch is not empty, and none of its drivers had been notified about the ride. */
  ghost predicate NewcomersOnly(s: State, t: State, r: RideId) {
    && r in t.rides && t.rides[r].batch.Some?
    && var ds := t.rides[r].batch.value.drivers;
    && ds != []
    && forall d :: d in ds ==> Offer(d, r) !in s.notified && Offer(d, r) in t.notified
  }

  lemma SearchContacts(c: Config, s: State, r: RideId, round: nat, radius: real, near: seq<DriverId>)
    requires r in s.rides && Distinct(near) && round <= 1
    ensures var t := Search(c, s, r, round, radius, near);
            r in t.rides && (t.rides[r].batch.Some? ==> NewcomersOnly(s, t, r))
  {
    ChosenDrivers(s, r, round, near, c.batchSize);
    if Pick(s, Eligible(s, r, round, near), c.batchSize) == [] {
      FruitlessSearch(c, s, r, round, radius, near);
    }
  }

  lemma DispatchContacts(c: Config, s: State, r: RideId, near: seq<DriverId>)
    requires r in s.rides && Distinct(near) && RideShape(s.rides[r], s.nextBatch)
    ensures var t := Dispatch(c, s, r, near);
            SendsEarly(s, t, r) ==> NewcomersOnly(s, t, r)
  {
    if Dispatchable(s, r) && s.rides[r].round <= 1 && !BatchRunning(s, r) {
      ReadyShape(c, s, r);
      SearchingDispatch(c, s, r, near);
      SearchContacts(c, ReadyToSearch(c, s, r), r, s.rides[r].round, EntryRadius(c, s.rides[r]), near);
    }
  }

  /** A write on ride `r` that leaves its round, the notified drivers and the batch counter alone, then a dispatch. */
  lemma ThenDispatchContacts(c: Config, s: State, u: State, r: RideId, near: seq<DriverId>, q: RideId)
    requires OnlyRide(s, u, r) && Distinct(near) && RideShape(u.rides[r], u.nextBatch)
    requires u.rides[r].round == s.rides[r].round && u.notified == s.notified && u.nextBatch == s.nextBatch
    requires q in s.rides ==> RideShape(s.rides[q], s.nextBatch)
    ensures var t := Dispatch(c, u, r, near);
            SendsEarly(s, t, q) ==> NewcomersOnly(s, t, q)
  {
    DispatchContacts(c, u, r, near);
    DispatchRide(c, u, r, near);
  }

  lemma TimeoutContacts(c: Config, s: State, r: RideId, b: BatchId, near: seq<DriverId>, q: RideId)
    requires (r in s.rides ==> RideShape(s.rides[r], s.nextBatch)) && (q in s.rides ==> RideShape(s.rides[q], s.nextBatch))
    requires Distinct(near)
    ensures SendsEarly(s, BatchTimeout(c, s, r, b, near), q) ==> NewcomersOnly(s, BatchTimeout(c, s, r, b, near), q)
  {
    if r in s.rides && s.rides[r].status == Dispatching {
      ExpireRide(s, r);
      ThenDispatchContacts(c, s, ExpireBatch(s, r), r, near, q);
    }
  }

  lemma RejectContacts(c: Config, s: State, r: RideId, d: DriverId, reason: string, near: seq<DriverId>, q: RideId)
    requires (r in s.rides ==> RideShape(s.rides[r], s.nextBatch)) && (q in s.rides ==> RideShape(s.rides[q], s.nextBatch))
    requires Distinct(near)
    ensures SendsEarly(s, Reject(c, s, r, d, reason, near), q) ==> NewcomersOnly(s, Reject(c, s, r, d, reason, near), q)
  {
    if CanReject(s, r, d) {
      RejectionRide(c, s, r, d, reason);
      ThenDispatchContacts(c, s, RecordRejection(c, s, r, d, reason), r, near, q);
    }
  }

  lemma DispatchStepContacts(c: Config, s: State, step: Step, q: RideId)
    requires step.Dispatches? || step.BatchTimesOut? || step.Rejects?
    requires step.ride in s.rides ==> RideShape(s.rides[step.ride], s.nextBatch)
    requires q in s.rides ==> RideShape(s.rides[q], s.nextBatch)
    requires Distinct(step.near)
    ensures SendsEarly(s, Apply(c, s, step), q) ==> NewcomersOnly(s, Apply(c, s, step), q)
  {
    match step
    case Dispatches(r, near) => if r in s.rides { ThenDispatchContacts(c, s, s, r, near, q); }
    case BatchTimesOut(r, b, near) => TimeoutContacts(c, s, r, b, near, q);
    case Rejects(r, d, reason, near) => RejectContacts(c, s, r, d, reason, near, q);
  }

  lemma OtherStepContacts(c: Config, s: State, step: Step, q: RideId)
    requires !(step.Dispatches? || step.BatchTimesOut? || step.Rejects?)
    requires q in s.rides ==> RideShape(s.rides[q], s.nextBatch)
    requires s.nextRide !in s.rides
    ensures !SendsEarly(s, Apply(c, s, step), q)
  {
    if Transitions(step) && step.ride in s.rides && q in s.rides {
      var next := if step.Arrives? then Arriving else if step.Starts? then Ongoing else if step.Completes? then Completed else Cancelled;
      TransitionBatch(s, step.ride, next, q);
    } else if step.Accepts? || step.ScriptRuns? {
      AcceptContacts(c, s, step, q);
    }
  }

  lemma AcceptContacts(c: Config, s: State, step: Step, q: RideId)
    requires step.Accepts? || step.ScriptRuns?
    requires q in s.rides ==> RideShape(s.rides[q], s.nextBatch)
    ensures !SendsEarly(s, Apply(c, s, step), q)
  {
  }

  lemma TransitionBatch(s: State, r: RideId, next: RideStatus, q: RideId)
    requires r in s.rides && q in s.rides
    ensures q in Transition(s, r, next).rides && Transition(s, r, next).rides[q].batch == s.rides[q].batch
  {
  }

  /** In a run: a batch sent in the first two rounds holds newcomers only. */
  lemma EarlyBatchIsNew(c: Config, ss: seq<State>, steps: seq<Step>, i: nat, r: RideId)
    requires IsRun(c, ss, steps) && i < |steps| && SendsEarly(ss[i], ss[i + 1], r)
    ensures NewcomersOnly(ss[i], ss[i + 1], r)
  {
    RunKeeps(c, ss, steps, i);
    StepContacts(c, ss[i], steps[i], r);
    assert ss[i + 1] == Apply(c, ss[i], steps[i]);
  }

  lemma StepContacts(c: Config, s: State, step: Step, r: RideId)
    requires Inv(s) && Enabled(s, step)
    ensures SendsEarly(s, Apply(c, s, step), r) ==> NewcomersOnly(s, Apply(c, s, step), r)
  {
    if step.Dispatches? || step.BatchTimesOut? || step.Rejects? {
      DispatchStepContacts(c, s, step, r);
    } else {
      OtherStepContacts(c, s, step, r);
    }
  }

  lemma {:induction false} NotifiedGrows(ss: seq<State>, i: nat, j: nat)
    requires History(ss) && i <= j < |ss|
    ensures ss[i].notified <= ss[j].notified
    decreases j
  {
    if i < j {
      NotifiedGrows(ss, i, j - 1);
      assert AllEvolve(ss[j - 1], ss[j]);
    }
  }

  function CurrentBatch(s: State, r: RideId): seq<DriverId> {
    if r in s.rides && s.rides[r].batch.Some? then s.rides[r].batch.value.drivers else []
  }

  predicate NoDriverIn(xs: seq<DriverId>, ys: seq<DriverId>) {
    forall d :: d in xs ==> d !in ys
  }

  /** No repeat offers: two batches of one ride sent in its first two rounds have no driver in common. */
  lemma EarlyBatchesDisjoint(c: Config, ss: seq<State>, steps: seq<Step>, i: nat, j: nat, r: RideId)
    requires IsRun(c, ss, steps) && i < j < |steps|
    requires SendsEarly(ss[i], ss[i + 1], r) && SendsEarly(ss[j], ss[j + 1], r)
    ensures NoDriverIn(CurrentBatch(ss[i + 1], r), CurrentBatch(ss[j + 1], r))
  {
    EarlyBatchIsNew(c, ss, steps, i, r);
    EarlyBatchIsNew(c, ss, steps, j, r);
    RunIsHistory(c, ss, steps);
    NotifiedGrows(ss, i + 1, j);
  }

  /** The drivers who have been notified about a ride. */
  function Notified(s: State, r: RideId): set<DriverId> {
    set o | o in s.notified && o.ride == r :: o.driver
  }

  ghost function EarlyBatches(ss: seq<State>, r: RideId, n: nat): nat
    requires n < |ss|
  {
    if n == 0 then 0 else EarlyBatches(ss, r, n - 1) + if SendsEarly(ss[n - 1], ss[n], r) then 1 else 0
  }

  lemma StrictlyMore<T>(a: set<T>, b: set<T>, x: T)
    requires a <= b && x in b && x !in a
    ensures |a| < |b|
  {
    assert a < b;
    SubsetSize(a + {x}, b);
  }

  lemma {:induction false} SubsetSize<T>(a: set<T>, b: set<T>)
    requires a <= b
    ensures |a| <= |b|
  {
    if a != {} {
      var x :| x in a;
      SubsetSize(a - {x}, b - {x});
    }
  }

  lemma {:induction false} EarlyBatchesCount(c: Config, ss: seq<State>, steps: seq<Step>, r: RideId, n: nat)
    requires IsRun(c, ss, steps) && n < |ss|
    ensures EarlyBatches(ss, r, n) <= |Notified(ss[n], r)|
  {
    if n > 0 {
      EarlyBatchesCount(c, ss, steps, r, n - 1);
      NotifiedStep(c, ss, steps, r, n - 1);
    }
  }

  lemma NotifiedStep(c: Config, ss: seq<State>, steps: seq<Step>, r: RideId, i: nat)
    requires IsRun(c, ss, steps) && i < |steps|
    ensures |Notified(ss[i], r)| <= |Notified(ss[i + 1], r)|
    ensures SendsEarly(ss[i], ss[i + 1], r) ==> |Notified(ss[i], r)| < |Notified(ss[i + 1], r)|
  {
    RunIsHistory(c, ss, steps);
    NotifiedGrows(ss, i, i + 1);
    SubsetSize(Notified(ss[i], r), Notified(ss[i + 1], r));
    if SendsEarly(ss[i], ss[i + 1], r) {
      EarlyBatchIsNew(c, ss, steps, i, r);
      var d := ss[i + 1].rides[r].batch.value.drivers[0];
      assert Offer(d, r) in ss[i + 1].notified;
      StrictlyMore(Notified(ss[i], r), Notified(ss[i + 1], r), d);
    }
  }

  /** So a ride sends at most as many batches in its first two rounds as there are drivers. */
  lemma EarlyBatchesBounded(c: Config, ss: seq<State>, steps: seq<Step>, r: RideId, n: nat)
    requires IsRun(c, ss, steps) && n < |ss|
    ensures EarlyBatches(ss, r, n) <= |ss[n].drivers|
  {
    EarlyBatchesCount(c, ss, steps, r, n);
    RunKeeps(c, ss, steps, n);
    SubsetSize(Notified(ss[n], r), ss[n].drivers.Keys);
  }

  /**
   * Progress: a dispatch that reads round 0 or 1 and finds no running batch cancels the ride, moves it to a later round,
   * or stays in the round and notifies somebody new.
   */
  lemma EarlyDispatchProgress(c: Config, s: State, r: RideId, near: seq<DriverId>)
    requires Reachable(c, s) && Candidates(s, near) && ValidConfig(c)
    requires Dispatchable(s, r) && s.rides[r].round <= 1 && !BatchRunning(s, r)
    ensures var t := Dispatch(c, s, r, near);
            && r in t.rides
            && (|| t.rides[r].status == Cancelled
                || t.rides[r].round > s.rides[r].round
                || (t.rides[r].round == s.rides[r].round && Notified(s, r) < Notified(t, r)))
  {
    ReachableKeeps(c, s);
    var t := Dispatch(c, s, r, near);
    SearchingOutcome(c, s, r, near);
    DispatchRide(c, s, r, near);
    DispatchContacts(c, s, r, near);
    if BatchSent(s, t, r) {
      var d := t.rides[r].batch.value.drivers[0];
      assert d in t.rides[r].batch.value.drivers && Offer(d, r) in t.notified && Offer(d, r) !in s.notified;
      assert d in Notified(t, r) && d !in Notified(s, r);
    }
  }
}
