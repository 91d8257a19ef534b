/** Deduplicated socket messages: every status change of a ride reaches its customer exactly once. */
module Publishing {
  import opened Wrappers
  import opened Types
  import opened Lifecycle
  import opened Steps
  import opened Invariants
  import opened Runs
  import opened Evolution
  import opened Writes
  import opened Guarantees

  // ----- deduplication -----

  /** The idempotency key of a message: `ride-status:ride:version` or `new-ride-request:ride:batch:driver`. */
  datatype Key = StatusKey(ride: RideId, version: nat) | RequestKey(ride: RideId, batch: BatchId, driver: DriverId)

  function KeyOf(event: Event): Key {
    match event
    case StatusUpdate(r, version, _) => StatusKey(r, version)
    case RideRequest(d, r, b) => RequestKey(r, b, d)
  }

  function KeysOf(log: seq<Event>): set<Key> {
    set e | e in log :: KeyOf(e)
  }

  /** What is left of a list of emitted messages when every key is let through once. */
  function Published(log: seq<Event>): seq<Event> {
    if log == [] then []
    else
      var front, last := log[..|log| - 1], log[|log| - 1];
      if KeyOf(last) in KeysOf(front) then Published(front) else Published(front) + [last]
  }

  /** Nothing is invented. */
  lemma {:induction false} PublishedWasEmitted(log: seq<Event>)
    ensures forall e :: e in Published(log) ==> e in log
  {
    if log != [] {
      PublishedWasEmitted(log[..|log| - 1]);
    }
  }

  /** `p` is the `i`-th emitted message, and none before it has its key. */
  predicate FirstOfKey(log: seq<Event>, i: nat, p: Event) {
    i < |log| && log[i] == p && forall j | 0 <= j < i :: KeyOf(log[j]) != KeyOf(p)
  }

  /** No key is lost: of each, the first message emitted is published. */
  lemma {:induction false} EveryKeyPublished(log: seq<Event>, e: Event)
    requires e in log
    ensures exists p, i :: p in Published(log) && KeyOf(p) == KeyOf(e) && FirstOfKey(log, i, p)
  {
    var front, last := log[..|log| - 1], log[|log| - 1];
    if KeyOf(e) in KeysOf(front) {
      var f :| f in front && KeyOf(f) == KeyOf(e);
      EveryKeyPublished(front, f);
      var p, i :| p in Published(front) && KeyOf(p) == KeyOf(f) && FirstOfKey(front, i, p);
      assert p in Published(log) && FirstOfKey(log, i, p);
    } else {
      assert last == e && e in Published(log);
      assert forall j :: 0 <= j < |front| ==> log[j] == front[j] && front[j] in front;
      assert FirstOfKey(log, |front|, e);
    }
  }

  /** No key gets through twice. */
  lemma {:induction false} PublishedKeysDistinct(log: seq<Event>, i: nat, j: nat)
    requires i < j < |Published(log)|
    ensures KeyOf(Published(log)[i]) != KeyOf(Published(log)[j])
  {
    var front, last := log[..|log| - 1], log[|log| - 1];
    if j < |Published(front)| {
      PublishedKeysDistinct(front, i, j);
    } else {
      PublishedWasEmitted(front);
      assert Published(front)[i] in front;
    }
  }

  /** A ride request has a key of its own for every driver, ride and batch: each one emitted is published. */
  lemma EveryRequestPublished(log: seq<Event>, e: Event)
    requires e in log && e.RideRequest?
    ensures e in Published(log)
  {
    EveryKeyPublished(log, e);
    PublishedWasEmitted(log);
  }

  /** `publish` with `markIdempotent`: a key is recorded if absent, and only then is the message sent. */
  class Publisher {
    var marked: set<Key>
    var sent: seq<Event>
    ghost var emitted: seq<Event>

    ghost predicate Valid()
      reads this
    {
      marked == KeysOf(emitted) && sent == Published(emitted)
    }

    constructor ()
      ensures Valid() && emitted == []
    {
      marked, sent, emitted := {}, [], [];
    }

    method MarkIdempotent(key: Key) returns (allowed: bool)
      modifies this`marked
      ensures allowed <==> key !in old(marked)
      ensures marked == old(marked) + {key}
    {
      allowed := key !in marked;
      marked := marked + {key};
    }

    method Publish(message: Event) returns (published: bool)
      requires Valid()
      modifies this
      ensures Valid() && emitted == old(emitted) + [message]
      ensures published <==> KeyOf(message) !in KeysOf(old(emitted))
    {
      ghost var before := emitted;
      emitted := emitted + [message];
      published := MarkIdempotent(KeyOf(message));
      assert emitted[..|emitted| - 1] == before;
      assert forall e :: e in emitted <==> e in before || e == message;
      if !published {
        return;
      }
      sent := sent + [message];
    }
  }

  // ----- what the service calls emit -----

  predicate IsUpdate(e: Event, r: RideId) {
    e.StatusUpdate? && e.ride == r
  }

  /** The status messages of one ride, in order. */
  function Updates(log: seq<Event>, r: RideId): seq<Event> {
    if log == [] then []
    else Updates(log[..|log| - 1], r) + if IsUpdate(log[|log| - 1], r) then [log[|log| - 1]] else []
  }

  lemma {:induction false} UpdatesMembers(log: seq<Event>, r: RideId)
    ensures forall e :: e in Updates(log, r) ==> e in log && IsUpdate(e, r)
  {
    if log != [] {
      UpdatesMembers(log[..|log| - 1], r);
    }
  }

  /** The k-th message goes on from the status of the one before, the first from REQUESTED. */
  predicate FollowsUp(us: seq<Event>, k: nat)
    requires k < |us| && forall i :: 0 <= i < |us| ==> us[i].StatusUpdate?
  {
    Follows(if k == 0 then Requested else us[k - 1].status, us[k].status)
  }

  /** The messages lead from REQUESTED to `status` along edges of the table, rank and version growing. */
  ghost predicate IsPath(us: seq<Event>, r: RideId, status: RideStatus) {
    && (forall k :: 0 <= k < |us| ==> IsUpdate(us[k], r))
    && (forall k :: 0 <= k < |us| ==> FollowsUp(us, k))
    && (forall k :: 0 < k < |us| ==> us[k - 1].version < us[k].version)
    && status == if us == [] then Requested else us[|us| - 1].status
  }

  /** Every status message names a status its ride has had; per ride, versions and statuses of messages correspond one to one. */
  ghost predicate UpdatesSound(rides: map<RideId, Ride>, log: seq<Event>) {
    && (forall e :: e in log && e.StatusUpdate? ==>
          && e.ride in rides && e.version <= rides[e.ride].version
          && e.status != Requested && Rank(e.status) <= Rank(rides[e.ride].status))
    && (forall e, f :: e in log && f in log && e.StatusUpdate? && f.StatusUpdate? && e.ride == f.ride ==>
          (e.version == f.version <==> e.status == f.status))
  }

  ghost predicate UpdatesFormPaths(rides: map<RideId, Ride>, log: seq<Event>) {
    forall r :: r in rides ==> IsPath(Updates(Published(log), r), r, rides[r].status)
  }

  ghost predicate Emits(s: State) {
    UpdatesSound(s.rides, s.log) && UpdatesFormPaths(s.rides, s.log)
  }

  /** Of a message that is emitted over and over, one copy is published, unless its key was taken. */
  lemma {:induction false} SuffixUpdates(log: seq<Event>, suffix: seq<Event>, r: RideId, m: Event)
    requires IsUpdate(m, r) && KeyOf(m) !in KeysOf(log)
    requires forall e :: e in suffix && IsUpdate(e, r) ==> e == m
    ensures Updates(Published(log + suffix), r) == Updates(Published(log), r) + if m in suffix then [m] else []
    decreases |suffix|
  {
    if suffix == [] {
      assert log + suffix == log;
    } else {
      var front, last := suffix[..|suffix| - 1], suffix[|suffix| - 1];
      assert suffix == front + [last] && log + suffix == log + front + [last];
      SuffixUpdates(log, front, r, m);
      PublishedStep(log + front, last, r);
      KeyTaken(log, front, m, r);
      assert m in suffix <==> m in front || m == last;
    }
  }

  lemma KeyTaken(log: seq<Event>, front: seq<Event>, m: Event, r: RideId)
    requires IsUpdate(m, r) && KeyOf(m) !in KeysOf(log)
    requires forall e :: e in front && IsUpdate(e, r) ==> e == m
    ensures KeyOf(m) in KeysOf(log + front) <==> m in front
  {
    if KeyOf(m) in KeysOf(log + front) {
      var e :| e in log + front && KeyOf(e) == KeyOf(m);
      assert e in front;
    }
    if m in front {
      assert m in log + front;
    }
  }

  lemma PublishedStep(log: seq<Event>, m: Event, r: RideId)
    ensures Updates(Published(log + [m]), r)
         == Updates(Published(log), r) + if IsUpdate(m, r) && KeyOf(m) !in KeysOf(log) then [m] else []
  {
    var more := log + [m];
    assert more[..|more| - 1] == log && more[|more| - 1] == m;
    var published := Published(log) + [m];
    assert published[..|published| - 1] == Published(log);
  }

  lemma PathGrows(us: seq<Event>, r: RideId, a: RideStatus, m: Event)
    requires IsPath(us, r, a) && IsUpdate(m, r) && Follows(a, m.status) && forall e :: e in us ==> e.version < m.version
    ensures IsPath(us + [m], r, m.status)
  {
    var vs := us + [m];
    forall k | 0 <= k < |vs| ensures FollowsUp(vs, k) {
      assert k < |us| ==> FollowsUp(us, k);
    }
  }

  /** Along a path, later messages have higher ranks and versions. */
  lemma {:induction false} PathClimbs(us: seq<Event>, r: RideId, status: RideStatus, i: nat, j: nat)
    requires IsPath(us, r, status) && i < j < |us|
    ensures Rank(us[i].status) < Rank(us[j].status) && us[i].version < us[j].version
    decreases j
  {
    assert FollowsUp(us, j);
    if i < j - 1 {
      PathClimbs(us, r, status, i, j - 1);
    }
  }

  lemma ToldKeepsSound(s: State, t: State)
    requires UpdatesSound(s.rides, s.log) && ToldWrite(s, t)
    ensures UpdatesSound(t.rides, t.log)
  {
    assert t.log == s.log + t.log[|s.log|..];
    assert forall e :: e in t.log <==> e in s.log || e in t.log[|s.log|..];
  }

  lemma ToldKeepsPath(s: State, t: State, r: RideId)
    requires UpdatesSound(s.rides, s.log) && ToldWrite(s, t) && r in s.rides
    requires IsPath(Updates(Published(s.log), r), r, s.rides[r].status)
    ensures IsPath(Updates(Published(t.log), r), r, t.rides[r].status)
  {
    var us, m := Updates(Published(s.log), r), StatusUpdate(r, s.rides[r].version + 1, t.rides[r].status);
    UpdatesAfter(s, t, r, m);
    UpdatesBelow(s, r);
    PathAfter(us, r, s.rides[r], t.rides[r], m);
  }

  lemma PathAfter(us: seq<Event>, r: RideId, a: Ride, b: Ride, m: Event)
    requires IsPath(us, r, a.status) && HashWrite(a, b) && m == StatusUpdate(r, a.version + 1, b.status)
    requires forall e :: e in us ==> e.StatusUpdate? && e.version <= a.version
    ensures IsPath(us + if a.status != b.status then [m] else [], r, b.status)
  {
    if a.status != b.status {
      PathGrows(us, r, a.status, m);
    } else {
      assert us + [] == us;
    }
  }

  lemma UpdatesAfter(s: State, t: State, r: RideId, m: Event)
    requires UpdatesSound(s.rides, s.log) && ToldWrite(s, t) && r in s.rides && r in t.rides
    requires m == StatusUpdate(r, s.rides[r].version + 1, t.rides[r].status)
    ensures Updates(Published(t.log), r)
         == Updates(Published(s.log), r) + if s.rides[r].status != t.rides[r].status then [m] else []
  {
    var suffix := t.log[|s.log|..];
    assert t.log == s.log + suffix;
    NewKey(s, r, m);
    ToldOnce(s, t, r, m, suffix);
    SuffixUpdates(s.log, suffix, r, m);
  }

  lemma NewKey(s: State, r: RideId, m: Event)
    requires UpdatesSound(s.rides, s.log) && r in s.rides && IsUpdate(m, r) && m.version > s.rides[r].version
    ensures KeyOf(m) !in KeysOf(s.log) && m !in s.log
  {
  }

  lemma ToldOnce(s: State, t: State, r: RideId, m: Event, suffix: seq<Event>)
    requires ToldWrite(s, t) && r in s.rides && r in t.rides && t.log == s.log + suffix && m !in s.log
    requires m == StatusUpdate(r, s.rides[r].version + 1, t.rides[r].status)
    ensures forall e :: e in suffix && IsUpdate(e, r) ==> e == m
    ensures m in suffix <==> s.rides[r].status != t.rides[r].status
  {
    assert t.log[|s.log|..] == suffix;
    assert m in t.log <==> m in suffix;
  }

  lemma UpdatesBelow(s: State, r: RideId)
    requires UpdatesSound(s.rides, s.log) && r in s.rides
    ensures forall e :: e in Updates(Published(s.log), r) ==> e.StatusUpdate? && e.version <= s.rides[r].version
  {
    UpdatesMembers(Published(s.log), r);
    PublishedWasEmitted(s.log);
  }

  lemma {:induction false} NoUpdatesAtFirst(log: seq<Event>, r: RideId)
    requires forall e :: e in log ==> !IsUpdate(e, r)
    ensures Updates(Published(log), r) == []
  {
    if log != [] {
      NoUpdatesAtFirst(log[..|log| - 1], r);
      PublishedStep(log[..|log| - 1], log[|log| - 1], r);
      assert log == log[..|log| - 1] + [log[|log| - 1]];
    }
  }

  lemma ToldKeepsEmits(s: State, t: State)
    requires Emits(s) && ToldWrite(s, t)
    ensures Emits(t)
  {
    ToldKeepsSound(s, t);
    forall r | r in t.rides ensures IsPath(Updates(Published(t.log), r), r, t.rides[r].status) {
      if r in s.rides {
        ToldKeepsPath(s, t, r);
      } else {
        assert forall e :: e in t.log <==> e in s.log || e in t.log[|s.log|..];
        NoUpdatesAtFirst(t.log, r);
      }
    }
  }

  lemma {:induction false} WritesEmit(ws: seq<State>, k: nat)
    requires WriteByWrite(ws) && k < |ws| && Emits(ws[0])
    ensures Emits(ws[k])
  {
    if k > 0 {
      WritesEmit(ws, k - 1);
      ToldKeepsEmits(ws[k - 1], ws[k]);
    }
  }

  /** The accept calls of the run are completed at once: nothing comes between a commit and its messages. */
  predicate Whole(step: Step) {
    !step.ScriptRuns? && !step.AcceptFinishes?
  }

  ghost predicate WholeRun(c: Config, ss: seq<State>, steps: seq<Step>) {
    IsRun(c, ss, steps) && forall i :: 0 <= i < |steps| ==> Whole(steps[i])
  }

  lemma {:induction false} RunEmits(c: Config, ss: seq<State>, steps: seq<Step>, i: nat)
    requires WholeRun(c, ss, steps) && i < |ss|
    ensures Emits(ss[i])
  {
    if i > 0 {
      RunEmits(c, ss, steps, i - 1);
      StatesEmit(c, ss, steps, i - 1, |StatesOf(c, ss[i - 1], steps[i - 1])| - 1);
    }
  }

  lemma StatesEmit(c: Config, ss: seq<State>, steps: seq<Step>, i: nat, k: nat)
    requires WholeRun(c, ss, steps) && i < |steps| && Emits(ss[i]) && k < |StatesOf(c, ss[i], steps[i])|
    ensures Emits(StatesOf(c, ss[i], steps[i])[k]) && WriteByWrite(StatesOf(c, ss[i], steps[i]))
  {
    RunKeeps(c, ss, steps, i);
    StepWriteByWrite(c, ss[i], steps[i]);
    WritesEmit(StatesOf(c, ss[i], steps[i]), k);
  }

  // ----- the promise -----

  /**
   * What a customer is told about a ride, in order, is every status it has been written to: a path in the table from
   * REQUESTED to the present status, with rising versions. It holds after every write, also inside a step.
   */
  lemma PublishedUpdatesFormPath(c: Config, ss: seq<State>, steps: seq<Step>, i: nat, k: nat, r: RideId)
    requires WholeRun(c, ss, steps) && i < |steps| && k < |StatesOf(c, ss[i], steps[i])|
    requires r in StatesOf(c, ss[i], steps[i])[k].rides
    ensures var s := StatesOf(c, ss[i], steps[i])[k]; IsPath(Updates(Published(s.log), r), r, s.rides[r].status)
  {
    RunEmits(c, ss, steps, i);
    StatesEmit(c, ss, steps, i, k);
  }

  ghost predicate IsDelivered(log: seq<Event>, k: int, r: RideId, status: RideStatus) {
    0 <= k < |Published(log)| && IsUpdate(Published(log)[k], r) && Published(log)[k].status == status
  }

  /**
   * Every write that changes a status, also inside a step, is published under the version it wrote, and no other published
   * message tells of that status.
   */
  lemma EveryStatusDeliveredOnce(c: Config, ss: seq<State>, steps: seq<Step>, i: nat, k: nat, n: nat, r: RideId) returns (j: nat)
    requires WholeRun(c, ss, steps) && i < n < |ss| && 0 < k < |StatesOf(c, ss[i], steps[i])|
    requires var ws := StatesOf(c, ss[i], steps[i]);
             r in ws[k - 1].rides && r in ws[k].rides && ws[k].rides[r].status != ws[k - 1].rides[r].status
    ensures var now := StatesOf(c, ss[i], steps[i])[k].rides;
            && IsDelivered(ss[n].log, j, r, now[r].status) && Published(ss[n].log)[j] == UpdateOf(now, r)
            && forall l :: IsDelivered(ss[n].log, l, r, now[r].status) ==> l == j
  {
    var ws := StatesOf(c, ss[i], steps[i]);
    WritesOfStep(c, ss, steps, i, ws);
    ToldInLog(ws, ss[i + 1], k, r);
    LogGrows(c, ss, steps, i + 1, n);
    RunEmits(c, ss, steps, n);
    j := DeliveredOnce(ss[n].rides, ss[n].log, UpdateOf(ws[k].rides, r));
  }

  lemma WritesOfStep(c: Config, ss: seq<State>, steps: seq<Step>, i: nat, ws: seq<State>)
    requires WholeRun(c, ss, steps) && i < |steps| && ws == StatesOf(c, ss[i], steps[i])
    ensures WriteByWrite(ws) && ws[|ws| - 1] == ss[i + 1]
  {
    RunKeeps(c, ss, steps, i);
    StepWriteByWrite(c, ss[i], steps[i]);
  }

  lemma ToldInLog(ws: seq<State>, t: State, k: nat, r: RideId)
    requires WriteByWrite(ws) && 0 < k < |ws| && ws[|ws| - 1] == t
    requires r in ws[k - 1].rides && r in ws[k].rides && ws[k].rides[r].status != ws[k - 1].rides[r].status
    ensures UpdateOf(ws[k].rides, r) in t.log
  {
    assert ToldWrite(ws[k - 1], ws[k]);
    LogChain(ws, k, |ws| - 1);
  }

  /** The message itself is published: no other has its key. */
  lemma DeliveredOnce(rides: map<RideId, Ride>, log: seq<Event>, e: Event) returns (j: nat)
    requires UpdatesSound(rides, log) && e in log && e.StatusUpdate?
    ensures IsDelivered(log, j, e.ride, e.status) && Published(log)[j] == e
    ensures forall l :: IsDelivered(log, l, e.ride, e.status) ==> l == j
  {
    EveryKeyPublished(log, e);
    PublishedWasEmitted(log);
    var p, first :| p in Published(log) && KeyOf(p) == KeyOf(e) && FirstOfKey(log, first, p);
    j :| 0 <= j < |Published(log)| && Published(log)[j] == p;
    forall l | IsDelivered(log, l, e.ride, e.status) ensures l == j {
      assert Published(log)[l] in log && p in log;
      if j < l {
        PublishedKeysDistinct(log, j, l);
      } else if l < j {
        PublishedKeysDistinct(log, l, j);
      }
    }
  }

  lemma {:induction false} LogChain(ws: seq<State>, i: nat, j: nat)
    requires WriteByWrite(ws) && i <= j < |ws|
    ensures ws[i].log <= ws[j].log
    decreases j
  {
    if i < j {
      LogChain(ws, i, j - 1);
      assert ToldWrite(ws[j - 1], ws[j]);
    }
  }

  /** The log is only ever appended to. */
  lemma LogGrows(c: Config, ss: seq<State>, steps: seq<Step>, i: nat, j: nat)
    requires IsRun(c, ss, steps) && i <= j < |ss|
    ensures ss[i].log <= ss[j].log
  {
    forall k | 0 < k < |ss| ensures ss[k - 1].log <= ss[k].log {
      RunKeeps(c, ss, steps, k - 1);
      StepLog(c, ss[k - 1], steps[k - 1]);
      assert ss[k] == Apply(c, ss[k - 1], steps[k - 1]);
    }
    LogsGrow(ss, i, j);
  }

  lemma {:induction false} LogsGrow(ss: seq<State>, i: nat, j: nat)
    requires i <= j < |ss| && forall k :: 0 < k < |ss| ==> ss[k - 1].log <= ss[k].log
    ensures ss[i].log <= ss[j].log
    decreases j
  {
    if i < j {
      LogsGrow(ss, i, j - 1);
    }
  }

  lemma StepLog(c: Config, s: State, step: Step)
    requires Inv(s)
    ensures s.log <= Apply(c, s, step).log
  {
    if Whole(step) {
      var ws := StatesOf(c, s, step);
      StepWriteByWrite(c, s, step);
      LogChain(ws, 0, |ws| - 1);
    }
  }

  // ----- an acceptance in two halves -----

  /** No status message, published or about to be, carries a version its ride has not had. */
  ghost predicate VersionsHad(s: State) {
    && (forall e :: e in s.log && e.StatusUpdate? ==> e.ride in s.rides && e.version <= s.rides[e.ride].version)
    && (forall r :: r in s.inflight && s.inflight[r].read.Some? ==> r in s.rides && s.inflight[r].read.value.version <= s.rides[r].version)
  }

  /** The status messages in `t` that are not in `s` carry versions written since. */
  ghost predicate NewerUpdates(s: State, t: State) {
    && (forall r :: r in s.rides ==> r in t.rides && s.rides[r].version <= t.rides[r].version)
    && (forall e :: e in t.log && e.StatusUpdate? && e !in s.log ==>
          && e.ride in t.rides && e.version <= t.rides[e.ride].version
          && (e.ride in s.rides ==> s.rides[e.ride].version < e.version))
  }

  lemma ToldIsNewer(s: State, t: State)
    requires ToldWrite(s, t)
    ensures NewerUpdates(s, t)
  {
    assert t.log == s.log + t.log[|s.log|..];
    assert forall e :: e in t.log <==> e in s.log || e in t.log[|s.log|..];
  }

  lemma NewerTwice(s: State, u: State, t: State)
    requires NewerUpdates(s, u) && NewerUpdates(u, t)
    ensures NewerUpdates(s, t)
  {
  }

  lemma {:induction false} NewerChain(ws: seq<State>, k: nat)
    requires WriteByWrite(ws) && k < |ws|
    ensures NewerUpdates(ws[0], ws[k])
  {
    if k > 0 {
      NewerChain(ws, k - 1);
      ToldIsNewer(ws[k - 1], ws[k]);
      NewerTwice(ws[0], ws[k - 1], ws[k]);
    }
  }

  /** What has been read back is what had been in `s`, or the present hash of its ride. */
  ghost predicate ReadsTruly(s: State, t: State) {
    forall r :: r in t.inflight && t.inflight[r].read.Some? ==>
      (r in s.inflight && t.inflight[r].read == s.inflight[r].read) || (r in t.rides && t.inflight[r].read == Some(t.rides[r]))
  }

  lemma StepReadsTruly(c: Config, s: State, step: Step)
    ensures ReadsTruly(s, Apply(c, s, step))
  {
    if step.Dispatches? || step.BatchTimesOut? || step.Rejects? {
      DispatchStepFlight(c, s, step);
    } else if Transitions(step) {
      TransitionFlight(c, s, step);
    } else {
      OtherReadsTruly(c, s, step);
    }
  }

  lemma OtherReadsTruly(c: Config, s: State, step: Step)
    requires !(step.Dispatches? || step.BatchTimesOut? || step.Rejects?) && !Transitions(step)
    ensures ReadsTruly(s, Apply(c, s, step))
  {
    if step.Accepts? || step.ScriptRuns? {
      AcceptReadsTruly(c, s, step);
    }
  }

  lemma AcceptReadsTruly(c: Config, s: State, step: Step)
    requires step.Accepts? || step.ScriptRuns?
    ensures ReadsTruly(s, Apply(c, s, step))
  {
  }

  /** A step tells of writes it makes, or completes an accept call. */
  lemma StepTells(c: Config, s: State, step: Step)
    requires Inv(s)
    ensures !step.AcceptFinishes? ==> NewerUpdates(s, Apply(c, s, step))
  {
    if Whole(step) {
      var ws := StatesOf(c, s, step);
      StepWriteByWrite(c, s, step);
      NewerChain(ws, |ws| - 1);
    } else {
      SplitAcceptWrites(c, s, step);
    }
  }

  lemma StepHasVersions(c: Config, s: State, step: Step)
    requires Inv(s) && VersionsHad(s)
    ensures VersionsHad(Apply(c, s, step))
  {
    StepReadsTruly(c, s, step);
    if step.AcceptFinishes? {
      CleanupHasVersions(s, step.ride);
    } else {
      StepTells(c, s, step);
      NewerHasVersions(s, Apply(c, s, step));
    }
  }

  lemma CleanupHasVersions(s: State, r: RideId)
    requires VersionsHad(s)
    ensures VersionsHad(AcceptCleanup(s, r))
  {
  }

  lemma NewerHasVersions(s: State, t: State)
    requires VersionsHad(s) && NewerUpdates(s, t) && ReadsTruly(s, t)
    ensures VersionsHad(t)
  {
  }

  lemma {:induction false} RunHasVersions(c: Config, ss: seq<State>, steps: seq<Step>, i: nat)
    requires IsRun(c, ss, steps) && i < |ss|
    ensures VersionsHad(ss[i])
  {
    if i > 0 {
      RunHasVersions(c, ss, steps, i - 1);
      RunKeeps(c, ss, steps, i - 1);
      StepHasVersions(c, ss[i - 1], steps[i - 1]);
    }
  }

  /** No message tells of this version of the ride. */
  ghost predicate Untold(s: State, r: RideId, version: nat) {
    forall e :: e in s.log && IsUpdate(e, r) ==> e.version != version
  }

  /**
   * The ride has had this version, no message tells of it, and an accept call that committed it is in flight: `read` is what
   * the call has read of the ride since, if it has.
   */
  ghost predicate Waiting(s: State, r: RideId, version: nat, read: Option<Ride>) {
    && r in s.rides && version <= s.rides[r].version && Untold(s, r, version)
    && r in s.inflight && s.inflight[r].read == read
  }

  /** The step is not the next one of the accept call. */
  predicate IsOther(step: Step, r: RideId, read: Option<Ride>) {
    step != if read.None? then AcceptReads(r) else AcceptFinishes(r)
  }

  lemma StepKeepsUntold(c: Config, s: State, step: Step, r: RideId, version: nat, read: Option<Ride>)
    requires Inv(s) && VersionsHad(s) && Waiting(s, r, version, read) && IsOther(step, r, read)
    ensures var t := Apply(c, s, step); Untold(t, r, version) && r in t.rides && version <= t.rides[r].version
  {
    if step.AcceptFinishes? {
      SplitAcceptWrites(c, s, step);
    } else {
      StepTells(c, s, step);
    }
  }

  /** Only its own next step moves an accept call on. */
  lemma StepKeepsFlight(c: Config, s: State, step: Step, r: RideId, version: nat, read: Option<Ride>)
    requires Waiting(s, r, version, read) && IsOther(step, r, read) && s.rides[r].status != Dispatching
    ensures var t := Apply(c, s, step); r in t.inflight && t.inflight[r].read == read
  {
    if step.Dispatches? || step.BatchTimesOut? || step.Rejects? {
      DispatchStepFlight(c, s, step);
    } else if Transitions(step) {
      TransitionFlight(c, s, step);
    } else {
      OtherFlight(c, s, step, r, read);
    }
  }

  lemma OtherFlight(c: Config, s: State, step: Step, r: RideId, read: Option<Ride>)
    requires r in s.rides && r in s.inflight && s.inflight[r].read == read
    requires IsOther(step, r, read) && s.rides[r].status != Dispatching
    requires !(step.Dispatches? || step.BatchTimesOut? || step.Rejects?) && !Transitions(step)
    ensures var t := Apply(c, s, step); r in t.inflight && t.inflight[r].read == read
  {
    if step.Accepts? || step.ScriptRuns? {
      AcceptFlight(c, s, step, r);
    } else if step.AcceptReads? || step.AcceptFinishes? {
      SettleFlight(c, s, step, r, read);
    }
  }

  lemma AcceptFlight(c: Config, s: State, step: Step, r: RideId)
    requires r in s.rides && r in s.inflight && s.rides[r].status != Dispatching && (step.Accepts? || step.ScriptRuns?)
    ensures var t := Apply(c, s, step); r in t.inflight && t.inflight[r] == s.inflight[r]
  {
  }

  lemma SettleFlight(c: Config, s: State, step: Step, r: RideId, read: Option<Ride>)
    requires r in s.inflight && s.inflight[r].read == read && IsOther(step, r, read) && (step.AcceptReads? || step.AcceptFinishes?)
    ensures var t := Apply(c, s, step); r in t.inflight && t.inflight[r].read == read
  {
  }

  lemma DispatchStepFlight(c: Config, s: State, step: Step)
    requires step.Dispatches? || step.BatchTimesOut? || step.Rejects?
    ensures Apply(c, s, step).inflight == s.inflight
  {
    match step
    case Dispatches(r, near) => DispatchFlight(c, s, r, near);
    case BatchTimesOut(r, b, near) => DispatchFlight(c, if r in s.rides then ExpireBatch(s, r) else s, r, near);
    case Rejects(r, d, reason, near) =>
      if CanReject(s, r, d) {
        DispatchFlight(c, RecordRejection(c, s, r, d, reason), r, near);
      }
  }

  lemma TransitionFlight(c: Config, s: State, step: Step)
    requires Transitions(step)
    ensures Apply(c, s, step).inflight == s.inflight
  {
    if step.ride in s.rides {
      var next := if step.Arrives? then Arriving else if step.Starts? then Ongoing else if step.Completes? then Completed else Cancelled;
      CleanupFlight(Moved(s, step.ride, next), step.ride);
    }
  }

  lemma CleanupFlight(s: State, r: RideId)
    requires r in s.rides
    ensures CleanupTerminal(s, r).inflight == s.inflight
  {
  }

  lemma DispatchFlight(c: Config, s: State, r: RideId, near: seq<DriverId>)
    ensures Dispatch(c, s, r, near).inflight == s.inflight
  {
    if r in s.rides {
      var closed := ExpireBatch(StartIfRequested(c, s, r), r);
      ReadyFlight(c, s, r);
      SearchFlight(c, closed, r, s.rides[r].round, EntryRadius(c, s.rides[r]), near);
    }
  }

  lemma ReadyFlight(c: Config, s: State, r: RideId)
    requires r in s.rides
    ensures StartIfRequested(c, s, r).inflight == s.inflight && ExpireBatch(StartIfRequested(c, s, r), r).inflight == s.inflight
  {
  }

  lemma SearchFlight(c: Config, s: State, r: RideId, round: nat, radius: real, near: seq<DriverId>)
    requires r in s.rides
    ensures Search(c, s, r, round, radius, near).inflight == s.inflight
  {
    CancelFlight(RemoveGhosts(s, GhostsScanned(s, Eligible(s, r, round, near), c.batchSize)), r);
  }

  lemma CancelFlight(s: State, r: RideId)
    requires r in s.rides
    ensures CancelExhausted(s, r).inflight == s.inflight
  {
  }

  lemma StepKeepsWaiting(c: Config, ss: seq<State>, steps: seq<Step>, k: nat, r: RideId, version: nat, read: Option<Ride>)
    requires IsRun(c, ss, steps) && k < |steps| && Waiting(ss[k], r, version, read) && IsOther(steps[k], r, read)
    ensures Waiting(ss[k + 1], r, version, read)
  {
    RunKeeps(c, ss, steps, k);
    RunHasVersions(c, ss, steps, k);
    StepKeepsUntold(c, ss[k], steps[k], r, version, read);
    StepKeepsFlight(c, ss[k], steps[k], r, version, read);
  }

  lemma {:induction false} WaitingAllAlong(ss: seq<State>, i: nat, j: nat, r: RideId, version: nat, read: Option<Ride>)
    requires i <= j < |ss| && Waiting(ss[i], r, version, read)
    requires forall k :: i <= k < j && Waiting(ss[k], r, version, read) ==> Waiting(ss[k + 1], r, version, read)
    ensures Waiting(ss[j], r, version, read)
    decreases j
  {
    if i < j {
      WaitingAllAlong(ss, i, j - 1, r, version, read);
    }
  }

  lemma WaitingStays(c: Config, ss: seq<State>, steps: seq<Step>, i: nat, j: nat, r: RideId, version: nat, read: Option<Ride>)
    requires IsRun(c, ss, steps) && i <= j < |ss| && Waiting(ss[i], r, version, read)
    requires forall k :: i <= k < j ==> IsOther(steps[k], r, read)
    ensures Waiting(ss[j], r, version, read)
  {
    forall k | i <= k < j && Waiting(ss[k], r, version, read) ensures Waiting(ss[k + 1], r, version, read) {
      StepKeepsWaiting(c, ss, steps, k, r, version, read);
    }
    WaitingAllAlong(ss, i, j, r, version, read);
  }

  lemma CommitWaits(c: Config, ss: seq<State>, steps: seq<Step>, i: nat, r: RideId)
    requires IsRun(c, ss, steps) && i < |steps| && steps[i].ScriptRuns? && Wins(ss[i], steps[i], r)
    ensures r in ss[i + 1].rides && Waiting(ss[i + 1], r, ss[i + 1].rides[r].version, None)
  {
    RunHasVersions(c, ss, steps, i);
    assert ss[i + 1] == AcceptScript(ss[i], r, steps[i].driver, steps[i].seen, steps[i].at);
  }

  /** From a commit to the messages, the accepted version stays untold; what is published is the hash as the call read it back. */
  lemma WaitingForMessages(c: Config, ss: seq<State>, steps: seq<Step>, i: nat, j: nat, f: nat, r: RideId)
    requires IsRun(c, ss, steps) && i < j < f < |steps| && steps[i].ScriptRuns? && Wins(ss[i], steps[i], r)
    requires steps[j] == AcceptReads(r) && forall k :: i < k < j ==> steps[k] != AcceptReads(r)
    requires forall k :: j < k < f ==> steps[k] != AcceptFinishes(r)
    ensures r in ss[i + 1].rides && r in ss[j].rides
    ensures Waiting(ss[f], r, ss[i + 1].rides[r].version, Some(ss[j].rides[r]))
  {
    CommitWaits(c, ss, steps, i, r);
    var version := ss[i + 1].rides[r].version;
    WaitingStays(c, ss, steps, i + 1, j, r, version, None);
    assert ss[j + 1] == AcceptReadBack(ss[j], r);
    WaitingStays(c, ss, steps, j + 1, f, r, version, Some(ss[j].rides[r]));
  }

  /**
   * In any run, what an accept call in parts publishes: script at step `i`, read-back at `j`, messages at `f`. The acceptance
   * is published under its own version exactly when nothing has written the ride between the script and the read-back.
   */
  lemma AcceptancePublishedIff(c: Config, ss: seq<State>, steps: seq<Step>, i: nat, j: nat, f: nat, r: RideId)
    requires IsRun(c, ss, steps) && i < j < f < |steps| && steps[i].ScriptRuns? && Wins(ss[i], steps[i], r)
    requires steps[j] == AcceptReads(r) && forall k :: i < k < j ==> steps[k] != AcceptReads(r)
    requires steps[f] == AcceptFinishes(r) && forall k :: j < k < f ==> steps[k] != AcceptFinishes(r)
    ensures r in ss[i + 1].rides && r in ss[j].rides
    ensures var accepted := ss[i + 1].rides[r].version;
            && ((exists e :: e in Published(ss[f + 1].log) && KeyOf(e) == StatusKey(r, accepted)) <==> ss[j].rides[r].version == accepted)
            && (ss[j].rides[r].version == accepted ==> StatusUpdate(r, accepted, Accepted) in Published(ss[f + 1].log))
  {
    WaitingForMessages(c, ss, steps, i, j, f, r);
    var accepted, message := ss[i + 1].rides[r].version, UpdateOf(ss[j].rides, r);
    assert ss[f + 1] == AcceptCleanup(ss[f], r);
    MessagesPublished(ss[f].log, message, r, accepted);
    if ss[j].rides[r].version == accepted {
      VersionNamesContent(c, ss, steps, i + 1, j, r);
      WinnerIsRecorded(c, ss[i], steps[i], r);
    }
  }

  lemma MessagesPublished(log: seq<Event>, message: Event, r: RideId, version: nat)
    requires IsUpdate(message, r) && forall e :: e in log && IsUpdate(e, r) ==> e.version != version
    ensures var published := Published(log + [message, message]);
            && ((exists e :: e in published && KeyOf(e) == StatusKey(r, version)) <==> message.version == version)
            && (message.version == version ==> message in published)
  {
    var more := log + [message, message];
    assert message in more;
    PublishedWasEmitted(more);
    if message.version == version {
      EveryKeyPublished(more, message);
      var p, first :| p in Published(more) && KeyOf(p) == KeyOf(message) && FirstOfKey(more, first, p);
      assert p == message;
    }
  }
}
