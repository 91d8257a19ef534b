/**
 * The two grains of the model agree: a call of `AcceptRace`, run command by command with nothing in between, does to the ride
 * what the function of `Steps` does.
 */
module Uninterrupted {
  import opened Wrappers
  import opened Types
  import opened Lifecycle
  import opened Steps
  import opened Invariants
  import opened Runs
  import opened Rounds
  import opened AcceptRace

  // ----- one ride of the state, as the machine has it -----

  ghost predicate ShowsResponses(ours: map<DriverId, Response>, all: map<Offer, Response>, r: RideId) {
    forall d: DriverId :: (d in ours <==> Offer(d, r) in all) && (d in ours ==> ours[d] == all[Offer(d, r)])
  }

  ghost predicate ShowsNotified(ours: set<DriverId>, all: set<Offer>, r: RideId) {
    forall d: DriverId :: d in ours <==> Offer(d, r) in all
  }

  function HolderOf(token: Token, r: RideId): Holder {
    if token.ride == r then Ours(token.batch) else Foreign
  }

  ghost predicate ShowsHolders(holders: map<DriverId, Holder>, tokens: map<DriverId, Token>, r: RideId) {
    forall d: DriverId :: (d in holders <==> d in tokens) && (d in holders ==> holders[d] == HolderOf(tokens[d], r))
  }

  function HashOf(ride: Ride): Hash {
    Hash(ride.status, ride.driver, ride.batch)
  }

  /** The machine holds the ride's hash, responses, notified set, everybody's reservations, and the next batch id. */
  ghost predicate Shows(m: Machine, s: State, r: RideId) {
    && r in s.rides && m.hash == HashOf(s.rides[r])
    && ShowsResponses(m.responses, s.responses, r) && ShowsNotified(m.notified, s.notified, r)
    && ShowsHolders(m.reservations, s.reservations, r) && m.nextBatch == s.nextBatch
  }

  // ----- sequences of commands -----

  function Issued(m: Machine, commands: seq<Command>): Machine
    decreases |commands|
  {
    if commands == [] then m else Issued(Do(m, commands[0]), commands[1..])
  }

  lemma {:induction false} IssuedBoth(m: Machine, a: seq<Command>, b: seq<Command>)
    ensures Issued(m, a + b) == Issued(Issued(m, a), b)
    decreases |a|
  {
    if a == [] {
      assert a + b == b;
    } else {
      assert (a + b)[1..] == a[1..] + b;
      IssuedBoth(Do(m, a[0]), a[1..], b);
    }
  }

  lemma IssuedTwo(m: Machine, a: Command, b: Command)
    ensures Issued(m, [a]) == Do(m, a) && Issued(m, [a, b]) == Do(Do(m, a), b)
  {
    assert [a, b][1..] == [b] && Issued(Do(m, a), [b]) == Do(Do(m, a), b);
  }

  lemma IssuedThree(m: Machine, a: Command, b: Command, e: Command)
    ensures Issued(m, [a, b, e]) == Do(Do(Do(m, a), b), e)
  {
    assert [a, b, e][1..] == [b, e];
    IssuedTwo(Do(m, a), b, e);
  }

  /** A read, a write or a reservation of call `p`, or a driver's reservation going away. */
  predicate OfCall(command: Command, p: nat) {
    || (command.Reads? && command.proc == p)
    || (command.Writes? && command.proc == p)
    || (command.Reserves? && command.proc == p)
    || command.ReservationGone?
  }

  predicate AllOf(commands: seq<Command>, p: nat) {
    forall i :: 0 <= i < |commands| ==> OfCall(commands[i], p)
  }

  /** Call `p` starts its task in `m`, issues `commands`, and is through. */
  ghost predicate Complete(m: Machine, p: nat, task: Task, commands: seq<Command>) {
    && ProcOf(m, p) == Idle && AllOf(commands, p)
    && ProcOf(Issued(Do(m, Enters(p, task)), commands), p) == Idle
  }

  // ----- loops of commands -----

  /** Releases the tokens of batch `id` on each of `left`. */
  lemma {:induction false} ReleaseEach(m: Machine, p: nat, id: BatchId, left: seq<DriverId>, after: After) returns (cs: seq<Command>)
    requires ProcOf(m, p) == Releasing(id, left, after)
    ensures AllOf(cs, p)
    ensures var t := Issued(m, cs);
            && t == m.(procs := t.procs, reservations := t.reservations) && ProcOf(t, p) == Releasing(id, [], after)
            && forall d: DriverId ::
                 && (d in t.reservations <==> d in m.reservations && !(d in left && m.reservations[d] == Ours(id)))
                 && (d in t.reservations ==> t.reservations[d] == m.reservations[d])
    decreases |left|
  {
    if left == [] {
      cs := [];
    } else {
      var rest := ReleaseEach(Do(m, Writes(p, false, 0)), p, id, left[1..], after);
      cs := [Writes(p, false, 0)] + rest;
      assert cs[1..] == rest;
    }
  }

  /** The reservations of `ds` go away. */
  lemma {:induction false} LoseEach(m: Machine, p: nat, ds: seq<DriverId>) returns (cs: seq<Command>)
    ensures AllOf(cs, p)
    ensures var t := Issued(m, cs);
            && t == m.(reservations := t.reservations)
            && forall d: DriverId ::
                 (d in t.reservations <==> d in m.reservations && d !in ds) && (d in t.reservations ==> t.reservations[d] == m.reservations[d])
    decreases |ds|
  {
    if ds == [] {
      cs := [];
    } else {
      var rest := LoseEach(Do(m, ReservationGone(ds[0])), p, ds[1..]);
      cs := [ReservationGone(ds[0])] + rest;
      assert cs[1..] == rest;
    }
  }

  /** Reserves each of `ds`, none of whom is reserved. */
  lemma {:induction false} ReserveEach(m: Machine, p: nat, id: BatchId, chosen: seq<DriverId>, ds: seq<DriverId>) returns (cs: seq<Command>)
    requires ProcOf(m, p) == Searching(id, chosen) && Distinct(chosen + ds) && forall d :: d in ds ==> d !in m.reservations
    ensures AllOf(cs, p)
    ensures var t := Issued(m, cs);
            && t == m.(procs := t.procs, reservations := t.reservations) && ProcOf(t, p) == Searching(id, chosen + ds)
            && forall d: DriverId ::
                 && (d in t.reservations <==> d in m.reservations || d in ds)
                 && (d in t.reservations ==> t.reservations[d] == if d in ds then Ours(id) else m.reservations[d])
    decreases |ds|
  {
    if ds == [] {
      cs := [];
      assert chosen + ds == chosen;
    } else {
      FirstIsNew(chosen, ds);
      assert (chosen + [ds[0]]) + ds[1..] == chosen + ds;
      var next := Do(m, Reserves(p, ds[0]));
      var rest := ReserveEach(next, p, id, chosen + [ds[0]], ds[1..]);
      cs := [Reserves(p, ds[0])] + rest;
      assert cs[1..] == rest;
    }
  }

  lemma FirstIsNew(chosen: seq<DriverId>, ds: seq<DriverId>)
    requires Distinct(chosen + ds) && ds != []
    ensures ds[0] !in chosen && ds[0] !in ds[1..]
  {
    var all := chosen + ds;
    assert all[|chosen|] == ds[0];
    forall i | 0 <= i < |chosen| ensures chosen[i] != ds[0] {
      assert all[i] != all[|chosen|];
    }
    forall i | 1 <= i < |ds| ensures ds[i] != ds[0] {
      assert all[|chosen|] != all[|chosen| + i];
    }
  }

  // ----- dispatch -----

  lemma ShowsReleased(m: Machine, t: Machine, s: State, r: RideId, b: BatchId, ds: seq<DriverId>)
    requires ShowsHolders(m.reservations, s.reservations, r)
    requires forall d: DriverId ::
               && (d in t.reservations <==> d in m.reservations && !(d in ds && m.reservations[d] == Ours(b)))
               && (d in t.reservations ==> t.reservations[d] == m.reservations[d])
    ensures ShowsHolders(t.reservations, ReleaseTokens(s.reservations, Token(r, b), ds), r)
  {
  }

  lemma ShowsTimedOut(ours: map<DriverId, Response>, all: map<Offer, Response>, r: RideId, b: Batch)
    requires ShowsResponses(ours, all, r)
    ensures ShowsResponses(TimedOutNow(ours, ours, b), TimeOutPending(all, r, b), r)
  {
  }

  lemma ShowsAsked(ours: map<DriverId, Response>, all: map<Offer, Response>, r: RideId, ds: seq<DriverId>, b: BatchId)
    requires ShowsResponses(ours, all, r)
    ensures ShowsResponses(ours + (map d | d in ds :: Pending(b)), all + PendingFor(ds, r, b), r)
  {
  }

  lemma ShowsContacted(ours: set<DriverId>, all: set<Offer>, r: RideId, ds: seq<DriverId>)
    requires ShowsNotified(ours, all, r)
    ensures ShowsNotified(ours + (set d | d in ds), all + Offers(ds, r), r)
  {
  }

  lemma ShowsReserved(m: Machine, t: Machine, s: State, r: RideId, b: BatchId, ds: seq<DriverId>)
    requires ShowsHolders(m.reservations, s.reservations, r)
    requires forall d: DriverId ::
               && (d in t.reservations <==> d in m.reservations || d in ds)
               && (d in t.reservations ==> t.reservations[d] == if d in ds then Ours(b) else m.reservations[d])
    ensures ShowsHolders(t.reservations, s.reservations + ReservationsFor(ds, Token(r, b)), r)
  {
  }

  /** The batch check of a dispatch that finds the batch expired, or of a timeout job. */
  lemma CloseAlone(m: Machine, s: State, r: RideId, p: nat, after: AcceptRace.After) returns (cs: seq<Command>)
    requires Shows(m, s, r) && s.rides[r].batch.Some? && ProcOf(m, p) == Expiring(s.rides[r].batch.value, after)
    ensures AllOf(cs, p)
    ensures var t := Issued(m, cs); Shows(t, ExpireBatch(s, r), r) && ProcOf(t, p).Releasing? && ProcOf(t, p) == Releasing(ProcOf(t, p).id, [], after)
  {
    var b := s.rides[r].batch.value;
    var closed := CloseCommands(m, p, b, after);
    var rest := ReleaseEach(closed, p, b.id, b.drivers, after);
    cs := [Reads(p, false), Writes(p, false, 0)] + rest;
    IssuedBoth(m, [Reads(p, false), Writes(p, false, 0)], rest);
    ShowsReleased(closed, Issued(closed, rest), s, r, b.id, b.drivers);
    ShowsTimedOut(m.responses, s.responses, r, b);
  }

  lemma CloseCommands(m: Machine, p: nat, b: Batch, after: AcceptRace.After) returns (t: Machine)
    requires ProcOf(m, p) == Expiring(b, after)
    ensures t == Issued(m, [Reads(p, false), Writes(p, false, 0)]) && ProcOf(t, p) == Releasing(b.id, b.drivers, after)
    ensures t == m.(procs := t.procs, hash := m.hash.(batch := None), responses := TimedOutNow(m.responses, m.responses, b))
  {
    IssuedTwo(m, Reads(p, false), Writes(p, false, 0));
    var read := Do(m, Reads(p, false));
    assert ProcOf(read, p) == Closing(b, m.responses, after) && read == m.(procs := read.procs);
    t := Do(read, Writes(p, false, 0));
  }

  lemma SearchAlone(c: Config, s: State, r: RideId, round: nat, radius: real, near: seq<DriverId>, m: Machine, p: nat) returns (cs: seq<Command>)
    requires Shows(m, s, r) && DrawsId(ProcOf(m, p)) && Distinct(near)
    ensures AllOf(cs, p)
    ensures var t := Issued(m, cs); Shows(t, Search(c, s, r, round, radius, near), r) && ProcOf(t, p) == Idle
  {
    var drawn := DrawCommand(m, p);
    var lost := GhostsAlone(drawn, s, r, p, Eligible(s, r, round, near), c.batchSize);
    var rest := SearchDrawn(c, s, r, round, radius, near, Issued(drawn, lost), p);
    cs := [Reads(p, false)] + (lost + rest);
    assert cs[1..] == lost + rest;
    IssuedBoth(drawn, lost, rest);
  }

  lemma SearchDrawn(c: Config, s: State, r: RideId, round: nat, radius: real, near: seq<DriverId>, m: Machine, p: nat) returns (cs: seq<Command>)
    requires r in s.rides && Distinct(near) && ProcOf(m, p) == Searching(s.nextBatch, [])
    requires ShowsDrawn(m, RemoveGhosts(s, GhostsScanned(s, Eligible(s, r, round, near), c.batchSize)), r)
    ensures AllOf(cs, p)
    ensures var t := Issued(m, cs); Shows(t, Search(c, s, r, round, radius, near), r) && ProcOf(t, p) == Idle
  {
    var candidates := Eligible(s, r, round, near);
    var chosen := Pick(s, candidates, c.batchSize);
    ChosenDrivers(s, r, round, near, c.batchSize);
    var v := RemoveGhosts(s, GhostsScanned(s, candidates, c.batchSize));
    if chosen != [] {
      cs := SendAlone(c, v, r, chosen, m, p);
    } else {
      cs := EmptyHanded(c, v, r, round, radius, m, p);
    }
  }

  lemma DrawCommand(m: Machine, p: nat) returns (t: Machine)
    requires DrawsId(ProcOf(m, p))
    ensures t == Do(m, Reads(p, false)) && t == m.(procs := t.procs, nextBatch := m.nextBatch + 1) && ProcOf(t, p) == Searching(m.nextBatch, [])
  {
    t := Do(m, Reads(p, false));
  }

  /** The reservations of the drivers that the search wipes from the pools. */
  lemma GhostsAlone(m: Machine, s: State, r: RideId, p: nat, candidates: seq<DriverId>, n: nat) returns (cs: seq<Command>)
    requires ShowsDrawn(m, s, r)
    ensures AllOf(cs, p)
    ensures var t := Issued(m, cs);
            t == m.(reservations := t.reservations) && ShowsDrawn(t, RemoveGhosts(s, GhostsScanned(s, candidates, n)), r)
  {
    cs := LoseEach(m, p, Filter((d: DriverId) => Ghost(s, d), candidates[..Scanned(s, candidates, n)]));
  }

  /** The machine has drawn the id of the batch, and the state has not. */
  ghost predicate ShowsDrawn(m: Machine, s: State, r: RideId) {
    m.nextBatch == s.nextBatch + 1 && Shows(m.(nextBatch := s.nextBatch), s, r)
  }

  lemma SendAlone(c: Config, s: State, r: RideId, chosen: seq<DriverId>, m: Machine, p: nat) returns (cs: seq<Command>)
    requires ShowsDrawn(m, s, r) && ProcOf(m, p) == Searching(s.nextBatch, []) && Distinct(chosen) && chosen != []
    requires forall d :: d in chosen ==> d !in s.reservations
    ensures AllOf(cs, p)
    ensures var t := Issued(m, cs); Shows(t, SendBatch(c, s, r, chosen), r) && ProcOf(t, p) == Idle
  {
    var write := Writes(p, false, s.now + c.responseTtl);
    assert [] + chosen == chosen;
    var reserved := ReserveEach(m, p, s.nextBatch, [], chosen);
    var u := Issued(m, reserved);
    cs := reserved + [write];
    IssuedBoth(m, reserved, [write]);
    IssuedTwo(u, write, write);
    LastCommand(c, s, r, chosen, m, u, p);
  }

  lemma LastCommand(c: Config, s: State, r: RideId, chosen: seq<DriverId>, m: Machine, u: Machine, p: nat)
    requires ShowsDrawn(m, s, r) && chosen != []
    requires u == m.(procs := u.procs, reservations := u.reservations) && ProcOf(u, p) == Searching(s.nextBatch, chosen)
    requires forall d: DriverId ::
               && (d in u.reservations <==> d in m.reservations || d in chosen)
               && (d in u.reservations ==> u.reservations[d] == if d in chosen then Ours(s.nextBatch) else m.reservations[d])
    ensures var t := Do(u, Writes(p, false, s.now + c.responseTtl)); Shows(t, SendBatch(c, s, r, chosen), r) && ProcOf(t, p) == Idle
  {
    SendCommand(u, p, s.nextBatch, chosen, s.now + c.responseTtl);
    BatchShown(c, s, r, chosen, m, u, Do(u, Writes(p, false, s.now + c.responseTtl)));
  }

  lemma BatchShown(c: Config, s: State, r: RideId, chosen: seq<DriverId>, m: Machine, u: Machine, t: Machine)
    requires ShowsDrawn(m, s, r)
    requires forall d: DriverId ::
               && (d in u.reservations <==> d in m.reservations || d in chosen)
               && (d in u.reservations ==> u.reservations[d] == if d in chosen then Ours(s.nextBatch) else m.reservations[d])
    requires t.hash == m.hash.(batch := Some(Batch(s.nextBatch, chosen, s.now + c.responseTtl))) && t.reservations == u.reservations
    requires t.responses == m.responses + (map d | d in chosen :: Pending(s.nextBatch))
    requires t.notified == m.notified + (set d | d in chosen) && t.nextBatch == m.nextBatch
    ensures Shows(t, SendBatch(c, s, r, chosen), r)
  {
    SendKeys(c, s, r, chosen);
    ShowsReserved(m, u, s, r, s.nextBatch, chosen);
    ShowsAsked(m.responses, s.responses, r, chosen, s.nextBatch);
    ShowsContacted(m.notified, s.notified, r, chosen);
    SendShown(s, SendBatch(c, s, r, chosen), r, chosen, Batch(s.nextBatch, chosen, s.now + c.responseTtl), m, t);
  }

  lemma SendShown(s: State, v: State, r: RideId, chosen: seq<DriverId>, batch: Batch, m: Machine, t: Machine)
    requires ShowsDrawn(m, s, r) && r in v.rides
    requires t.hash == m.hash.(batch := Some(batch)) && HashOf(v.rides[r]) == HashOf(s.rides[r]).(batch := Some(batch))
    requires ShowsHolders(t.reservations, v.reservations, r) && t.nextBatch == v.nextBatch
    requires ShowsResponses(t.responses, v.responses, r) && ShowsNotified(t.notified, v.notified, r)
    ensures Shows(t, v, r)
  {
  }

  lemma SendKeys(c: Config, s: State, r: RideId, chosen: seq<DriverId>)
    requires r in s.rides
    ensures var t := SendBatch(c, s, r, chosen);
            && r in t.rides && HashOf(t.rides[r]) == HashOf(s.rides[r]).(batch := Some(Batch(s.nextBatch, chosen, s.now + c.responseTtl)))
            && t.responses == s.responses + PendingFor(chosen, r, s.nextBatch) && t.notified == s.notified + Offers(chosen, r)
            && t.reservations == s.reservations + ReservationsFor(chosen, Token(r, s.nextBatch)) && t.nextBatch == s.nextBatch + 1
  {
  }

  lemma SendCommand(m: Machine, p: nat, b: BatchId, chosen: seq<DriverId>, expiresAt: int)
    requires ProcOf(m, p) == Searching(b, chosen) && chosen != []
    ensures var t := Do(m, Writes(p, false, expiresAt));
            && t == m.(procs := t.procs, sent := t.sent, hash := m.hash.(batch := Some(Batch(b, chosen, expiresAt))),
                       responses := m.responses + (map d | d in chosen :: Pending(b)), notified := m.notified + (set d | d in chosen))
            && ProcOf(t, p) == Idle
  {
  }

  /** The end of a search that has found nobody. */
  lemma EmptyHanded(c: Config, s: State, r: RideId, round: nat, radius: real, m: Machine, p: nat) returns (cs: seq<Command>)
    requires ShowsDrawn(m, s, r) && ProcOf(m, p) == Searching(s.nextBatch, [])
    ensures AllOf(cs, p) && ProcOf(Issued(m, cs), p) == Idle
    ensures Shows(Issued(m, cs), if round >= c.maxRounds || radius >= c.maxRadius then CancelExhausted(s, r) else ExpandSearch(c, s, r, round, radius), r)
  {
    if round >= c.maxRounds || radius >= c.maxRadius {
      cs := GiveUpAlone(s, r, m, p);
    } else {
      cs := WidenAlone(c, s, r, round, radius, m, p);
    }
  }

  lemma GiveUpAlone(s: State, r: RideId, m: Machine, p: nat) returns (cs: seq<Command>)
    requires ShowsDrawn(m, s, r) && ProcOf(m, p) == Searching(s.nextBatch, [])
    ensures AllOf(cs, p)
    ensures var t := Issued(m, cs); Shows(t, CancelExhausted(s, r), r) && ProcOf(t, p) == Idle
  {
    cs := [Writes(p, true, 0), Reads(p, false)];
    IssuedTwo(m, Writes(p, true, 0), Reads(p, false));
    GiveUpCommands(m, p, s.nextBatch);
    CancelShown(s, r);
  }

  lemma GiveUpCommands(m: Machine, p: nat, b: BatchId)
    requires ProcOf(m, p) == Searching(b, [])
    ensures var t := Do(Do(m, Writes(p, true, 0)), Reads(p, false));
            t == m.(procs := t.procs, hash := m.hash.(status := Cancelled, batch := None)) && ProcOf(t, p) == Idle
  {
    var u := Do(m, Writes(p, true, 0));
    assert ProcOf(u, p) == Cleaning && u == m.(procs := u.procs, hash := m.hash.(status := Cancelled, batch := None));
  }

  lemma CancelShown(s: State, r: RideId)
    requires r in s.rides
    ensures var t := CancelExhausted(s, r);
            && r in t.rides && HashOf(t.rides[r]) == HashOf(s.rides[r]).(status := Cancelled, batch := None)
            && t.responses == s.responses && t.notified == s.notified && t.reservations == s.reservations && t.nextBatch == s.nextBatch + 1
  {
    var ride := s.rides[r];
    var over := ride.(status := Cancelled, cancellation := Some(NoDriversAvailable), batch := None, version := ride.version + 1);
    CleanupKeys(s.(rides := s.rides[r := over], nextBatch := s.nextBatch + 1, log := s.log + [StatusUpdate(r, over.version, Cancelled)]), r);
  }

  lemma CleanupKeys(s: State, r: RideId)
    requires r in s.rides
    ensures var t := CleanupTerminal(s, r);
            && t.rides == s.rides && t.responses == s.responses && t.notified == s.notified && t.nextBatch == s.nextBatch
            && t.reservations == if s.rides[r].batch.None? then s.reservations
                                 else ReleaseTokens(s.reservations, Token(r, s.rides[r].batch.value.id), s.rides[r].batch.value.drivers)
  {
    if s.rides[r].driver.Some? {
      ReleaseKeys(ClearTerminal(s, r), s.rides[r].driver.value, r);
    }
  }

  lemma ReleaseKeys(s: State, d: DriverId, r: RideId)
    ensures var t := ReleaseDriver(s, d, r);
            && t.rides == s.rides && t.responses == s.responses && t.notified == s.notified
            && t.nextBatch == s.nextBatch && t.reservations == s.reservations
  {
  }

  lemma WidenAlone(c: Config, s: State, r: RideId, round: nat, radius: real, m: Machine, p: nat) returns (cs: seq<Command>)
    requires ShowsDrawn(m, s, r) && ProcOf(m, p) == Searching(s.nextBatch, [])
    ensures AllOf(cs, p)
    ensures var t := Issued(m, cs); Shows(t, ExpandSearch(c, s, r, round, radius), r) && ProcOf(t, p) == Idle
  {
    cs := [Writes(p, false, 0)];
    assert Issued(m, cs) == Do(m, Writes(p, false, 0));
  }

  /** Up to the search: the first dispatch starts, an expired batch is closed. */
  lemma ReadyAlone(c: Config, s: State, r: RideId, m: Machine, p: nat) returns (cs: seq<Command>)
    requires Shows(m, s, r) && ProcOf(m, p) == Entered(DispatchTask)
    requires Dispatchable(s, r) && RideShape(s.rides[r], s.nextBatch) && !BatchRunning(s, r)
    ensures AllOf(cs, p)
    ensures var t := Issued(m, cs); Shows(t, ReadyToSearch(c, s, r), r) && DrawsId(ProcOf(t, p))
  {
    if s.rides[r].status == Requested {
      cs := [Reads(p, false), Writes(p, false, 0), Reads(p, false)];
      StartCommands(m, p);
      StartShown(c, s, r);
    } else {
      cs := CheckAlone(s, r, m, p);
    }
  }

  lemma CheckAlone(s: State, r: RideId, m: Machine, p: nat) returns (cs: seq<Command>)
    requires Shows(m, s, r) && ProcOf(m, p) == Entered(DispatchTask) && s.rides[r].status == Dispatching
    ensures AllOf(cs, p)
    ensures var t := Issued(m, cs); Shows(t, ExpireBatch(s, r), r) && DrawsId(ProcOf(t, p))
  {
    CheckCommand(m, p);
    if s.rides[r].batch.Some? {
      var rest := CloseAlone(Do(m, Reads(p, false)), s, r, p, ThenSearch);
      cs := [Reads(p, false)] + rest;
      assert cs[1..] == rest;
    } else {
      cs := [Reads(p, false)];
      IssuedTwo(m, Reads(p, false), Reads(p, false));
    }
  }

  lemma StartCommands(m: Machine, p: nat)
    requires ProcOf(m, p) == Entered(DispatchTask) && m.hash.status == Requested && m.hash.batch.None?
    ensures var t := Issued(m, [Reads(p, false), Writes(p, false, 0), Reads(p, false)]);
            t == m.(procs := t.procs, hash := m.hash.(status := Dispatching)) && DrawsId(ProcOf(t, p))
  {
    IssuedThree(m, Reads(p, false), Writes(p, false, 0), Reads(p, false));
    var u := Do(m, Reads(p, false));
    assert ProcOf(u, p) == Starting && u == m.(procs := u.procs);
    var v := Do(u, Writes(p, false, 0));
    assert ProcOf(v, p) == Resuming && v == m.(procs := v.procs, hash := m.hash.(status := Dispatching));
  }

  lemma StartShown(c: Config, s: State, r: RideId)
    requires r in s.rides && s.rides[r].status == Requested && s.rides[r].batch.None?
    ensures var t := ReadyToSearch(c, s, r);
            && r in t.rides && HashOf(t.rides[r]) == HashOf(s.rides[r]).(status := Dispatching)
            && t.responses == s.responses && t.notified == s.notified && t.reservations == s.reservations && t.nextBatch == s.nextBatch
  {
  }

  lemma CheckCommand(m: Machine, p: nat)
    requires ProcOf(m, p) == Entered(DispatchTask) && m.hash.status == Dispatching
    ensures var t := Do(m, Reads(p, false));
            t == m.(procs := t.procs)
            && if m.hash.batch.Some? then ProcOf(t, p) == Expiring(m.hash.batch.value, ThenSearch) else DrawsId(ProcOf(t, p))
  {
  }

  lemma LeaveCommand(m: Machine, p: nat)
    requires ProcOf(m, p) == Entered(DispatchTask) && m.hash.status != Requested
    requires m.hash.status == Dispatching ==> m.hash.batch.Some?
    ensures var t := Do(m, Reads(p, true)); t == m.(procs := t.procs) && ProcOf(t, p) == Idle
  {
  }

  lemma DispatchEntered(c: Config, s: State, r: RideId, near: seq<DriverId>, m: Machine, p: nat) returns (cs: seq<Command>)
    requires Shows(m, s, r) && ProcOf(m, p) == Entered(DispatchTask) && RideShape(s.rides[r], s.nextBatch) && Distinct(near)
    ensures AllOf(cs, p)
    ensures var t := Issued(m, cs); Shows(t, Dispatch(c, s, r, near), r) && ProcOf(t, p) == Idle
  {
    if Dispatchable(s, r) && !BatchRunning(s, r) {
      var front := ReadyAlone(c, s, r, m, p);
      var rest := SearchAlone(c, ReadyToSearch(c, s, r), r, s.rides[r].round, EntryRadius(c, s.rides[r]), near, Issued(m, front), p);
      cs := front + rest;
      IssuedBoth(m, front, rest);
      SearchingDispatch(c, s, r, near);
    } else {
      cs := [Reads(p, true)];
      IssuedTwo(m, Reads(p, true), Reads(p, true));
      NotSearching(c, s, r, near);
      LeaveCommand(m, p);
    }
  }

  lemma NotSearching(c: Config, s: State, r: RideId, near: seq<DriverId>)
    requires r in s.rides && RideShape(s.rides[r], s.nextBatch) && (Dispatchable(s, r) ==> BatchRunning(s, r))
    ensures Dispatch(c, s, r, near) == s && s.rides[r].status != Requested
    ensures s.rides[r].status == Dispatching ==> s.rides[r].batch.Some?
  {
    if Dispatchable(s, r) {
      SearchingDispatch(c, s, r, near);
    }
  }

  /** A dispatch with nothing in between. */
  lemma DispatchAlone(c: Config, s: State, r: RideId, near: seq<DriverId>, m: Machine, p: nat) returns (cs: seq<Command>)
    requires Inv(s) && Candidates(s, near) && Shows(m, s, r) && ProcOf(m, p) == Idle
    ensures Complete(m, p, DispatchTask, cs)
    ensures Shows(Issued(Do(m, Enters(p, DispatchTask)), cs), Dispatch(c, s, r, near), r)
  {
    cs := DispatchEntered(c, s, r, near, Do(m, Enters(p, DispatchTask)), p);
  }

  // ----- timeouts and rejections -----

  /** A timeout job with nothing in between. */
  lemma TimeoutAlone(c: Config, s: State, r: RideId, b: BatchId, near: seq<DriverId>, m: Machine, p: nat) returns (cs: seq<Command>)
    requires Inv(s) && Candidates(s, near) && Shows(m, s, r) && ProcOf(m, p) == Idle
    ensures Complete(m, p, TimeoutTask(b), cs)
    ensures Shows(Issued(Do(m, Enters(p, TimeoutTask(b))), cs), BatchTimeout(c, s, r, b, near), r)
  {
    cs := TimeoutEntered(c, s, r, b, near, Do(m, Enters(p, TimeoutTask(b))), p);
  }

  lemma TimeoutEntered(c: Config, s: State, r: RideId, b: BatchId, near: seq<DriverId>, m: Machine, p: nat) returns (cs: seq<Command>)
    requires Shows(m, s, r) && ProcOf(m, p) == Entered(TimeoutTask(b)) && RideShape(s.rides[r], s.nextBatch) && Distinct(near)
    ensures AllOf(cs, p)
    ensures var t := Issued(m, cs); Shows(t, BatchTimeout(c, s, r, b, near), r) && ProcOf(t, p) == Idle
  {
    var read := Do(m, Reads(p, false));
    TimeoutCommand(m, p, b);
    if s.rides[r].status == Dispatching && s.rides[r].batch.Some? && s.rides[r].batch.value.id == b {
      var rest := CloseThenDispatch(c, s, r, near, read, p);
      cs := [Reads(p, false)] + rest;
      assert cs[1..] == rest;
    } else {
      cs := [Reads(p, false)];
      IssuedTwo(m, Reads(p, false), Reads(p, false));
    }
  }

  lemma CloseThenDispatch(c: Config, s: State, r: RideId, near: seq<DriverId>, m: Machine, p: nat) returns (cs: seq<Command>)
    requires Shows(m, s, r) && RideShape(s.rides[r], s.nextBatch) && Distinct(near)
    requires s.rides[r].status == Dispatching && s.rides[r].batch.Some? && ProcOf(m, p) == Expiring(s.rides[r].batch.value, ThenDispatch)
    ensures AllOf(cs, p)
    ensures var t := Issued(m, cs); Shows(t, Dispatch(c, ExpireBatch(s, r), r, near), r) && ProcOf(t, p) == Idle
  {
    var front := CloseAlone(m, s, r, p, ThenDispatch);
    ExpiredShape(s, r);
    var rest := DispatchAfterwards(c, ExpireBatch(s, r), r, near, Issued(m, front), p);
    cs := front + rest;
    IssuedBoth(m, front, rest);
  }

  lemma ExpiredShape(s: State, r: RideId)
    requires r in s.rides && RideShape(s.rides[r], s.nextBatch)
    ensures var t := ExpireBatch(s, r); r in t.rides && RideShape(t.rides[r], t.nextBatch)
  {
  }

  lemma TimeoutCommand(m: Machine, p: nat, b: BatchId)
    requires ProcOf(m, p) == Entered(TimeoutTask(b))
    ensures var t := Do(m, Reads(p, false));
            && t == m.(procs := t.procs)
            && ProcOf(t, p) == if m.hash.status == Dispatching && m.hash.batch.Some? && m.hash.batch.value.id == b
                               then Expiring(m.hash.batch.value, ThenDispatch) else Idle
  {
  }

  /** The dispatch that follows the releases of a timeout job or of a rejection. */
  lemma DispatchAfterwards(c: Config, s: State, r: RideId, near: seq<DriverId>, m: Machine, p: nat) returns (cs: seq<Command>)
    requires Shows(m, s, r) && RideShape(s.rides[r], s.nextBatch) && Distinct(near)
    requires ProcOf(m, p).Releasing? && ProcOf(m, p) == Releasing(ProcOf(m, p).id, [], ThenDispatch)
    ensures AllOf(cs, p)
    ensures var t := Issued(m, cs); Shows(t, Dispatch(c, s, r, near), r) && ProcOf(t, p) == Idle
  {
    var read := Do(m, Reads(p, false));
    assert ProcOf(read, p) == Entered(DispatchTask) && read == m.(procs := read.procs);
    var rest := DispatchEntered(c, s, r, near, read, p);
    cs := [Reads(p, false)] + rest;
    assert cs[1..] == rest;
  }

  /** A rejection with nothing in between. */
  lemma RejectAlone(c: Config, s: State, r: RideId, d: DriverId, reason: string, near: seq<DriverId>, m: Machine, p: nat)
    returns (cs: seq<Command>)
    requires Inv(s) && Candidates(s, near) && Shows(m, s, r) && ProcOf(m, p) == Idle
    ensures Complete(m, p, RejectTask(d, reason), cs)
    ensures Shows(Issued(Do(m, Enters(p, RejectTask(d, reason))), cs), Reject(c, s, r, d, reason, near), r)
  {
    cs := RejectionEntered(c, s, r, d, reason, near, Do(m, Enters(p, RejectTask(d, reason))), p);
  }

  lemma RejectionEntered(c: Config, s: State, r: RideId, d: DriverId, reason: string, near: seq<DriverId>, m: Machine, p: nat)
    returns (cs: seq<Command>)
    requires Shows(m, s, r) && RideShape(s.rides[r], s.nextBatch) && Distinct(near) && ProcOf(m, p) == Entered(RejectTask(d, reason))
    ensures AllOf(cs, p)
    ensures var t := Issued(m, cs); Shows(t, Reject(c, s, r, d, reason, near), r) && ProcOf(t, p) == Idle
  {
    if CanReject(s, r, d) {
      cs := RejectEntered(c, s, r, d, reason, near, m, p);
    } else {
      cs := [Reads(p, false), Reads(p, false)];
      RefusedCommands(m, p, d, reason);
    }
  }

  lemma RefusedCommands(m: Machine, p: nat, d: DriverId, reason: string)
    requires ProcOf(m, p) == Entered(RejectTask(d, reason))
    requires m.hash.status != Dispatching || d !in m.responses || m.responses[d] == Won || m.responses[d] == Declined("")
    ensures var t := Issued(m, [Reads(p, false), Reads(p, false)]); t == m.(procs := t.procs) && ProcOf(t, p) == Idle
  {
    IssuedTwo(m, Reads(p, false), Reads(p, false));
    var read := Do(m, Reads(p, false));
    assert read == m.(procs := read.procs) && (ProcOf(read, p) == Idle || ProcOf(read, p) == Refusing(m.hash.batch, d, reason));
  }

  lemma DeclineCommands(m: Machine, p: nat, d: DriverId, reason: string) returns (t: Machine, exhausted: bool)
    requires ProcOf(m, p) == Entered(RejectTask(d, reason)) && m.hash.status == Dispatching
    requires d in m.responses && m.responses[d] != Won && m.responses[d] != Declined("")
    ensures t == Do(Do(Do(m, Reads(p, false)), Reads(p, false)), Writes(p, false, 0))
    ensures exhausted == Exhausted(m.hash.batch, m.responses, d)
    ensures t == m.(procs := t.procs, responses := m.responses[d := Declined(reason)],
                    hash := m.hash.(batch := if exhausted then None else m.hash.batch))
    ensures ProcOf(t, p) == ReleasingOne(m.hash.batch, d, exhausted)
  {
    exhausted := Exhausted(m.hash.batch, m.responses, d);
    var read := Do(m, Reads(p, false));
    assert ProcOf(read, p) == Refusing(m.hash.batch, d, reason) && read == m.(procs := read.procs);
    var asked := Do(read, Reads(p, false));
    assert ProcOf(asked, p) == Declining(m.hash.batch, m.responses, d, reason) && asked == m.(procs := asked.procs);
    t := Do(asked, Writes(p, false, 0));
  }

  lemma ReleaseOneCommand(m: Machine, p: nat, current: Option<Batch>, d: DriverId, exhausted: bool)
    requires ProcOf(m, p) == ReleasingOne(current, d, exhausted) && (current.None? ==> exhausted)
    ensures var t := Do(m, Writes(p, false, 0));
            && t == m.(procs := t.procs, reservations := if current.None? then m.reservations else CompareDelete(m.reservations, d, current.value.id))
            && ProcOf(t, p) == if !exhausted then Idle else if current.None? then Entered(DispatchTask)
                               else Releasing(current.value.id, current.value.drivers, ThenDispatch)
  {
  }

  lemma RejectEntered(c: Config, s: State, r: RideId, d: DriverId, reason: string, near: seq<DriverId>, m: Machine, p: nat)
    returns (cs: seq<Command>)
    requires Shows(m, s, r) && RideShape(s.rides[r], s.nextBatch) && Distinct(near) && CanReject(s, r, d)
    requires ProcOf(m, p) == Entered(RejectTask(d, reason))
    ensures AllOf(cs, p)
    ensures var t := Issued(m, cs); Shows(t, Reject(c, s, r, d, reason, near), r) && ProcOf(t, p) == Idle
  {
    var declined, exhausted := DeclineCommands(m, p, d, reason);
    SameExhausted(m, s, r, d);
    var rest := RejectionReleases(c, s, r, d, reason, near, m, declined, p);
    cs := [Reads(p, false), Reads(p, false), Writes(p, false, 0)] + rest;
    IssuedThree(m, Reads(p, false), Reads(p, false), Writes(p, false, 0));
    IssuedBoth(m, [Reads(p, false), Reads(p, false), Writes(p, false, 0)], rest);
  }

  lemma SameExhausted(m: Machine, s: State, r: RideId, d: DriverId)
    requires Shows(m, s, r)
    ensures Exhausted(m.hash.batch, m.responses, d) == BatchExhausted(s, r, d)
  {
  }

  /** After the answer: the driver's token, if nobody is left the others' tokens, and the next dispatch. */
  lemma RejectionReleases(c: Config, s: State, r: RideId, d: DriverId, reason: string, near: seq<DriverId>, m: Machine, t: Machine, p: nat)
    returns (cs: seq<Command>)
    requires Shows(m, s, r) && RideShape(s.rides[r], s.nextBatch) && Distinct(near) && CanReject(s, r, d)
    requires t == m.(procs := t.procs, responses := m.responses[d := Declined(reason)],
                     hash := m.hash.(batch := if BatchExhausted(s, r, d) then None else m.hash.batch))
    requires ProcOf(t, p) == ReleasingOne(m.hash.batch, d, BatchExhausted(s, r, d))
    ensures AllOf(cs, p)
    ensures var u := Issued(t, cs); Shows(u, Reject(c, s, r, d, reason, near), r) && ProcOf(u, p) == Idle
  {
    var v := RecordRejection(c, s, r, d, reason);
    var one := Do(t, Writes(p, false, 0));
    ReleaseOneCommand(t, p, m.hash.batch, d, BatchExhausted(s, r, d));
    RecordedShape(c, s, r, d, reason);
    if !BatchExhausted(s, r, d) {
      cs := [Writes(p, false, 0)];
      IssuedTwo(t, Writes(p, false, 0), Writes(p, false, 0));
      OneReleased(m.reservations, s.reservations, r, s.rides[r].batch.value.id, d);
      RejectionShown(c, s, r, d, reason, m, one);
    } else if s.rides[r].batch.None? {
      RejectionShown(c, s, r, d, reason, m, one);
      var rest := DispatchEntered(c, v, r, near, one, p);
      cs := [Writes(p, false, 0)] + rest;
      assert cs[1..] == rest;
    } else {
      var rest := OthersReleased(c, s, r, d, reason, near, m, one, p);
      cs := [Writes(p, false, 0)] + rest;
      assert cs[1..] == rest;
    }
  }

  lemma OthersReleased(c: Config, s: State, r: RideId, d: DriverId, reason: string, near: seq<DriverId>, m: Machine, t: Machine, p: nat)
    returns (cs: seq<Command>)
    requires Shows(m, s, r) && Distinct(near) && CanReject(s, r, d)
    requires s.rides[r].batch.Some? && BatchExhausted(s, r, d)
    requires var v := RecordRejection(c, s, r, d, reason); RideShape(v.rides[r], v.nextBatch)
    requires t == m.(procs := t.procs, responses := m.responses[d := Declined(reason)], hash := m.hash.(batch := None),
                     reservations := CompareDelete(m.reservations, d, s.rides[r].batch.value.id))
    requires ProcOf(t, p) == Releasing(s.rides[r].batch.value.id, s.rides[r].batch.value.drivers, ThenDispatch)
    ensures AllOf(cs, p)
    ensures var u := Issued(t, cs); Shows(u, Dispatch(c, RecordRejection(c, s, r, d, reason), r, near), r) && ProcOf(u, p) == Idle
  {
    var b := s.rides[r].batch.value;
    var front := ReleaseEach(t, p, b.id, b.drivers, ThenDispatch);
    var all := Issued(t, front);
    AllReleased(m.reservations, all.reservations, s.reservations, r, b.id, d, b.drivers);
    RejectionShown(c, s, r, d, reason, m, all);
    var rest := DispatchAfterwards(c, RecordRejection(c, s, r, d, reason), r, near, all, p);
    cs := front + rest;
    IssuedBoth(t, front, rest);
  }

  lemma RecordedShape(c: Config, s: State, r: RideId, d: DriverId, reason: string)
    requires r in s.rides && RideShape(s.rides[r], s.nextBatch)
    ensures var t := RecordRejection(c, s, r, d, reason); r in t.rides && RideShape(t.rides[r], t.nextBatch)
  {
  }

  lemma OneReleased(holders: map<DriverId, Holder>, tokens: map<DriverId, Token>, r: RideId, b: BatchId, d: DriverId)
    requires ShowsHolders(holders, tokens, r)
    ensures ShowsHolders(CompareDelete(holders, d, b), ReleaseTokens(tokens, Token(r, b), [d]), r)
  {
  }

  lemma AllReleased(holders: map<DriverId, Holder>, left: map<DriverId, Holder>, tokens: map<DriverId, Token>, r: RideId, b: BatchId,
                    d: DriverId, ds: seq<DriverId>)
    requires ShowsHolders(holders, tokens, r)
    requires var once := CompareDelete(holders, d, b);
             forall e: DriverId :: (e in left <==> e in once && !(e in ds && once[e] == Ours(b))) && (e in left ==> left[e] == once[e])
    ensures ShowsHolders(left, ReleaseTokens(tokens, Token(r, b), [d] + ds), r)
  {
  }

  lemma RejectionShown(c: Config, s: State, r: RideId, d: DriverId, reason: string, m: Machine, t: Machine)
    requires Shows(m, s, r) && CanReject(s, r, d)
    requires t.responses == m.responses[d := Declined(reason)] && t.notified == m.notified && t.nextBatch == m.nextBatch
    requires t.hash == m.hash.(batch := if BatchExhausted(s, r, d) then None else m.hash.batch)
    requires ShowsHolders(t.reservations, RecordRejection(c, s, r, d, reason).reservations, r)
    ensures Shows(t, RecordRejection(c, s, r, d, reason), r)
  {
    ShowsAnswer(m.responses, s.responses, r, d, Declined(reason));
  }

  lemma ShowsAnswer(ours: map<DriverId, Response>, all: map<Offer, Response>, r: RideId, d: DriverId, answer: Response)
    requires ShowsResponses(ours, all, r)
    ensures ShowsResponses(ours[d := answer], all[Offer(d, r) := answer], r)
  {
  }

  // ----- transitions -----

  /** A transition with nothing in between. */
  lemma MoveAlone(s: State, r: RideId, next: RideStatus, m: Machine, p: nat) returns (cs: seq<Command>)
    requires Shows(m, s, r) && ProcOf(m, p) == Idle && next != Dispatching && next != Accepted
    ensures Complete(m, p, MoveTask(next), cs)
    ensures Shows(Issued(Do(m, Enters(p, MoveTask(next))), cs), Transition(s, r, next), r)
  {
    cs := MoveEntered(s, r, next, Do(m, Enters(p, MoveTask(next))), p);
  }

  lemma MoveEntered(s: State, r: RideId, next: RideStatus, m: Machine, p: nat) returns (cs: seq<Command>)
    requires Shows(m, s, r) && ProcOf(m, p) == Entered(MoveTask(next)) && next != Dispatching && next != Accepted
    ensures AllOf(cs, p)
    ensures var t := Issued(m, cs); Shows(t, Transition(s, r, next), r) && ProcOf(t, p) == Idle
  {
    if !CanTransition(s, r, next) {
      cs := [Reads(p, false)];
      IssuedTwo(m, Reads(p, false), Reads(p, false));
      RefusesMove(s.rides[r].status);
    } else {
      var moved := Do(Do(m, Reads(p, false)), Writes(p, false, 0));
      MoveCommands(m, p, next);
      IssuedTwo(m, Reads(p, false), Writes(p, false, 0));
      var rest := [];
      if Terminal(next) {
        rest := MoveCleans(s, r, next, moved, p);
      }
      cs := [Reads(p, false), Writes(p, false, 0)] + rest;
      IssuedBoth(m, [Reads(p, false), Writes(p, false, 0)], rest);
    }
  }

  lemma RefusesMove(status: RideStatus)
    ensures status !in RideTransitions(status)
  {
  }

  lemma MoveCommands(m: Machine, p: nat, next: RideStatus)
    requires ProcOf(m, p) == Entered(MoveTask(next)) && next in RideTransitions(m.hash.status) && next != Dispatching && next != Accepted
    ensures var t := Do(Do(m, Reads(p, false)), Writes(p, false, 0));
            && t == m.(procs := t.procs, hash := m.hash.(status := next))
            && ProcOf(t, p) == if Terminal(next) then Cleaning else Idle
  {
    var read := Do(m, Reads(p, false));
    assert ProcOf(read, p) == Moving(next) && read == m.(procs := read.procs);
  }

  /** The clean-up of a ride that is over: the tokens of its batch, if it still has one. */
  lemma MoveCleans(s: State, r: RideId, next: RideStatus, m: Machine, p: nat) returns (cs: seq<Command>)
    requires CanTransition(s, r, next) && Terminal(next) && ProcOf(m, p) == Cleaning
    requires m.hash == HashOf(s.rides[r]).(status := next) && Shows(m.(hash := HashOf(s.rides[r])), s, r)
    ensures AllOf(cs, p)
    ensures var t := Issued(m, cs); Shows(t, Transition(s, r, next), r) && ProcOf(t, p) == Idle
  {
    var read := Do(m, Reads(p, false));
    CleanCommand(m, p);
    EndKeys(s, r, next);
    if s.rides[r].batch.Some? {
      var b := s.rides[r].batch.value;
      var front := ReleaseEach(read, p, b.id, b.drivers, ThenStop);
      var done := Issued(read, front);
      ShowsReleased(read, done, s, r, b.id, b.drivers);
      cs := [Reads(p, false)] + (front + [Reads(p, false)]);
      assert cs[1..] == front + [Reads(p, false)];
      IssuedBoth(read, front, [Reads(p, false)]);
      IssuedTwo(done, Reads(p, false), Reads(p, false));
      StopCommand(done, p, b.id);
    } else {
      cs := [Reads(p, false)];
      IssuedTwo(m, Reads(p, false), Reads(p, false));
    }
  }

  lemma CleanCommand(m: Machine, p: nat)
    requires ProcOf(m, p) == Cleaning
    ensures var t := Do(m, Reads(p, false));
            && t == m.(procs := t.procs)
            && ProcOf(t, p) == if m.hash.batch.Some? then Releasing(m.hash.batch.value.id, m.hash.batch.value.drivers, ThenStop) else Idle
  {
  }

  lemma StopCommand(m: Machine, p: nat, b: BatchId)
    requires ProcOf(m, p) == Releasing(b, [], ThenStop)
    ensures var t := Do(m, Reads(p, false)); t == m.(procs := t.procs) && ProcOf(t, p) == Idle
  {
  }

  lemma EndKeys(s: State, r: RideId, next: RideStatus)
    requires CanTransition(s, r, next) && Terminal(next)
    ensures var t := Transition(s, r, next);
            && r in t.rides && HashOf(t.rides[r]) == HashOf(s.rides[r]).(status := next)
            && t.responses == s.responses && t.notified == s.notified && t.nextBatch == s.nextBatch
            && t.reservations == if s.rides[r].batch.None? then s.reservations
                                 else ReleaseTokens(s.reservations, Token(r, s.rides[r].batch.value.id), s.rides[r].batch.value.drivers)
  {
    CleanupKeys(Moved(s, r, next), r);
  }

  // ----- accept calls -----

  predicate OfAccept(command: Command, k: nat) {
    (command.CallReads? || command.CallScript? || command.CallReleases?) && command.call == k
  }

  /** Accept call `k` issues `commands`, from its read to its last release or its refusal. */
  ghost predicate CompleteAccept(m: Machine, k: nat, commands: seq<Command>) {
    && k !in m.calls && (forall i :: 0 <= i < |commands| ==> OfAccept(commands[i], k))
    && var t := Issued(m, commands);
       k in t.calls && (t.calls[k].Refused? || (t.calls[k].HasWon? && t.calls[k].left == []))
  }

  /** ONLINE, and on no other ride. */
  predicate IsFree(s: State, d: DriverId, r: RideId) {
    d in s.drivers && s.drivers[d].status == Online && (d in s.activeKey ==> s.activeKey[d] == r)
  }

  /** An accept call with nothing in between. */
  lemma AcceptAlone(s: State, r: RideId, d: DriverId, m: Machine, k: nat) returns (cs: seq<Command>)
    requires Shows(m, s, r) && k !in m.calls
    ensures CompleteAccept(m, k, cs) && |cs| >= 2 && cs[..2] == [CallReads(k, d, s.now), CallScript(k, IsFree(s, d, r))]
    ensures Shows(Issued(m, cs), Accept(s, r, d), r)
  {
    var read := Do(m, CallReads(k, d, s.now));
    var tried := Do(read, CallScript(k, IsFree(s, d, r)));
    IssuedTwo(m, CallReads(k, d, s.now), CallScript(k, IsFree(s, d, r)));
    PassesAlike(m, s, r, d);
    if AcceptCode(s, r, d, s.now, TokenOf(r, m.hash.batch)) != 0 {
      cs := [CallReads(k, d, s.now), CallScript(k, IsFree(s, d, r))];
    } else {
      var rest := SettleAlone(s, r, d, m, tried, k);
      cs := [CallReads(k, d, s.now), CallScript(k, IsFree(s, d, r))] + rest;
      IssuedBoth(m, [CallReads(k, d, s.now), CallScript(k, IsFree(s, d, r))], rest);
    }
  }

  lemma PassesAlike(m: Machine, s: State, r: RideId, d: DriverId)
    requires Shows(m, s, r)
    ensures ScriptPasses(m, HasRead(d, m.hash.batch, s.now), IsFree(s, d, r)) <==> AcceptCode(s, r, d, s.now, TokenOf(r, m.hash.batch)) == 0
  {
  }

  lemma SettleAlone(s: State, r: RideId, d: DriverId, m: Machine, t: Machine, k: nat) returns (cs: seq<Command>)
    requires Shows(m, s, r) && AcceptCode(s, r, d, s.now, TokenOf(r, m.hash.batch)) == 0 && k in t.calls
    requires var b := m.hash.batch.value;
             && t == m.(calls := t.calls, wins := t.wins, hash := Hash(Accepted, Some(d), None), responses := m.responses[d := Won],
                        reservations := m.reservations - {d})
             && t.calls[k] == HasWon(b.id, Without(b.drivers, d))
    ensures forall i :: 0 <= i < |cs| ==> OfAccept(cs[i], k)
    ensures var u := Issued(t, cs);
            && k in u.calls && u.calls[k].HasWon? && u.calls[k].left == [] && Shows(u, Accept(s, r, d), r)
  {
    var b := s.rides[r].batch.value;
    cs := ReleaseLosers(t, k, b.id, Without(b.drivers, d));
    AcceptKeys(s, r, d);
    ShowsAnswer(m.responses, s.responses, r, d, Won);
    LosersReleased(m.reservations, Issued(t, cs).reservations, s.reservations, r, b, d);
  }

  lemma {:induction false} ReleaseLosers(m: Machine, k: nat, b: BatchId, left: seq<DriverId>) returns (cs: seq<Command>)
    requires k in m.calls && m.calls[k] == HasWon(b, left)
    ensures forall i :: 0 <= i < |cs| ==> OfAccept(cs[i], k)
    ensures var t := Issued(m, cs);
            && t == m.(calls := t.calls, reservations := t.reservations) && k in t.calls && t.calls[k] == HasWon(b, [])
            && forall d: DriverId ::
                 && (d in t.reservations <==> d in m.reservations && !(d in left && m.reservations[d] == Ours(b)))
                 && (d in t.reservations ==> t.reservations[d] == m.reservations[d])
    decreases |left|
  {
    if left == [] {
      cs := [];
    } else {
      var rest := ReleaseLosers(Do(m, CallReleases(k)), k, b, left[1..]);
      cs := [CallReleases(k)] + rest;
      assert cs[1..] == rest;
    }
  }

  lemma AcceptKeys(s: State, r: RideId, d: DriverId)
    requires r in s.rides && AcceptCode(s, r, d, s.now, TokenOf(r, s.rides[r].batch)) == 0
    ensures var t, b := Accept(s, r, d), s.rides[r].batch.value;
            && r in t.rides && HashOf(t.rides[r]) == Hash(Accepted, Some(d), None)
            && t.responses == s.responses[Offer(d, r) := Won] && t.notified == s.notified && t.nextBatch == s.nextBatch
            && t.reservations == ReleaseTokens(s.reservations - {d}, Token(r, b.id), Others(b, d))
  {
  }

  lemma LosersReleased(holders: map<DriverId, Holder>, left: map<DriverId, Holder>, tokens: map<DriverId, Token>, r: RideId, b: Batch, d: DriverId)
    requires ShowsHolders(holders, tokens, r)
    requires var rest := holders - {d};
             forall e: DriverId :: (e in left <==> e in rest && !(e in Without(b.drivers, d) && rest[e] == Ours(b.id))) && (e in left ==> left[e] == rest[e])
    ensures ShowsHolders(left, ReleaseTokens(tokens - {d}, Token(r, b.id), Others(b, d)), r)
  {
  }
}
