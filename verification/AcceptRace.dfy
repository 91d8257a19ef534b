/**
 * One ride, command by command. Every locked call is broken into its Redis commands (a MULTI or a script is one command),
 * and the commands of accept calls, locked calls and the environment interleave freely.
 */
module AcceptRace {
  import opened Wrappers
  import opened Types
  import opened Lifecycle

  /** The fields of the ride hash that matter for acceptance. */
  datatype Hash = Hash(status: RideStatus, driver: Option<DriverId>, batch: Option<Batch>)

  /** A driver's reservation: the token of a batch of this ride, or anything else. */
  datatype Holder = Ours(of: BatchId) | Foreign

  /** An accept call: after its read, after a successful script with the losers it still has to release, or refused. */
  datatype Call = HasRead(driver: DriverId, seen: Option<Batch>, at: int) | HasWon(batch: BatchId, left: seq<DriverId>) | Refused

  /** What a locked call goes on to do when its releases are done. */
  datatype After = ThenSearch | ThenDispatch | ThenStop

  datatype Task = DispatchTask | TimeoutTask(batch: BatchId) | RejectTask(driver: DriverId, reason: string) | MoveTask(next: RideStatus)

  /** Where a locked call stands, with what it has read so far. */
  datatype Proc =
    | Idle
    | Entered(task: Task)
    | Starting
    | Resuming
    | Expiring(record: Batch, after: After)
    | Closing(record: Batch, answers: map<DriverId, Response>, after: After)
    | Releasing(id: BatchId, left: seq<DriverId>, after: After)
    | Searching(id: BatchId, chosen: seq<DriverId>)
    | Refusing(current: Option<Batch>, driver: DriverId, reason: string)
    | Declining(current: Option<Batch>, answers: map<DriverId, Response>, driver: DriverId, reason: string)
    | ReleasingOne(current: Option<Batch>, driver: DriverId, exhausted: bool)
    | Moving(next: RideStatus)
    | Cleaning

  /** A script that committed: what its call had read, and what was current. */
  datatype Win = Win(driver: DriverId, seen: Option<Batch>, live: Option<Batch>)

  datatype Machine = Machine(
    hash: Hash,
    responses: map<DriverId, Response>,
    notified: set<DriverId>,
    reservations: map<DriverId, Holder>,
    procs: map<nat, Proc>,
    calls: map<nat, Call>,
    nextBatch: nat,
    sent: map<BatchId, Batch>,
    wins: seq<Win>)

  datatype Command =
    | CallReads(call: nat, caller: DriverId, at: int)
    | CallScript(call: nat, driverFree: bool)
    | CallReleases(call: nat)
    | Enters(proc: nat, task: Task)
    | Reads(proc: nat, running: bool)
    | Writes(proc: nat, giveUp: bool, expiresAt: int)
    | Reserves(proc: nat, candidate: DriverId)
    | ReservedElsewhere(driver: DriverId)
    | ReservationGone(driver: DriverId)

  function ProcOf(m: Machine, p: nat): Proc {
    if p in m.procs then m.procs[p] else Idle
  }

  function Go(m: Machine, p: nat, proc: Proc): Machine {
    m.(procs := m.procs[p := proc])
  }

  function CompareDelete(reservations: map<DriverId, Holder>, d: DriverId, b: BatchId): map<DriverId, Holder> {
    if d in reservations && reservations[d] == Ours(b) then reservations - {d} else reservations
  }

  function TimedOutNow(responses: map<DriverId, Response>, answers: map<DriverId, Response>, b: Batch): map<DriverId, Response> {
    responses + (map d | d in answers && d in b.drivers && answers[d] == Pending(b.id) :: TimedOut)
  }

  /** Where a locked call stands after reading the ride hash or the responses. */
  function AfterRead(m: Machine, proc: Proc, running: bool): Proc {
    match proc
    case Entered(DispatchTask) =>
      if m.hash.status == Requested then Starting
      else if m.hash.status == Dispatching then AfterBatchCheck(m, running)
      else Idle
    case Resuming => AfterBatchCheck(m, running)
    case Entered(TimeoutTask(b)) =>
      if m.hash.status == Dispatching && m.hash.batch.Some? && m.hash.batch.value.id == b
      then Expiring(m.hash.batch.value, ThenDispatch) else Idle
    case Entered(RejectTask(d, reason)) => if m.hash.status == Dispatching then Refusing(m.hash.batch, d, reason) else Idle
    case Entered(MoveTask(next)) =>
      if next in RideTransitions(m.hash.status) && next != Dispatching && next != Accepted then Moving(next) else Idle
    case Expiring(b, after) => Closing(b, m.responses, after)
    case Refusing(current, d, reason) =>
      if d in m.responses && m.responses[d] != Won && m.responses[d] != Declined("") then Declining(current, m.responses, d, reason) else Idle
    case Cleaning =>
      if m.hash.batch.Some? then Releasing(m.hash.batch.value.id, m.hash.batch.value.drivers, ThenStop) else Idle
    case Releasing(_, left, after) =>
      if left != [] then proc
      else if after == ThenSearch then Searching(m.nextBatch, [])
      else if after == ThenDispatch then Entered(DispatchTask)
      else Idle
    case _ => proc
  }

  /** No status check here: this part of a dispatch only looks at the batch. */
  function AfterBatchCheck(m: Machine, running: bool): Proc {
    if m.hash.status == Dispatching && m.hash.batch.Some?
    then if running then Idle else Expiring(m.hash.batch.value, ThenSearch)
    else Releasing(0, [], ThenSearch)
  }

  predicate DrawsId(proc: Proc) {
    proc.Releasing? && proc.left == [] && proc.after == ThenSearch
  }

  function ReadBy(m: Machine, p: nat, running: bool): Machine {
    var proc := ProcOf(m, p);
    Go(m, p, AfterRead(m, proc, running)).(nextBatch := if DrawsId(proc) then m.nextBatch + 1 else m.nextBatch)
  }

  predicate Exhausted(batch: Option<Batch>, answers: map<DriverId, Response>, d: DriverId) {
    batch.Some? ==>
      forall e | e in batch.value.drivers :: e == d || e !in answers || answers[e] != Pending(batch.value.id)
  }

  /** The next write of a locked call. */
  function Written(m: Machine, proc: Proc, giveUp: bool, expiresAt: int): (t: Machine)
    ensures t.hash.driver == m.hash.driver && t.wins == m.wins && t.calls == m.calls
    ensures t.procs == m.procs && t.nextBatch == m.nextBatch
  {
    match proc
    case Starting => m.(hash := m.hash.(status := Dispatching))
    case Closing(b, answers, _) =>
      m.(hash := m.hash.(batch := None), responses := TimedOutNow(m.responses, answers, b))
    case Releasing(b, left, _) =>
      if left == [] then m else m.(reservations := CompareDelete(m.reservations, left[0], b))
    case Searching(b, chosen) =>
      if chosen == [] then m.(hash := m.hash.(status := if giveUp then Cancelled else m.hash.status, batch := None))
      else
        m.(hash := m.hash.(batch := Some(Batch(b, chosen, expiresAt))),
           sent := m.sent[b := Batch(b, chosen, expiresAt)],
           responses := m.responses + (map d | d in chosen :: Pending(b)),
           notified := m.notified + (set d | d in chosen))
    case Declining(current, answers, d, reason) =>
      m.(hash := m.hash.(batch := if Exhausted(current, answers, d) then None else current),
         responses := m.responses[d := Declined(reason)])
    case ReleasingOne(current, d, _) =>
      if current.None? then m else m.(reservations := CompareDelete(m.reservations, d, current.value.id))
    case Moving(next) => m.(hash := m.hash.(status := next))
    case _ => m
  }

  function AfterWrite(proc: Proc, giveUp: bool): Proc {
    match proc
    case Starting => Resuming
    case Closing(b, _, after) => Releasing(b.id, b.drivers, after)
    case Releasing(b, left, after) => if left == [] then proc else Releasing(b, left[1..], after)
    case Searching(_, chosen) => if chosen == [] && giveUp then Cleaning else Idle
    case Declining(current, answers, d, _) => ReleasingOne(current, d, Exhausted(current, answers, d))
    case ReleasingOne(current, _, exhausted) =>
      if !exhausted then Idle
      else if current.None? then Entered(DispatchTask)
      else Releasing(current.value.id, current.value.drivers, ThenDispatch)
    case Moving(next) => if Terminal(next) then Cleaning else Idle
    case _ => proc
  }

  function WriteBy(m: Machine, p: nat, giveUp: bool, expiresAt: int): Machine {
    Go(Written(m, ProcOf(m, p), giveUp, expiresAt), p, AfterWrite(ProcOf(m, p), giveUp))
  }

  predicate ScriptPasses(m: Machine, call: Call, driverFree: bool)
    requires call.HasRead?
  {
    && m.hash.status == Dispatching
    && m.hash.driver.None?
    && m.hash.batch.Some?
    && m.hash.batch.value.expiresAt >= call.at
    && call.driver in m.notified
    && call.driver in m.responses && m.responses[call.driver] == Pending(m.hash.batch.value.id)
    && call.seen.Some? && call.driver in m.reservations && m.reservations[call.driver] == Ours(call.seen.value.id)
    && driverFree
  }

  function Without(ds: seq<DriverId>, d: DriverId): seq<DriverId> {
    Filter((e: DriverId) => e != d, ds)
  }

  function RunScript(m: Machine, k: nat, driverFree: bool): Machine {
    if k !in m.calls || !m.calls[k].HasRead? then m
    else if !ScriptPasses(m, m.calls[k], driverFree) then m.(calls := m.calls[k := Refused])
    else
      var call := m.calls[k];
      m.(hash := Hash(Accepted, Some(call.driver), None),
         responses := m.responses[call.driver := Won],
         reservations := m.reservations - {call.driver},
         calls := m.calls[k := HasWon(call.seen.value.id, Without(call.seen.value.drivers, call.driver))],
         wins := m.wins + [Win(call.driver, call.seen, m.hash.batch)])
  }

  /** One command. A command that does not fit the state changes nothing. */
  function Do(m: Machine, command: Command): Machine {
    match command
    case CallReads(k, d, at) => if k in m.calls then m else m.(calls := m.calls[k := HasRead(d, m.hash.batch, at)])
    case CallScript(k, driverFree) => RunScript(m, k, driverFree)
    case CallReleases(k) =>
      if k !in m.calls || !m.calls[k].HasWon? || m.calls[k].left == [] then m
      else m.(reservations := CompareDelete(m.reservations, m.calls[k].left[0], m.calls[k].batch),
              calls := m.calls[k := HasWon(m.calls[k].batch, m.calls[k].left[1..])])
    case Enters(p, task) => if ProcOf(m, p) == Idle then Go(m, p, Entered(task)) else m
    case Reads(p, running) => ReadBy(m, p, running)
    case Writes(p, giveUp, expiresAt) => WriteBy(m, p, giveUp, expiresAt)
    case Reserves(p, d) =>
      var proc := ProcOf(m, p);
      if proc.Searching? && d !in m.reservations && d !in proc.chosen
      then Go(m, p, Searching(proc.id, proc.chosen + [d])).(reservations := m.reservations[d := Ours(proc.id)])
      else m
    case ReservedElsewhere(d) => if d in m.reservations then m else m.(reservations := m.reservations[d := Foreign])
    case ReservationGone(d) => m.(reservations := m.reservations - {d})
  }

  /** A ride that has just been requested. */
  function Created(): Machine {
    Machine(Hash(Requested, None, None), map[], {}, map[], map[], map[], 1, map[], [])
  }

  ghost predicate IsTrace(ms: seq<Machine>, commands: seq<Command>) {
    && |ms| == |commands| + 1 && ms[0] == Created()
    && forall i :: 0 <= i < |commands| ==> ms[i + 1] == Do(ms[i], commands[i])
  }

  // ----- at most one winner, with no lock at all -----

  /** The driver field records the winner, and there is at most one. */
  predicate OneWinner(m: Machine) {
    if m.wins == [] then m.hash.driver.None? else |m.wins| == 1 && m.hash.driver == Some(m.wins[0].driver)
  }

  /** Only the script writes the driver field, and it counts each time it does. */
  lemma OnlyTheScriptAssigns(m: Machine, command: Command)
    ensures var t := Do(m, command);
            || (t.wins == m.wins && t.hash.driver == m.hash.driver)
            || (&& command.CallScript? && m.hash.driver.None? && |t.wins| == |m.wins| + 1
                && t.wins[..|m.wins|] == m.wins && t.hash.driver == Some(t.wins[|m.wins|].driver))
  {
  }

  lemma {:induction false} AtMostOneWinner(ms: seq<Machine>, commands: seq<Command>, i: nat)
    requires IsTrace(ms, commands) && i < |ms|
    ensures OneWinner(ms[i])
  {
    if i > 0 {
      AtMostOneWinner(ms, commands, i - 1);
      OnlyTheScriptAssigns(ms[i - 1], commands[i - 1]);
    }
  }

  /** Once set, the driver field never changes. */
  lemma {:induction false} DriverWrittenOnce(ms: seq<Machine>, commands: seq<Command>, i: nat, j: nat)
    requires IsTrace(ms, commands) && i <= j < |ms| && ms[i].hash.driver.Some?
    ensures ms[j].hash.driver == ms[i].hash.driver
    decreases j
  {
    if i < j {
      DriverWrittenOnce(ms, commands, i, j - 1);
      OnlyTheScriptAssigns(ms[j - 1], commands[j - 1]);
    }
  }

  /** What was reserved and still is has the same holder, and a reservation for another ride is still there, unless it is `gone`. */
  predicate Stands(before: map<DriverId, Holder>, after: map<DriverId, Holder>, d: DriverId, gone: bool) {
    d in before ==>
      && (d in after ==> after[d] == before[d])
      && (before[d] == Foreign && !gone ==> d in after)
  }

  /** Nobody replaces a reservation: it stays until it is released, and one for another ride until it goes by itself. */
  lemma ReservationsStand(ms: seq<Machine>, commands: seq<Command>, i: nat, d: DriverId)
    requires IsTrace(ms, commands) && i < |commands|
    ensures Stands(ms[i].reservations, ms[i + 1].reservations, d, commands[i] == ReservationGone(d))
  {
    assert ms[i + 1] == Do(ms[i], commands[i]);
    CommandStands(ms[i], commands[i], d);
  }

  lemma CommandStands(m: Machine, command: Command, d: DriverId)
    ensures Stands(m.reservations, Do(m, command).reservations, d, command == ReservationGone(d))
  {
    match command
    case CallScript(k, driverFree) => ScriptStands(m, k, driverFree, d);
    case Writes(p, giveUp, expiresAt) => WriteStands(m, ProcOf(m, p), giveUp, expiresAt, d);
    case _ =>
  }

  lemma ScriptStands(m: Machine, k: nat, driverFree: bool, d: DriverId)
    ensures Stands(m.reservations, RunScript(m, k, driverFree).reservations, d, false)
  {
  }

  lemma WriteStands(m: Machine, proc: Proc, giveUp: bool, expiresAt: int, d: DriverId)
    ensures Stands(m.reservations, Written(m, proc, giveUp, expiresAt).reservations, d, false)
  {
  }

  // ----- a winner commits in the batch it read, given only that the ride lock excludes other locked calls -----

  /** The ride lock: at most one locked call is under way. Accept calls take no lock. */
  ghost predicate Exclusive(m: Machine) {
    forall p, q :: p in m.procs && q in m.procs && m.procs[p] != Idle && m.procs[q] != Idle ==> p == q
  }

  predicate Known(sent: map<BatchId, Batch>, batch: Option<Batch>) {
    batch.Some? ==> batch.value.id in sent && sent[batch.value.id] == batch.value
  }

  /** Batch ids name one record each, in the ride hash and in what accept calls have read. */
  ghost predicate Records(m: Machine) {
    && (forall b :: b in m.sent ==> b < m.nextBatch && m.sent[b].id == b)
    && Known(m.sent, m.hash.batch)
    && (forall k :: k in m.calls && m.calls[k].HasRead? ==> Known(m.sent, m.calls[k].seen))
    && (forall w :: w in m.wins ==> Known(m.sent, w.seen))
  }

  /** So do the records that a locked call carries, and the id it searches under is new. */
  predicate ReadTruly(sent: map<BatchId, Batch>, nextBatch: nat, proc: Proc) {
    match proc
    case Expiring(b, _) => Known(sent, Some(b))
    case Closing(b, _, _) => Known(sent, Some(b))
    case Refusing(current, _, _) => Known(sent, current)
    case Declining(current, _, _, _) => Known(sent, current)
    case ReleasingOne(current, _, _) => Known(sent, current)
    case Searching(id, _) => id < nextBatch && id !in sent
    case Moving(next) => next != Requested && next != Dispatching && next != Accepted
    case _ => true
  }

  ghost predicate Carried(m: Machine) {
    forall p :: p in m.procs ==> ReadTruly(m.sent, m.nextBatch, m.procs[p])
  }

  /** An unanswered response names a batch its driver was sent. */
  ghost predicate Asked(m: Machine) {
    forall d, b :: d in m.responses && m.responses[d] == Pending(b) ==> b in m.sent && d in m.sent[b].drivers
  }

  /** Until a driver is assigned, what a locked call has read about the ride still holds. */
  predicate StillTrue(hash: Hash, proc: Proc) {
    match proc
    case Starting => hash.status == Requested && hash.batch.None?
    case Resuming => hash.status == Dispatching && hash.batch.None?
    case Expiring(b, after) => hash.batch == Some(b) && after != ThenStop && hash.status != Requested
    case Closing(b, _, after) => hash.batch == Some(b) && after != ThenStop && hash.status != Requested
    case Refusing(current, _, _) => hash.batch == current && hash.status != Requested
    case Declining(current, _, _, _) => hash.batch == current && hash.status != Requested
    case ReleasingOne(current, _, exhausted) => hash.batch == if exhausted then None else current
    case Releasing(_, _, after) =>
      if after == ThenStop then hash.status != Dispatching else hash.batch.None? && (after == ThenSearch ==> hash.status != Requested)
    case Cleaning => hash.status != Dispatching
    case Searching(_, _) => hash.batch.None? && hash.status != Requested
    case _ => true
  }

  /** A ride that has not been dispatched has no batch. */
  predicate Young(hash: Hash) {
    hash.status == Requested ==> hash.batch.None?
  }

  ghost predicate Current(m: Machine) {
    m.hash.driver.None? ==> Young(m.hash) && forall p :: p in m.procs ==> StillTrue(m.hash, m.procs[p])
  }

  /** The reservation of `d` under batch `b` is one this locked call has just taken, or is about to release. */
  predicate Handles(proc: Proc, b: BatchId, d: DriverId) {
    match proc
    case Searching(id, chosen) => id == b && d in chosen
    case Releasing(id, left, _) => id == b && d in left
    case ReleasingOne(current, _, exhausted) => exhausted && InBatch(current, b, d)
    case _ => false
  }

  predicate InBatch(batch: Option<Batch>, b: BatchId, d: DriverId) {
    batch.Some? && batch.value.id == b && d in batch.value.drivers
  }

  predicate Holds(m: Machine, d: DriverId, b: BatchId) {
    d in m.reservations && m.reservations[d] == Ours(b)
  }

  /** Until a driver is assigned, every token of this ride belongs to the current batch or to the locked call under way. */
  ghost predicate Accounted(m: Machine) {
    m.hash.driver.None? ==>
      forall d, b :: Holds(m, d, b) ==>
        InBatch(m.hash.batch, b, d) || exists p :: p in m.procs && Handles(m.procs[p], b, d)
  }

  ghost predicate RaceInv(m: Machine) {
    Records(m) && Carried(m) && Asked(m) && Current(m) && Accounted(m)
  }

  // ----- each command keeps these facts -----

  lemma OthersIdle(m: Machine, p: nat)
    requires Exclusive(m) && ProcOf(m, p) != Idle
    ensures forall q :: q in m.procs && q != p ==> m.procs[q] == Idle
  {
  }

  lemma ReadKeepsTruth(m: Machine, proc: Proc, running: bool)
    requires Known(m.sent, m.hash.batch) && ReadTruly(m.sent, m.nextBatch, proc)
    requires forall b :: b in m.sent ==> b < m.nextBatch
    ensures ReadTruly(m.sent, if DrawsId(proc) then m.nextBatch + 1 else m.nextBatch, AfterRead(m, proc, running))
  {
  }

  lemma WriteKeepsRecord(m: Machine, proc: Proc, giveUp: bool, expiresAt: int)
    requires Known(m.sent, m.hash.batch) && ReadTruly(m.sent, m.nextBatch, proc)
    ensures var t := Written(m, proc, giveUp, expiresAt);
            && Known(t.sent, t.hash.batch)
            && (t.sent == m.sent
                || (&& proc.Searching? && proc.id < m.nextBatch && proc.id !in m.sent
                    && t.sent == m.sent[proc.id := Batch(proc.id, proc.chosen, expiresAt)]))
  {
  }

  lemma WriteKeepsTruth(m: Machine, proc: Proc, giveUp: bool, expiresAt: int)
    requires Known(m.sent, m.hash.batch) && ReadTruly(m.sent, m.nextBatch, proc)
    ensures ReadTruly(Written(m, proc, giveUp, expiresAt).sent, m.nextBatch, AfterWrite(proc, giveUp))
  {
  }

  lemma ReadStaysCurrent(m: Machine, proc: Proc, running: bool)
    requires StillTrue(m.hash, proc) && Young(m.hash)
    ensures StillTrue(m.hash, AfterRead(m, proc, running))
  {
  }

  lemma WriteStaysCurrent(m: Machine, proc: Proc, giveUp: bool, expiresAt: int)
    requires StillTrue(m.hash, proc) && Young(m.hash) && (proc.Moving? ==> proc.next != Requested && proc.next != Dispatching)
    ensures var hash := Written(m, proc, giveUp, expiresAt).hash; Young(hash) && StillTrue(hash, AfterWrite(proc, giveUp))
  {
  }

  lemma ReadKeepsAccount(m: Machine, proc: Proc, running: bool, b: BatchId, d: DriverId)
    requires Handles(proc, b, d)
    ensures Handles(AfterRead(m, proc, running), b, d)
  {
  }

  lemma WriteKeepsAccount(m: Machine, proc: Proc, giveUp: bool, expiresAt: int, b: BatchId, d: DriverId)
    requires InBatch(m.hash.batch, b, d) || Handles(proc, b, d)
    requires StillTrue(m.hash, proc)
    requires Holds(Written(m, proc, giveUp, expiresAt), d, b)
    ensures InBatch(Written(m, proc, giveUp, expiresAt).hash.batch, b, d) || Handles(AfterWrite(proc, giveUp), b, d)
  {
  }

  lemma RecordsKept(m: Machine, command: Command)
    requires Records(m) && Carried(m) && Exclusive(m)
    ensures Records(Do(m, command))
  {
    if command.Writes? && ProcOf(m, command.proc) != Idle {
      WriteKeepsRecord(m, ProcOf(m, command.proc), command.giveUp, command.expiresAt);
    }
  }

  lemma CarriedKept(m: Machine, command: Command)
    requires Records(m) && Carried(m) && Exclusive(m)
    ensures Carried(Do(m, command))
  {
    if (command.Reads? || command.Writes?) && ProcOf(m, command.proc) != Idle {
      OthersIdle(m, command.proc);
      if command.Reads? {
        ReadKeepsTruth(m, ProcOf(m, command.proc), command.running);
      } else {
        WriteKeepsTruth(m, ProcOf(m, command.proc), command.giveUp, command.expiresAt);
      }
    }
  }

  /** The responses a write leaves unanswered were so before, or belong to the batch it sends. */
  lemma WriteAsks(m: Machine, proc: Proc, giveUp: bool, expiresAt: int, d: DriverId, b: BatchId)
    requires var t := Written(m, proc, giveUp, expiresAt); d in t.responses && t.responses[d] == Pending(b)
    ensures (d in m.responses && m.responses[d] == Pending(b)) || (proc.Searching? && proc.id == b && d in proc.chosen)
  {
  }

  lemma AskedKept(m: Machine, command: Command)
    requires Carried(m) && Known(m.sent, m.hash.batch) && Asked(m)
    ensures Asked(Do(m, command))
  {
    if command.Writes? && ProcOf(m, command.proc) != Idle {
      var proc := ProcOf(m, command.proc);
      var t := Written(m, proc, command.giveUp, command.expiresAt);
      WriteKeepsRecord(m, proc, command.giveUp, command.expiresAt);
      forall d, b | d in t.responses && t.responses[d] == Pending(b) ensures b in t.sent && d in t.sent[b].drivers {
        WriteAsks(m, proc, command.giveUp, command.expiresAt, d, b);
      }
    }
  }

  lemma CurrentKept(m: Machine, command: Command)
    requires Current(m) && Carried(m) && Exclusive(m)
    ensures Current(Do(m, command))
  {
    if (command.Reads? || command.Writes?) && ProcOf(m, command.proc) != Idle {
      OthersIdle(m, command.proc);
      if m.hash.driver.None? {
        if command.Reads? {
          ReadStaysCurrent(m, ProcOf(m, command.proc), command.running);
        } else {
          WriteStaysCurrent(m, ProcOf(m, command.proc), command.giveUp, command.expiresAt);
        }
      }
    }
  }

  lemma AccountedKept(m: Machine, command: Command)
    requires Accounted(m) && Current(m) && Exclusive(m)
    ensures Accounted(Do(m, command))
  {
    var t := Do(m, command);
    if m.hash.driver.None? {
      forall d, b | Holds(t, d, b)
        ensures t.hash.driver.Some? || InBatch(t.hash.batch, b, d) || exists p :: p in t.procs && Handles(t.procs[p], b, d)
      {
        TokenStaysAccounted(m, command, d, b);
      }
    }
  }

  lemma TokenStaysAccounted(m: Machine, command: Command, d: DriverId, b: BatchId)
    requires Accounted(m) && Current(m) && Exclusive(m) && m.hash.driver.None?
    requires Holds(Do(m, command), d, b)
    ensures var t := Do(m, command);
            t.hash.driver.Some? || InBatch(t.hash.batch, b, d) || exists p :: p in t.procs && Handles(t.procs[p], b, d)
  {
    match command
    case Reads(p, running) => ReadKeepsTokenAccount(m, p, running, d, b);
    case Writes(p, giveUp, expiresAt) => WriteKeepsTokenAccount(m, p, giveUp, expiresAt, d, b);
    case Reserves(p, candidate) => ReserveKeepsTokenAccount(m, p, candidate, d, b);
    case Enters(p, task) => EnterKeepsTokenAccount(m, p, task, d, b);
    case _ =>
  }

  lemma ReserveKeepsTokenAccount(m: Machine, p: nat, candidate: DriverId, d: DriverId, b: BatchId)
    requires Accounted(m) && m.hash.driver.None? && Holds(Do(m, Reserves(p, candidate)), d, b)
    ensures var t := Do(m, Reserves(p, candidate));
            InBatch(t.hash.batch, b, d) || exists q :: q in t.procs && Handles(t.procs[q], b, d)
  {
    var t := Do(m, Reserves(p, candidate));
    if t != m && d == candidate {
      assert Handles(t.procs[p], b, d);
    } else if !InBatch(m.hash.batch, b, d) {
      assert Holds(m, d, b);
      var q :| q in m.procs && Handles(m.procs[q], b, d);
      assert q in t.procs && Handles(t.procs[q], b, d);
    }
  }

  lemma EnterKeepsTokenAccount(m: Machine, p: nat, task: Task, d: DriverId, b: BatchId)
    requires Accounted(m) && m.hash.driver.None? && Holds(m, d, b)
    ensures var t := Do(m, Enters(p, task));
            InBatch(t.hash.batch, b, d) || exists q :: q in t.procs && Handles(t.procs[q], b, d)
  {
    var t := Do(m, Enters(p, task));
    if !InBatch(m.hash.batch, b, d) {
      var q :| q in m.procs && Handles(m.procs[q], b, d);
      assert q in t.procs && Handles(t.procs[q], b, d);
    }
  }

  lemma ReadKeepsTokenAccount(m: Machine, p: nat, running: bool, d: DriverId, b: BatchId)
    requires InBatch(m.hash.batch, b, d) || exists q :: q in m.procs && Handles(m.procs[q], b, d)
    ensures var t := ReadBy(m, p, running);
            InBatch(t.hash.batch, b, d) || exists q :: q in t.procs && Handles(t.procs[q], b, d)
  {
    var t := ReadBy(m, p, running);
    if !InBatch(m.hash.batch, b, d) {
      var q :| q in m.procs && Handles(m.procs[q], b, d);
      if q == p {
        ReadKeepsAccount(m, m.procs[p], running, b, d);
      }
      assert q in t.procs && Handles(t.procs[q], b, d);
    }
  }

  lemma WriteKeepsTokenAccount(m: Machine, p: nat, giveUp: bool, expiresAt: int, d: DriverId, b: BatchId)
    requires InBatch(m.hash.batch, b, d) || exists q :: q in m.procs && Handles(m.procs[q], b, d)
    requires StillTrue(m.hash, ProcOf(m, p)) && Holds(WriteBy(m, p, giveUp, expiresAt), d, b)
    ensures var t := WriteBy(m, p, giveUp, expiresAt);
            InBatch(t.hash.batch, b, d) || exists q :: q in t.procs && Handles(t.procs[q], b, d)
  {
    var t := WriteBy(m, p, giveUp, expiresAt);
    if q :| q != p && q in m.procs && Handles(m.procs[q], b, d) {
      assert q in t.procs && Handles(t.procs[q], b, d);
    } else {
      WriteKeepsAccount(m, ProcOf(m, p), giveUp, expiresAt, b, d);
      assert p in t.procs && t.procs[p] == AfterWrite(ProcOf(m, p), giveUp);
    }
  }

  ghost predicate ExclusiveTrace(ms: seq<Machine>, commands: seq<Command>) {
    IsTrace(ms, commands) && forall m :: m in ms ==> Exclusive(m)
  }

  lemma {:induction false} TraceKeepsRaceInv(ms: seq<Machine>, commands: seq<Command>, i: nat)
    requires ExclusiveTrace(ms, commands) && i < |ms|
    ensures RaceInv(ms[i])
  {
    if i > 0 {
      TraceKeepsRaceInv(ms, commands, i - 1);
      var m, command := ms[i - 1], commands[i - 1];
      assert m in ms;
      RecordsKept(m, command);
      CarriedKept(m, command);
      AskedKept(m, command);
      CurrentKept(m, command);
      AccountedKept(m, command);
      assert ms[i] == Do(m, command);
    }
  }

  /** While a driver could still be assigned, every token of the ride belongs to its current batch. */
  lemma TokensAreOfTheLiveBatch(m: Machine, d: DriverId, b: BatchId)
    requires RaceInv(m) && m.hash.status == Dispatching && m.hash.driver.None? && m.hash.batch.Some? && Holds(m, d, b)
    ensures InBatch(m.hash.batch, b, d)
  {
  }

  /**
   * Under the ride lock, a call whose script commits had read the batch that is current when it commits;
   * so the losers it goes on to release are exactly the drivers of that live batch without the winner.
   */
  lemma CommitsInTheBatchItRead(ms: seq<Machine>, commands: seq<Command>, i: nat)
    requires ExclusiveTrace(ms, commands) && i < |commands| && |ms[i + 1].wins| > |ms[i].wins|
    ensures commands[i].CallScript? && commands[i].call in ms[i].calls && commands[i].call in ms[i + 1].calls
    ensures ms[i].calls[commands[i].call].HasRead? && ms[i].hash.batch.Some?
    ensures var call, live := ms[i].calls[commands[i].call], ms[i].hash.batch.value;
            && call.seen == Some(live)
            && call.driver in live.drivers
            && ms[i + 1].calls[commands[i].call].HasWon?
            && ms[i + 1].calls[commands[i].call].batch == live.id
            && forall e :: e in ms[i + 1].calls[commands[i].call].left <==> e in live.drivers && e != call.driver
  {
    var m, k := ms[i], commands[i].call;
    TraceKeepsRaceInv(ms, commands, i);
    assert ms[i + 1] == Do(m, commands[i]);
    OnlyTheScriptAssigns(m, commands[i]);
    var call := m.calls[k];
    TokensAreOfTheLiveBatch(m, call.driver, call.seen.value.id);
  }

  /**
   * A script that commits has found the ride DISPATCHING without a driver, in a batch that had not expired at the stated time,
   * and its caller contacted, unanswered and reserved; it writes status, driver and answer, and takes the reservation away.
   */
  lemma CommitMeetsGuards(ms: seq<Machine>, commands: seq<Command>, i: nat)
    requires IsTrace(ms, commands) && i < |commands| && |ms[i + 1].wins| > |ms[i].wins|
    ensures commands[i].CallScript? && commands[i].call in ms[i].calls && ms[i].calls[commands[i].call].HasRead?
    ensures var m, call := ms[i], ms[i].calls[commands[i].call];
            && m.hash.status == Dispatching && m.hash.driver.None? && m.hash.batch.Some? && call.at <= m.hash.batch.value.expiresAt
            && call.driver in m.notified
            && call.driver in m.responses && m.responses[call.driver] == Pending(m.hash.batch.value.id)
            && call.seen.Some? && Holds(m, call.driver, call.seen.value.id) && commands[i].driverFree
    ensures var n, d := ms[i + 1], ms[i].calls[commands[i].call].driver;
            && n.hash == Hash(Accepted, Some(d), None) && d in n.responses && n.responses[d] == Won && d !in n.reservations
  {
    assert ms[i + 1] == Do(ms[i], commands[i]);
    OnlyTheScriptAssigns(ms[i], commands[i]);
  }

  // ----- what the winner leaves behind -----

  predicate StillReleases(call: Call, b: BatchId, d: DriverId) {
    call.HasWon? && call.batch == b && d in call.left
  }

  /** A reservation that survives a win is one the winning call is still going to release. */
  ghost predicate LosersOwed(m: Machine) {
    forall w, d :: w in m.wins && w.seen.Some? && Holds(m, d, w.seen.value.id) ==>
      exists k :: k in m.calls && StillReleases(m.calls[k], w.seen.value.id, d)
  }

  /** Tokens are only ever taken under an id that has not been sent. */
  lemma NoNewTokenOfASentBatch(m: Machine, command: Command, d: DriverId, b: BatchId)
    requires Carried(m) && b in m.sent && Holds(Do(m, command), d, b)
    ensures Holds(m, d, b)
  {
  }

  lemma OwedStaysOwed(m: Machine, command: Command, k: nat, d: DriverId, b: BatchId)
    requires k in m.calls && StillReleases(m.calls[k], b, d) && Holds(Do(m, command), d, b)
    ensures k in Do(m, command).calls && StillReleases(Do(m, command).calls[k], b, d)
  {
  }

  lemma LosersOwedKept(m: Machine, command: Command)
    requires RaceInv(m) && LosersOwed(m)
    ensures LosersOwed(Do(m, command))
  {
    var t := Do(m, command);
    OnlyTheScriptAssigns(m, command);
    forall w, d | w in t.wins && w.seen.Some? && Holds(t, d, w.seen.value.id)
      ensures exists k :: k in t.calls && StillReleases(t.calls[k], w.seen.value.id, d)
    {
      var b := w.seen.value.id;
      if w in m.wins {
        NoNewTokenOfASentBatch(m, command, d, b);
        var k :| k in m.calls && StillReleases(m.calls[k], b, d);
        OwedStaysOwed(m, command, k, d, b);
      } else {
        WinnerOwes(m, command.call, command.driverFree, d);
      }
    }
  }

  lemma WinnerOwes(m: Machine, k: nat, driverFree: bool, d: DriverId)
    requires RaceInv(m) && k in m.calls && m.calls[k].HasRead? && ScriptPasses(m, m.calls[k], driverFree)
    requires Holds(RunScript(m, k, driverFree), d, m.calls[k].seen.value.id)
    ensures var t := RunScript(m, k, driverFree);
            k in t.calls && StillReleases(t.calls[k], m.calls[k].seen.value.id, d)
  {
    TokensAreOfTheLiveBatch(m, m.calls[k].driver, m.calls[k].seen.value.id);
    TokensAreOfTheLiveBatch(m, d, m.calls[k].seen.value.id);
  }

  /** Once the winning call has made its releases, nobody is reserved under the batch it won in. */
  lemma NoTokenOutlivesTheWinner(ms: seq<Machine>, commands: seq<Command>, i: nat)
    requires ExclusiveTrace(ms, commands) && i < |ms|
    ensures LosersOwed(ms[i])
  {
    forall k | 0 < k < |ms| && LosersOwed(ms[k - 1]) ensures LosersOwed(ms[k]) {
      LosersOwedNext(ms, commands, k);
    }
    LosersOwedFrom(ms, i);
  }

  lemma LosersOwedNext(ms: seq<Machine>, commands: seq<Command>, k: nat)
    requires ExclusiveTrace(ms, commands) && 0 < k < |ms| && LosersOwed(ms[k - 1])
    ensures LosersOwed(ms[k])
  {
    TraceKeepsRaceInv(ms, commands, k - 1);
    LosersOwedKept(ms[k - 1], commands[k - 1]);
  }

  lemma {:induction false} LosersOwedFrom(ms: seq<Machine>, i: nat)
    requires i < |ms| && LosersOwed(ms[0]) && forall k :: 0 < k < |ms| && LosersOwed(ms[k - 1]) ==> LosersOwed(ms[k])
    ensures LosersOwed(ms[i])
  {
    if i > 0 {
      LosersOwedFrom(ms, i - 1);
    }
  }

  // ----- what the ride lock does not protect: the script may fire inside a locked call -----

  /** Locked call 0 dispatches a new ride to `d` alone. */
  function Offered(d: DriverId): Machine {
    var entered := Do(Created(), Enters(0, DispatchTask));
    var resumed := Do(Do(entered, Reads(0, false)), Writes(0, false, 0));
    var searching := Do(Do(resumed, Reads(0, false)), Reads(0, false));
    Do(Do(searching, Reserves(0, d)), Writes(0, false, 0))
  }

  /** `d` calls accept; before its script runs, another dispatch reads the ride and finds the batch expired. */
  function AcceptedMeanwhile(d: DriverId): Machine {
    var entered := Do(Do(Offered(d), CallReads(0, d, 0)), Enters(0, DispatchTask));
    Do(Do(entered, Reads(0, false)), CallScript(0, true))
  }

  /** That dispatch goes on: it closes the batch, finds nobody and gives up. */
  function GivenUpAnyway(d: DriverId): Machine {
    var closed := Do(Do(AcceptedMeanwhile(d), Reads(0, false)), Writes(0, false, 0));
    Do(Do(Do(closed, Writes(0, false, 0)), Reads(0, false)), Writes(0, true, 0))
  }

  lemma ADispatchStarts(m: Machine)
    requires ProcOf(m, 0) == Entered(DispatchTask) && m.hash.status == Requested
    ensures var t := Do(Do(m, Reads(0, false)), Writes(0, false, 0));
            ProcOf(t, 0) == Resuming && t == m.(procs := t.procs, hash := m.hash.(status := Dispatching))
  {
    assert ProcOf(Do(m, Reads(0, false)), 0) == Starting;
  }

  lemma ADispatchSearches(m: Machine)
    requires ProcOf(m, 0) == Resuming && m.hash.batch.None?
    ensures var t := Do(Do(m, Reads(0, false)), Reads(0, false));
            ProcOf(t, 0) == Searching(m.nextBatch, []) && t == m.(procs := t.procs, nextBatch := m.nextBatch + 1)
  {
    assert ProcOf(Do(m, Reads(0, false)), 0) == Releasing(0, [], ThenSearch);
  }

  lemma ADispatchSends(m: Machine, b: BatchId, d: DriverId)
    requires ProcOf(m, 0) == Searching(b, []) && d !in m.reservations
    ensures var t := Do(Do(m, Reserves(0, d)), Writes(0, false, 0));
            && ProcOf(t, 0) == Idle && t.calls == m.calls
            && t.hash == m.hash.(batch := Some(Batch(b, [d], 0)))
            && d in t.notified && d in t.responses && t.responses[d] == Pending(b) && Holds(t, d, b)
  {
    assert ProcOf(Do(m, Reserves(0, d)), 0) == Searching(b, [d]);
  }

  lemma OfferedFacts(d: DriverId)
    ensures var m := Offered(d);
            && m.hash == Hash(Dispatching, None, Some(Batch(1, [d], 0))) && ProcOf(m, 0) == Idle && m.calls == map[]
            && d in m.notified && d in m.responses && m.responses[d] == Pending(1) && Holds(m, d, 1)
  {
    var entered := Do(Created(), Enters(0, DispatchTask));
    ADispatchStarts(entered);
    var resumed := Do(Do(entered, Reads(0, false)), Writes(0, false, 0));
    ADispatchSearches(resumed);
    ADispatchSends(Do(Do(resumed, Reads(0, false)), Reads(0, false)), 1, d);
  }

  lemma AcceptedFacts(d: DriverId)
    ensures var m := AcceptedMeanwhile(d);
            m.hash == Hash(Accepted, Some(d), None) && ProcOf(m, 0) == Expiring(Batch(1, [d], 0), ThenSearch)
  {
    OfferedFacts(d);
    ADispatchFindsExpired(Do(Offered(d), CallReads(0, d, 0)), Batch(1, [d], 0));
  }

  lemma ADispatchFindsExpired(m: Machine, b: Batch)
    requires ProcOf(m, 0) == Idle && m.hash == Hash(Dispatching, None, Some(b))
    ensures var t := Do(Do(m, Enters(0, DispatchTask)), Reads(0, false));
            ProcOf(t, 0) == Expiring(b, ThenSearch) && t == m.(procs := t.procs)
  {
  }

  lemma ADispatchCloses(m: Machine, b: Batch)
    requires ProcOf(m, 0) == Expiring(b, ThenSearch)
    ensures var t := Do(Do(m, Reads(0, false)), Writes(0, false, 0));
            ProcOf(t, 0) == Releasing(b.id, b.drivers, ThenSearch) && t.hash == m.hash.(batch := None)
  {
    assert ProcOf(Do(m, Reads(0, false)), 0).Closing?;
  }

  lemma ADispatchGivesUp(m: Machine, b: BatchId, d: DriverId)
    requires ProcOf(m, 0) == Releasing(b, [d], ThenSearch)
    ensures Do(Do(Do(m, Writes(0, false, 0)), Reads(0, false)), Writes(0, true, 0)).hash == m.hash.(status := Cancelled, batch := None)
  {
    var released := Do(m, Writes(0, false, 0));
    assert ProcOf(released, 0) == Releasing(b, [], ThenSearch) && released.hash == m.hash;
    assert ProcOf(Do(released, Reads(0, false)), 0) == Searching(released.nextBatch, []);
  }

  /**
   * A dispatch that saw its batch expire overwrites an acceptance that slips in before its next write: the ride ends
   * CANCELLED with a driver assigned. One locked call and one accept call are enough.
   */
  lemma AcceptanceOverwritten(d: DriverId)
    ensures AcceptedMeanwhile(d).hash == Hash(Accepted, Some(d), None)
    ensures GivenUpAnyway(d).hash == Hash(Cancelled, Some(d), None)
  {
    AcceptedFacts(d);
    ADispatchCloses(AcceptedMeanwhile(d), Batch(1, [d], 0));
    ADispatchGivesUp(Do(Do(AcceptedMeanwhile(d), Reads(0, false)), Writes(0, false, 0)), 1, d);
  }

  // ----- when an acceptance survives the locked call under way -----

  /** Past its status check, on the way to the search: this call will write the hash whatever has become of the ride. */
  predicate Dispatches(proc: Proc) {
    match proc
    case Starting => true
    case Resuming => true
    case Expiring(_, after) => after == ThenSearch
    case Closing(_, _, after) => after == ThenSearch
    case Releasing(_, _, after) => after == ThenSearch
    case Searching(_, _) => true
    case _ => false
  }

  /** It has found the batch expired and not yet closed it. */
  predicate StandsBeforeClosing(proc: Proc) {
    (proc.Expiring? || proc.Closing?) && proc.after == ThenSearch
  }

  predicate IsHarmless(proc: Proc) {
    !Dispatches(proc) && (proc.Moving? ==> proc.next != Requested && proc.next != Dispatching)
  }

  /** The ride has left dispatch, and no locked call is going to write it but to move it on. */
  ghost predicate Settled(m: Machine) {
    && m.hash.driver.Some? && m.hash.status != Requested && m.hash.status != Dispatching
    && forall p :: p in m.procs ==> IsHarmless(m.procs[p])
  }

  predicate IsTransitionWrite(m: Machine, command: Command) {
    command.Writes? && ProcOf(m, command.proc).Moving?
  }

  lemma ReadStaysHarmless(m: Machine, proc: Proc, running: bool)
    requires IsHarmless(proc) && m.hash.status != Requested && m.hash.status != Dispatching
    ensures IsHarmless(AfterRead(m, proc, running))
  {
  }

  lemma WriteStaysHarmless(m: Machine, proc: Proc, giveUp: bool, expiresAt: int)
    requires IsHarmless(proc)
    ensures IsHarmless(AfterWrite(proc, giveUp))
    ensures var hash := Written(m, proc, giveUp, expiresAt).hash;
            if proc.Moving? then hash.status == proc.next else hash.status == m.hash.status
  {
  }

  /** Once settled, always settled, and only a transition call changes the status. */
  lemma StaysSettled(m: Machine, command: Command)
    requires Settled(m)
    ensures Settled(Do(m, command))
    ensures !IsTransitionWrite(m, command) ==> Do(m, command).hash.status == m.hash.status
  {
    if command.Reads? {
      ReadStaysHarmless(m, ProcOf(m, command.proc), command.running);
    } else if command.Writes? {
      WriteStaysHarmless(m, ProcOf(m, command.proc), command.giveUp, command.expiresAt);
    } else {
      OthersStaySettled(m, command);
    }
  }

  lemma OthersStaySettled(m: Machine, command: Command)
    requires Settled(m) && !command.Reads? && !command.Writes?
    ensures Settled(Do(m, command)) && Do(m, command).hash == m.hash
  {
  }

  /** What may happen after `m`, one locked call at a time. */
  ghost predicate Continues(ms: seq<Machine>, commands: seq<Command>, m: Machine) {
    && |ms| == |commands| + 1 && ms[0] == m
    && (forall i :: 0 <= i < |commands| ==> ms[i + 1] == Do(ms[i], commands[i]))
    && forall n :: n in ms ==> Exclusive(n)
  }

  ghost predicate NoTransitionWrites(ms: seq<Machine>, commands: seq<Command>) {
    forall i :: 0 <= i < |commands| && i < |ms| ==> !IsTransitionWrite(ms[i], commands[i])
  }

  /** No transition call writes, and the ride ends CANCELLED. */
  ghost predicate IsOverwritten(ms: seq<Machine>, commands: seq<Command>, m: Machine) {
    Continues(ms, commands, m) && NoTransitionWrites(ms, commands) && ms[|commands|].hash.status == Cancelled
  }

  predicate IsOfferedNow(m: Machine, d: DriverId, b: BatchId) {
    d in m.responses && m.responses[d] == Pending(b)
  }

  /** No transition call writes, the ride stays ACCEPTED, and a driver is reserved for it and offered it. */
  ghost predicate IsReoffered(ms: seq<Machine>, commands: seq<Command>, m: Machine) {
    && Continues(ms, commands, m) && NoTransitionWrites(ms, commands) && ms[|commands|].hash.status == Accepted
    && exists d, b :: Holds(ms[|commands|], d, b) && !Holds(m, d, b) && IsOfferedNow(ms[|commands|], d, b)
  }

  ghost predicate CanBeReoffered(m: Machine) {
    exists ms, commands :: IsReoffered(ms, commands, m)
  }

  /** No transition call writes, the ride stays ACCEPTED, and its hash names a batch again. */
  ghost predicate IsRebatched(ms: seq<Machine>, commands: seq<Command>, m: Machine) {
    && Continues(ms, commands, m) && NoTransitionWrites(ms, commands)
    && ms[|commands|].hash.status == Accepted && ms[|commands|].hash.batch.Some?
  }

  ghost predicate CanBeRebatched(m: Machine) {
    exists ms, commands :: IsRebatched(ms, commands, m)
  }

  /** This rejection has read a batch and will write it back. */
  predicate CarriesBatch(m: Machine, proc: Proc) {
    match proc
    case Declining(current, answers, d, _) => current.Some? && !Exhausted(current, answers, d)
    case Refusing(current, d, _) =>
      && current.Some? && d in m.responses && m.responses[d] != Won && m.responses[d] != Declined("")
      && !Exhausted(current, m.responses, d)
    case _ => false
  }

  ghost predicate RejectionCarriesBatch(m: Machine) {
    exists p :: p in m.procs && CarriesBatch(m, m.procs[p])
  }

  ghost predicate CanBeOverwritten(m: Machine) {
    exists ms, commands :: IsOverwritten(ms, commands, m)
  }

  ghost predicate DispatchStandsBeforeClosing(m: Machine) {
    exists p :: p in m.procs && StandsBeforeClosing(m.procs[p])
  }

  /** Without transition calls, the ride is ACCEPTED ever after. */
  ghost predicate StaysAccepted(m: Machine) {
    forall ms: seq<Machine>, commands: seq<Command> :: Continues(ms, commands, m) && NoTransitionWrites(ms, commands) ==>
      forall j :: 0 <= j < |ms| ==> ms[j].hash.status == Accepted
  }

  ghost predicate SettledAs(m: Machine, status: RideStatus) {
    Settled(m) && m.hash.status == status
  }

  lemma SettledToTheEnd(ms: seq<Machine>, commands: seq<Command>, m: Machine, i: nat)
    requires Continues(ms, commands, m) && NoTransitionWrites(ms, commands) && Settled(m) && i < |ms|
    ensures SettledAs(ms[i], m.hash.status)
  {
    forall k | 0 < k < |ms| && SettledAs(ms[k - 1], m.hash.status) ensures SettledAs(ms[k], m.hash.status) {
      StaysSettled(ms[k - 1], commands[k - 1]);
    }
    SettledAllAlong(ms, i, m.hash.status);
  }

  lemma {:induction false} SettledAllAlong(ms: seq<Machine>, i: nat, status: RideStatus)
    requires i < |ms| && SettledAs(ms[0], status)
    requires forall k :: 0 < k < |ms| && SettledAs(ms[k - 1], status) ==> SettledAs(ms[k], status)
    ensures SettledAs(ms[i], status)
  {
    if i > 0 {
      SettledAllAlong(ms, i - 1, status);
    }
  }

  /** Where a locked call can stand when a script commits. */
  lemma StandingAtCommit(m: Machine, k: nat, driverFree: bool, p: nat)
    requires RaceInv(m) && k in m.calls && m.calls[k].HasRead? && ScriptPasses(m, m.calls[k], driverFree) && p in m.procs
    ensures Dispatches(m.procs[p]) ==> StandsBeforeClosing(m.procs[p])
    ensures IsHarmless(m.procs[p]) || Dispatches(m.procs[p])
  {
    assert StillTrue(m.hash, m.procs[p]) && ReadTruly(m.sent, m.nextBatch, m.procs[p]);
  }

  function Remaining(proc: Proc): nat {
    match proc
    case Expiring(b, _) => 4 + |b.drivers|
    case Closing(b, _, _) => 3 + |b.drivers|
    case Releasing(_, left, _) => 2 + |left|
    case _ => 1
  }

  /** What a dispatch past its batch check does next. */
  function NextCommand(p: nat, proc: Proc): Command {
    if proc.Expiring? || (proc.Releasing? && proc.left == []) then Reads(p, false) else Writes(p, true, 0)
  }

  predicate OnTheWay(proc: Proc) {
    StandsBeforeClosing(proc) || (proc.Releasing? && proc.after == ThenSearch) || (proc.Searching? && proc.chosen == [])
  }

  lemma NextOnTheWay(m: Machine, p: nat)
    requires p in m.procs && OnTheWay(m.procs[p]) && Exclusive(m)
    ensures var t := Do(m, NextCommand(p, m.procs[p]));
            && p in t.procs && Exclusive(t) && !IsTransitionWrite(m, NextCommand(p, m.procs[p]))
            && if m.procs[p].Searching? then t.hash.status == Cancelled
               else OnTheWay(t.procs[p]) && Remaining(t.procs[p]) < Remaining(m.procs[p])
  {
    var proc := m.procs[p];
    var t := Do(m, NextCommand(p, proc));
    OthersIdle(m, p);
    assert t.procs - {p} == m.procs - {p};
    assert forall q :: q in t.procs && q != p ==> q in m.procs - {p} && t.procs[q] == (t.procs - {p})[q];
  }

  /** Left alone, such a dispatch closes the batch, releases its drivers and comes to search. */
  lemma ComesToSearch(m: Machine, p: nat) returns (ms: seq<Machine>, commands: seq<Command>)
    requires p in m.procs && OnTheWay(m.procs[p]) && Exclusive(m)
    ensures Continues(ms, commands, m) && NoTransitionWrites(ms, commands)
    ensures var t := ms[|commands|];
            && p in t.procs && t.procs[p].Searching? && t.procs[p].chosen == []
            && t.hash.status == m.hash.status && t.reservations.Keys <= m.reservations.Keys
    decreases Remaining(m.procs[p])
  {
    if m.procs[p].Searching? {
      ms, commands := [m], [];
    } else {
      var command := NextCommand(p, m.procs[p]);
      var t := Do(m, command);
      NextOnTheWay(m, p);
      NextTakesNothing(m, p);
      var rest, more := ComesToSearch(t, p);
      ms, commands := [m] + rest, [command] + more;
      assert forall i :: 0 < i < |ms| ==> ms[i] == rest[i - 1];
      assert forall i :: 0 < i < |commands| ==> commands[i] == more[i - 1];
    }
  }

  lemma NextTakesNothing(m: Machine, p: nat)
    requires p in m.procs && OnTheWay(m.procs[p]) && !m.procs[p].Searching?
    ensures var t := Do(m, NextCommand(p, m.procs[p])); t.hash.status == m.hash.status && t.reservations.Keys <= m.reservations.Keys
  {
  }

  lemma OneMoreCommand(ms: seq<Machine>, commands: seq<Command>, m: Machine, command: Command)
    returns (longer: seq<Machine>, more: seq<Command>)
    requires Continues(ms, commands, m) && NoTransitionWrites(ms, commands)
    requires Exclusive(Do(ms[|commands|], command)) && !IsTransitionWrite(ms[|commands|], command)
    ensures Continues(longer, more, m) && NoTransitionWrites(longer, more)
    ensures |more| == |commands| + 1 && longer[|more|] == Do(ms[|commands|], command)
  {
    longer, more := ms + [Do(ms[|commands|], command)], commands + [command];
  }

  /** Then it may find nobody and cancel the ride. */
  lemma CancelsInTheEnd(m: Machine, p: nat) returns (ms: seq<Machine>, commands: seq<Command>)
    requires p in m.procs && OnTheWay(m.procs[p]) && Exclusive(m)
    ensures IsOverwritten(ms, commands, m)
  {
    ms, commands := ComesToSearch(m, p);
    NextOnTheWay(ms[|commands|], p);
    ms, commands := OneMoreCommand(ms, commands, m, Writes(p, true, 0));
  }

  /** Or it may reserve somebody and send a batch. */
  lemma SendsInTheEnd(m: Machine, p: nat, d: DriverId) returns (ms: seq<Machine>, commands: seq<Command>)
    requires p in m.procs && OnTheWay(m.procs[p]) && Exclusive(m) && d !in m.reservations && m.hash.status == Accepted
    ensures IsReoffered(ms, commands, m) && ms[|commands|].hash.batch.Some?
  {
    ms, commands := ComesToSearch(m, p);
    var u := ms[|commands|];
    var b := u.procs[p].id;
    SendsTo(u, p, d);
    ms, commands := OneMoreCommand(ms, commands, m, Reserves(p, d));
    ms, commands := OneMoreCommand(ms, commands, m, Writes(p, false, 0));
    assert Holds(ms[|commands|], d, b) && !Holds(m, d, b) && IsOfferedNow(ms[|commands|], d, b);
  }

  lemma SendsTo(m: Machine, p: nat, d: DriverId)
    requires p in m.procs && m.procs[p].Searching? && m.procs[p].chosen == [] && Exclusive(m) && d !in m.reservations
    ensures var b, u := m.procs[p].id, Do(m, Reserves(p, d));
            var t := Do(u, Writes(p, false, 0));
            && Exclusive(u) && Exclusive(t) && !IsTransitionWrite(u, Writes(p, false, 0))
            && t.hash.status == m.hash.status && t.hash.batch.Some? && Holds(t, d, b) && IsOfferedNow(t, d, b)
  {
    OthersIdle(m, p);
    var u := Do(m, Reserves(p, d));
    assert m.procs[p].chosen + [d] == [d];
    assert u.procs == m.procs[p := Searching(m.procs[p].id, [d])];
    var t := Do(u, Writes(p, false, 0));
    assert t.procs == u.procs[p := Idle];
  }

  lemma SomebodyElse(taken: set<DriverId>) returns (d: DriverId)
    ensures d !in taken
  {
    d := Above(taken);
  }

  /** A number above all members of a finite set. */
  lemma {:induction false} Above(taken: set<DriverId>) returns (d: DriverId)
    ensures forall e :: e in taken ==> e < d
  {
    if taken == {} {
      d := 0;
    } else {
      var e :| e in taken;
      d := Above(taken - {e});
      assert forall x :: x in taken ==> x == e || x in taken - {e};
      d := if e < d then d else e + 1;
    }
  }

  /**
   * Exactly when an acceptance can be overwritten without any transition call: when at its commit a dispatch has found the
   * batch expired and not yet closed it. Otherwise the ride stays ACCEPTED for as long as no transition call moves it on.
   */
  lemma OverwrittenIff(ms: seq<Machine>, commands: seq<Command>, i: nat)
    requires ExclusiveTrace(ms, commands) && i < |commands| && |ms[i + 1].wins| > |ms[i].wins|
    ensures CanBeOverwritten(ms[i + 1]) <==> DispatchStandsBeforeClosing(ms[i + 1])
    ensures !DispatchStandsBeforeClosing(ms[i + 1]) ==> StaysAccepted(ms[i + 1])
  {
    var m, t := ms[i], ms[i + 1];
    TraceKeepsRaceInv(ms, commands, i);
    OnlyTheScriptAssigns(m, commands[i]);
    CommitLeaves(m, commands[i]);
    assert t in ms;
    if p :| p in t.procs && StandsBeforeClosing(t.procs[p]) {
      var ns, more := CancelsInTheEnd(t, p);
      assert IsOverwritten(ns, more, t);
    } else {
      SettledAtCommit(m, commands[i]);
      forall ns: seq<Machine>, more: seq<Command> | Continues(ns, more, t) && NoTransitionWrites(ns, more)
        ensures forall j :: 0 <= j < |ns| ==> ns[j].hash.status == Accepted
      {
        forall j | 0 <= j < |ns| ensures ns[j].hash.status == Accepted {
          SettledToTheEnd(ns, more, t, j);
        }
      }
      assert StaysAccepted(t);
      assert forall ns: seq<Machine>, more: seq<Command> :: Continues(ns, more, t) && NoTransitionWrites(ns, more) ==>
               ns[|more|].hash.status == Accepted;
    }
  }

  lemma CommitLeaves(m: Machine, command: Command)
    requires |Do(m, command).wins| > |m.wins|
    ensures command.CallScript? && command.call in m.calls && m.calls[command.call].HasRead?
    ensures ScriptPasses(m, m.calls[command.call], command.driverFree)
    ensures var t := Do(m, command);
            t.procs == m.procs && t.hash.status == Accepted && t.hash.driver.Some? && t.hash.batch.None?
  {
    OnlyTheScriptAssigns(m, command);
  }

  lemma SettledAtCommit(m: Machine, command: Command)
    requires RaceInv(m) && |Do(m, command).wins| > |m.wins|
    requires forall p :: p in m.procs ==> !StandsBeforeClosing(m.procs[p])
    ensures Settled(Do(m, command))
  {
    CommitLeaves(m, command);
    forall p | p in m.procs ensures IsHarmless(m.procs[p]) {
      StandingAtCommit(m, command.call, command.driverFree, p);
    }
  }

  /**
   * A rejection that has read the hash before the commit carries the batch won in, and writes it back into the accepted hash
   * unless the rejection exhausts it; status and driver stay.
   */
  lemma DeclineWritesBack(ms: seq<Machine>, commands: seq<Command>, i: nat, p: nat, giveUp: bool, expiresAt: int)
    requires ExclusiveTrace(ms, commands) && i < |commands| && |ms[i + 1].wins| > |ms[i].wins|
    requires p in ms[i + 1].procs && (ms[i + 1].procs[p].Refusing? || ms[i + 1].procs[p].Declining?)
    ensures ms[i].hash.batch.Some? && ms[i + 1].procs[p].current == ms[i].hash.batch
    ensures ms[i + 1].procs[p].Declining? ==>
            var proc, hash := ms[i + 1].procs[p], Do(ms[i + 1], Writes(p, giveUp, expiresAt)).hash;
            && hash.status == Accepted && hash.driver == ms[i + 1].hash.driver
            && hash.batch == if Exhausted(ms[i].hash.batch, proc.answers, proc.driver) then None else ms[i].hash.batch
  {
    TraceKeepsRaceInv(ms, commands, i);
    assert ms[i + 1] == Do(ms[i], commands[i]);
    CommitLeaves(ms[i], commands[i]);
    assert StillTrue(ms[i].hash, ms[i].procs[p]);
  }

  // ----- what else an acceptance can suffer -----

  /** Settled and ACCEPTED, with no token that `m` did not have. */
  ghost predicate NothingTakenSince(m: Machine, t: Machine) {
    SettledAs(t, Accepted) && forall d, b :: Holds(t, d, b) ==> Holds(m, d, b)
  }

  lemma TakesNothing(m: Machine, command: Command)
    requires Settled(m)
    ensures forall d, b :: Holds(Do(m, command), d, b) ==> Holds(m, d, b)
  {
  }

  lemma {:induction false} NothingTakenAllAlong(m: Machine, ms: seq<Machine>, i: nat)
    requires i < |ms| && NothingTakenSince(m, ms[0])
    requires forall k :: 0 < k < |ms| && NothingTakenSince(m, ms[k - 1]) ==> NothingTakenSince(m, ms[k])
    ensures NothingTakenSince(m, ms[i])
  {
    if i > 0 {
      NothingTakenAllAlong(m, ms, i - 1);
    }
  }

  lemma NobodyReserved(m: Machine, ms: seq<Machine>, commands: seq<Command>)
    requires SettledAs(m, Accepted) && Continues(ms, commands, m) && NoTransitionWrites(ms, commands)
    ensures forall d, b :: Holds(ms[|commands|], d, b) ==> Holds(m, d, b)
  {
    forall k | 0 < k < |ms| && NothingTakenSince(m, ms[k - 1]) ensures NothingTakenSince(m, ms[k]) {
      StaysSettled(ms[k - 1], commands[k - 1]);
      TakesNothing(ms[k - 1], commands[k - 1]);
    }
    NothingTakenAllAlong(m, ms, |commands|);
  }

  /** Exactly when drivers can be reserved for, and offered, a ride that has just been accepted: under the very same condition. */
  lemma ReofferedIff(ms: seq<Machine>, commands: seq<Command>, i: nat)
    requires ExclusiveTrace(ms, commands) && i < |commands| && |ms[i + 1].wins| > |ms[i].wins|
    ensures CanBeReoffered(ms[i + 1]) <==> DispatchStandsBeforeClosing(ms[i + 1])
  {
    var t := ms[i + 1];
    TraceKeepsRaceInv(ms, commands, i);
    OnlyTheScriptAssigns(ms[i], commands[i]);
    CommitLeaves(ms[i], commands[i]);
    assert t in ms;
    if p :| p in t.procs && StandsBeforeClosing(t.procs[p]) {
      var d := SomebodyElse(t.reservations.Keys);
      var ns, more := SendsInTheEnd(t, p, d);
    } else {
      SettledAtCommit(ms[i], commands[i]);
      forall ns: seq<Machine>, more: seq<Command> | Continues(ns, more, t) && NoTransitionWrites(ns, more)
        ensures forall d, b :: Holds(ns[|more|], d, b) ==> Holds(t, d, b)
      {
        NobodyReserved(t, ns, more);
      }
    }
  }

  /** Settled and ACCEPTED without a batch, and nobody is going to write one. */
  ghost predicate Bare(m: Machine) {
    SettledAs(m, Accepted) && m.hash.batch.None? && !RejectionCarriesBatch(m)
  }

  lemma ReadStaysBare(m: Machine, p: nat, running: bool)
    requires Bare(m)
    ensures Bare(ReadBy(m, p, running))
  {
    var t := ReadBy(m, p, running);
    StaysSettled(m, Reads(p, running));
    forall q | q in t.procs ensures !CarriesBatch(t, t.procs[q]) {
      if q in m.procs {
        assert !CarriesBatch(m, m.procs[q]);
      }
    }
  }

  lemma WriteStaysBare(m: Machine, p: nat, giveUp: bool, expiresAt: int)
    requires Bare(m) && Exclusive(m) && !ProcOf(m, p).Moving?
    ensures Bare(WriteBy(m, p, giveUp, expiresAt))
  {
    var t := WriteBy(m, p, giveUp, expiresAt);
    StaysSettled(m, Writes(p, giveUp, expiresAt));
    if ProcOf(m, p) != Idle {
      OthersIdle(m, p);
      assert !CarriesBatch(m, m.procs[p]);
      assert t.procs == m.procs[p := AfterWrite(m.procs[p], giveUp)];
    } else {
      assert Written(m, Idle, giveUp, expiresAt) == m;
      forall q | q in t.procs ensures !CarriesBatch(t, t.procs[q]) {
        assert q in m.procs ==> !CarriesBatch(m, m.procs[q]);
      }
    }
  }

  lemma BareStays(m: Machine, command: Command)
    requires Bare(m) && Exclusive(m) && !IsTransitionWrite(m, command)
    ensures Bare(Do(m, command))
  {
    match command
    case Reads(p, running) => ReadStaysBare(m, p, running);
    case Writes(p, giveUp, expiresAt) => WriteStaysBare(m, p, giveUp, expiresAt);
    case _ => OthersStayBare(m, command);
  }

  lemma OthersStayBare(m: Machine, command: Command)
    requires Bare(m) && !command.Reads? && !command.Writes?
    ensures Bare(Do(m, command))
  {
    var t := Do(m, command);
    StaysSettled(m, command);
    assert t.responses == m.responses && t.hash == m.hash;
    forall q | q in t.procs ensures !CarriesBatch(t, t.procs[q]) {
      assert q in m.procs ==> !CarriesBatch(m, m.procs[q]);
    }
  }

  lemma {:induction false} BareAllAlong(ms: seq<Machine>, i: nat)
    requires i < |ms| && Bare(ms[0]) && forall k :: 0 < k < |ms| && Bare(ms[k - 1]) ==> Bare(ms[k])
    ensures Bare(ms[i])
  {
    if i > 0 {
      BareAllAlong(ms, i - 1);
    }
  }

  lemma StaysBare(m: Machine, ms: seq<Machine>, commands: seq<Command>)
    requires Bare(m) && Continues(ms, commands, m) && NoTransitionWrites(ms, commands)
    ensures ms[|commands|].hash.batch.None?
  {
    forall k | 0 < k < |ms| && Bare(ms[k - 1]) ensures Bare(ms[k]) {
      assert ms[k - 1] in ms;
      BareStays(ms[k - 1], commands[k - 1]);
    }
    BareAllAlong(ms, |commands|);
  }

  /** A rejection that carries a batch does write it. */
  lemma WritesBatchBack(m: Machine, p: nat) returns (ms: seq<Machine>, commands: seq<Command>)
    requires p in m.procs && CarriesBatch(m, m.procs[p]) && Exclusive(m) && m.hash.status == Accepted
    ensures IsRebatched(ms, commands, m)
  {
    ms, commands := [m], [];
    if m.procs[p].Refusing? {
      RejectionGoesOn(m, p, Reads(p, false));
      ms, commands := OneMoreCommand(ms, commands, m, Reads(p, false));
    }
    RejectionGoesOn(ms[|commands|], p, Writes(p, false, 0));
    ms, commands := OneMoreCommand(ms, commands, m, Writes(p, false, 0));
  }

  lemma RejectionGoesOn(m: Machine, p: nat, command: Command)
    requires p in m.procs && CarriesBatch(m, m.procs[p]) && Exclusive(m) && m.hash.status == Accepted
    requires command == if m.procs[p].Refusing? then Reads(p, false) else Writes(p, false, 0)
    ensures var t := Do(m, command);
            && Exclusive(t) && t.hash.status == Accepted && p in t.procs && !IsTransitionWrite(m, command)
            && if m.procs[p].Refusing? then t.procs[p].Declining? && CarriesBatch(t, t.procs[p]) else t.hash.batch.Some?
  {
    OthersIdle(m, p);
    var t := Do(m, command);
    assert t.procs - {p} == m.procs - {p};
    assert forall q :: q in t.procs && q != p ==> q in m.procs - {p} && t.procs[q] == (t.procs - {p})[q];
  }

  /**
   * Exactly when an ACCEPTED hash can name a batch again: when at the commit a dispatch has not yet closed the expired batch,
   * or a rejection that others have still to answer has read it.
   */
  lemma RebatchedIff(ms: seq<Machine>, commands: seq<Command>, i: nat)
    requires ExclusiveTrace(ms, commands) && i < |commands| && |ms[i + 1].wins| > |ms[i].wins|
    ensures CanBeRebatched(ms[i + 1]) <==> DispatchStandsBeforeClosing(ms[i + 1]) || RejectionCarriesBatch(ms[i + 1])
  {
    var t := ms[i + 1];
    TraceKeepsRaceInv(ms, commands, i);
    OnlyTheScriptAssigns(ms[i], commands[i]);
    CommitLeaves(ms[i], commands[i]);
    assert t in ms;
    if p :| p in t.procs && StandsBeforeClosing(t.procs[p]) {
      var d := SomebodyElse(t.reservations.Keys);
      var ns, more := SendsInTheEnd(t, p, d);
      assert IsRebatched(ns, more, t);
    } else if p :| p in t.procs && CarriesBatch(t, t.procs[p]) {
      var ns, more := WritesBatchBack(t, p);
    } else {
      SettledAtCommit(ms[i], commands[i]);
      forall ns: seq<Machine>, more: seq<Command> | Continues(ns, more, t) && NoTransitionWrites(ns, more)
        ensures ns[|more|].hash.batch.None?
      {
        StaysBare(t, ns, more);
      }
    }
  }
}
