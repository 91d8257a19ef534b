# Ride dispatch: a model and its proofs

The backend assigns rides to drivers through Redis. A requested ride is dispatched in batches: the nearest free drivers are reserved one by one, asked together, and the first to accept wins, decided by one Lua script. Timeouts, rejections, cancellations, driver presence and a periodic sweep all write the same keys. One fact, "driver d is on ride r", lives in the ride hash, the driver hash, the `activeRide` key, four pool sets, the reservation token, the responses hash and the pending sets, and different functions update different copies. This project models those keys and calls and proves that the copies agree in every reachable state, that a ride has one winner, that no reservation is orphaned, and how dispatch proceeds and ends.

Run `dafny verify dfyconfig.toml` in this directory.

## How the model is organised

| files | contents |
|---|---|
| `Wrappers.dfy`, `Types.dfy`, `Lifecycle.dfy` | the Redis keys as one `State`, the settings, the status table |
| `Steps.dfy` | what each service call does to the state, as a function |
| `Store.dfy`, `Recovery.dfy` | the calls as imperative methods of a class, loop by loop and write by write, proved equal to those functions |
| `Invariants.dfy`, `Preservation.dfy` | the invariant, in six parts, and that every write keeps each part |
| `Runs.dfy`, `Evolution.dfy`, `Guarantees.dfy` | runs of the whole system and what holds in every state and over every run |
| `Writes.dfy` | the single writes inside each step, and the messages each of them emits |
| `Rounds.dfy`, `EarlyRounds.dfy` | outcomes of a dispatch, which drivers it picks, radius expansion, no repeated offers early on |
| `Acceptance.dfy`, `Batches.dfy`, `Trips.dfy`, `Presence.dfy` | what acceptance, batches, the calls of customer and driver, and driver presence bring about, stated on the keys alone |
| `Publishing.dfy` | deduplication by version: every status write delivered once, the whole a path in the status table; acceptances in parts |
| `Reservations.dfy` | how a reservation ends |
| `Sweep.dfy`, `Recovery.dfy` | the stale-driver sweep with the dispatches it triggers: whole, cut short by a busy lock, and amid other calls |
| `AcceptRace.dfy` | one ride at the grain of single Redis commands, accept calls and locked calls interleaved |
| `Uninterrupted.dfy` | the calls of `AcceptRace.dfy`, run without interruption, have the effect of the functions of `Steps.dfy` |
| `Limits.dfy` | schedules on which stronger statements fail |
| `LeasedLock.dfy`, `RateLimit.dfy`, `Pricing.dfy`, `JobIds.dfy` | the lock, the rate limiter, fares, queue job ids |

## Assumptions

- **Steps.** In `Runs` a call made under a ride, driver or customer lock is one step. `acceptRide` comes in two forms: one step (`Accepts`), or three steps with anything in between: its script (`ScriptRuns`, with a batch record read at any earlier time), the read-back of the ride (`AcceptReads`), and the releases with the messages about what was read (`AcceptFinishes`). A run may mix both. The script takes no lock, so treating locked calls as atomic against it is an assumption; `AcceptRace` drops it for the calls on one ride, and `Limits` for the presence calls that read a driver's ride and write it back. For those presence calls `Limits.LateHeartbeatKeepsIff` and `Limits.LatePresenceKeepsIff` say exactly when the invariant survives; for a ride that has just been accepted, `AcceptRace.OverwrittenIff`, `ReofferedIff` and `RebatchedIff` say exactly when its status, its reservations and its batch field can go wrong. In `AcceptRace` the verdict of the driver guard and whether a batch is past its expiry are arbitrary inputs of each command, so its results hold whatever they are. Run without interruption, each call of `AcceptRace` has the effect that the step has (`Uninterrupted.dfy`).
- **The sweep** takes a lock for each driver and each ride it touches and none across its loops. `Sweep.SweepWith` and the methods of `Recovery.dfy` let no other call run between its parts; a busy lock, which throws out of the loops, may come at any point of them. `Sweep.SweepAmidOtherCalls` and `Sweep.OffDutyGainsNothing` are about runs with any calls between the parts.
- **Environment.** Heartbeat, reservation and cooldown keys may expire in any step, and the clock may advance by any amount. Any call may be made at any time, any number of times, with any arguments; delayed and repeated jobs are such calls.
- **Freshness.** Ride ids, batch ids and lock tokens are drawn from counters, standing for uuids. Ids are already normalised.
- **GEOSEARCH** returns any distinct members of the geo index, in any order and number. "Nearest first" in the results means the order it returned.
- **Ride hashes, responses, notified sets and idempotency keys** do not expire. `batchSize` is at least 1 where a batch is chosen, and `0 < initialRadius <= maxRadius`.
- **Responses** are a datatype, so a decline reason (of any text, also empty) cannot be mistaken for `ACCEPTED`, `TIMEOUT` or a pending mark. A batch id and the batch's driver list and expiry are written together, so they are one record.
- **Coordinates** are reduced to whether the stored ones are blank. A blank coordinate is read back as the number 0, so `goOffline` and session restore turn blank into present; the model does the same.
- **Numbers** in fares are exact reals; rounding follows `Number.prototype.toFixed`, section 21.1.3.3 of ECMA-262.

## Findings

- After the sweep a driver without a heartbeat is OFFLINE exactly when it was in the online set or OFFLINE before, and an offer it had open is cleared exactly when it was in the online set. A driver that a reservation check for another ride has wiped from the pools is not in the online set any more: it keeps status ONLINE in its hash, and its open offers stay in its pending set (`Sweep.OfflineAfterSweep`, `Sweep.OfferOutlivesSweep`, and a run in `Limits.GhostKeepsStatusAndOffer`).
- A sweep that a busy lock cuts short has cleared exactly the offers it rejected. The drivers it took offline are visited by no later sweep, until they come online again, so the rest is left to batch timeouts (`Sweep.CutSweepLeavesTheRest`, `Sweep.MissedByEveryLaterSweep`).
- An acceptance is published under its own version exactly when nothing writes the ride between the script and the call's read-back of it (`Publishing.AcceptancePublishedIff`, and a run in `Limits.InterruptedAcceptanceUnpublished`). With accept taken as one step nothing is lost.
- A heartbeat, `goOnline` or `goOffline` that is not atomic keeps the invariant exactly when the ride it read is the one the driver has when it writes (`Limits.LateHeartbeatKeepsIff`, `Limits.LatePresenceKeepsIff`, and runs in `Limits.StaleHeartbeatUnbinds` and `Limits.StaleOfflineUnbinds`).
- Under the ride lock, an acceptance can be overwritten without any transition call exactly when, at its commit, a dispatch has found the batch expired and not yet closed it (`AcceptRace.OverwrittenIff`, and a schedule in `AcceptRace.AcceptanceOverwritten`). Under the same condition, and no other, such a dispatch can reserve drivers for the accepted ride and offer it to them (`AcceptRace.ReofferedIff`). The accepted hash can name a batch again under that condition, or when a rejection that does not exhaust the batch has read it; status and driver then stay (`AcceptRace.RebatchedIff`, `AcceptRace.DeclineWritesBack`). The driver field is written once in any case.
- With rates and minimum fare not negative and a commission from 0 to 100 percent, commission and earning add up to the fare for all settings but these: commission 100 percent, and a minimum fare that applies and is half a paisa short of a whole one (`Pricing.SharesAddUpIff`, and settings in `Pricing.HalfPaisaLost`).
- A window of the rate limiter's length admits at most `2 * maxRequests - 1` requests, one fewer than two full lifetimes, and that is reached for every limit and every window of more than a millisecond (`RateLimit.WindowBound`, `RateLimit.BoundIsMet`).
- The documents still describe requeueing the ride of a lost driver (`docs/ARCHITECTURE_DEEP_DIVE.md` line 1112, `docs/FLOW_DIAGRAMS.md` line 302). `handleDriverDrop` no longer does that; the model follows the code.

## Model

| member | source | states |
|---|---|---|
| Guarantees.AssignmentBijection | src/redis/scripts.js:18-86 | in every reachable state a ride is ACCEPTED, ARRIVING or ONGOING with a driver exactly when that driver's key names it, exactly when the driver's hash does; the driver is then BUSY or OFFLINE, has no second such ride, and an ONLINE driver has none |
| Guarantees.NoOrphanReservation | src/services/dispatch.service.js:46-104 | a reservation belongs to an unanswered driver of the current batch of a DISPATCHING ride, or a committed accept call still owes its release |
| Guarantees.PendingIndexExact | src/services/dispatch.service.js:339-353 | a ride is in a driver's pending set exactly when it is DISPATCHING and the driver has not answered its current batch, unless an accept call is between its script and its clean-up |
| Guarantees.LiveBatchHasUnansweredDriver | src/services/dispatch.service.js:510-532 | a current batch always has a driver who still has to answer |
| Guarantees.PoolsAgree | src/services/driver-state.service.js:39-110 | geo within available within online, busy within online, available and busy disjoint, membership agrees with status and ride, both ways for drivers with a heartbeat; reserved drivers are online |
| Guarantees.OneRidePerCustomer | src/services/ride-state.service.js:202-226 | `rides:active` is the set of non-terminal rides, each the one its customer's key names, so a customer never has two |
| Guarantees.RidesOnlyAdvance | src/services/ride-state.service.js:363-391 | from any state of a run to any later one a ride survives, its rank and round never fall, its version rises with every change, a set driver stays, a terminal hash is final |
| Guarantees.StatusFollowsTable | src/utils/constants.js:65-81 | every write of a ride hash by every call, those that skip the transition check and those inside a longer call included, raises the version by one and keeps the status or follows an edge of the table, up in rank; nothing leaves a terminal status |
| Guarantees.VersionNamesContent | src/services/ride-state.service.js:387-391 | two states of a run in which a ride has the same version hold the same ride hash |
| Guarantees.DriverCheckIsStable | src/services/ride-state.service.js:527-573 | a driver check made before the lock is taken still holds at any later time |
| Lifecycle.TableClimbs | src/utils/constants.js:65-81 | the table goes up one status at a time, to CANCELLED from every status that is not final, and back to dispatch from ACCEPTED and ARRIVING only |
| Guarantees.CompletedWentThrough | src/utils/constants.js:65-81 | a COMPLETED ride was ACCEPTED, ARRIVING and ONGOING before, in this order, with the driver it ends with |
| Guarantees.SingleWinner | src/redis/scripts.js:22-54 | after one accept call of a ride passes the guards no other ever does, and its driver stays recorded |
| Guarantees.CommitsInTheBatchItRead | src/services/dispatch.service.js:575-615 | a call that commits had read the current batch, and the releases it owes are that batch without the winner |
| Guarantees.EarlierReadIsCurrent | src/services/dispatch.service.js:577-584 | a batch record read at any earlier state of a run is the current one whenever the ids agree, so the unlocked read needs no further assumption |
| Acceptance.AcceptedIff | src/services/dispatch.service.js:575-602 | in any run, a step takes a DISPATCHING ride to ACCEPTED exactly when it is an accept call of that ride, the batch it has read is the current one and has not expired at the time of acceptance, and the caller is a contacted, unanswered, reserved, ONLINE member of it on no other ride; ride, driver, pools and answer are then those of an acceptance |
| Acceptance.CodesNameGuards | src/redis/scripts.js:18-60 | each result code says which guard failed first, with the state of the keys that makes it fail |
| Runs.StepKeeps | src/services/dispatch.service.js:407-646 | every service call, script, expiry and clock step keeps the whole invariant |
| Runs.RunKeeps | src/services/ride-state.service.js:259-507 | the invariant holds in every state of every run from the empty store |
| Evolution.StepEvolves | src/services/ride-state.service.js:128-137 | what one step may change in each ride hash, for all rides at once |
| Writes.EveryWriteFollowsTable | src/services/dispatch.service.js:130-137 | any two neighbouring states inside a step differ in one ride hash at most, by one version and along the table |
| Writes.StepWriteByWrite | src/services/dispatch.service.js:130-264 | between neighbouring states, each status change is emitted under the version just written, and no other status message is |
| Rounds.DispatchOutcome | src/services/dispatch.service.js:106-405 | a dispatch of a REQUESTED or DISPATCHING ride leaves a running batch alone, sends a batch, widens the search or gives up, with the exact condition of each; a sent batch is non-empty and wholly reserved, pending, indexed, notified and messaged, a ride given up leaves no key behind |
| Rounds.NearestFirst | src/services/dispatch.service.js:71-104 | a candidate is in the batch exactly when it may be contacted (not notified before round 2, ONLINE, with a heartbeat, without ride key, cooldown or reservation by another batch) and fewer than `batchSize` such candidates come before it |
| Batches.NewBatchIsGood | src/services/dispatch.service.js:329-347 | whatever step of a run gives a ride a new batch, the batch expires `responseTtl` after now and asks between one and `batchSize` distinct drivers, all of them ONLINE, with a heartbeat, in the geo index, on no ride, not on cooldown and reserved for no other ride |
| Batches.SendingKeepsRound | src/services/dispatch.service.js:129-137 | a dispatch that sends keeps the round and radius of the ride; the first one of a ride starts with round 1 and the initial radius |
| Batches.DispatchRespectsExpiry | src/services/dispatch.service.js:161-217 | a dispatch before the batch expires changes nothing at all; from then on it closes the batch, releases its tokens and times out whoever has not answered |
| Batches.BatchLivesForTtl | src/services/dispatch.service.js:161-217 | over runs: a batch is left alone by every dispatch until `responseTtl` after the step that sent it, and closed by any from then on |
| Batches.TimeoutClosesItsBatch | src/services/dispatch.service.js:422-487 | a timeout job closes its batch if that is still the current one, and does nothing otherwise |
| Batches.RejectionTakesEffect | src/services/dispatch.service.js:489-573 | a rejection of a contacted driver who has not accepted is put on record; the batch stays while others still have to answer, with their answers and reservations, and is gone when nobody does; any other rejection does nothing |
| Batches.CooldownKeepsAway | src/services/driver-experience.service.js:9-39 | over runs: a driver on cooldown is in no new batch, and a rejection puts the driver on cooldown where that is enabled |
| Rounds.FruitlessDispatch | src/services/dispatch.service.js:249-326 | a dispatch that finds nobody changes the ride as one round of the expansion does |
| Rounds.RequestedNeverOffered | src/services/dispatch.service.js:343-347 | in every run, a ride that is still REQUESTED or does not exist has no response from anybody |
| Rounds.StepLeaves | src/services/dispatch.service.js:489-573 | timeouts, rejections, accept calls and driver transitions do nothing to a ride nobody has been offered |
| Rounds.RequestedIsFresh | src/services/ride-state.service.js:290-323 | in every state of every run a REQUESTED ride has round 0, the initial radius, version 1, no batch and no driver |
| Rounds.ExpansionClosedForm | src/services/dispatch.service.js:122-137 | from any REQUESTED ride of any run on: if nobody may be contacted at any of its dispatches and nobody cancels it, its k-th dispatch sees round k and radius min(initial * 2^k, max), and it is cancelled for want of drivers exactly at min(maxRounds, least k with initial * 2^k >= max), whatever else runs in between |
| Rounds.ExpansionFromRequest | src/services/ride-state.service.js:259-329 | the same from the request that creates the ride |
| EarlyRounds.EarlyBatchIsNew | src/services/dispatch.service.js:219-246 | a batch sent while the round is at most 1 holds only drivers this ride has never contacted, and marks them |
| EarlyRounds.EarlyBatchesDisjoint | src/services/dispatch.service.js:241-246 | two such batches of one ride have no driver in common |
| EarlyRounds.EarlyBatchesCount | src/services/dispatch.service.js:343-345 | the number of early batches is at most the number of drivers the ride has contacted |
| EarlyRounds.EarlyBatchesBounded | src/services/dispatch.service.js:343-345 | there are at most as many of them as drivers |
| EarlyRounds.EarlyDispatchProgress | src/services/dispatch.service.js:241-298 | an early dispatch that searches ends the ride, raises the round, or leaves fewer drivers to contact |
| Trips.RequestCreatesRide | src/services/ride-state.service.js:259-329 | a request is granted exactly when the customer has no ride that is not over; it creates, under an id nobody had, a REQUESTED ride of that customer with round 0 and the initial radius, and touches the customer key and the active set besides |
| Trips.DriverMovesRide | src/services/ride-state.service.js:527-573 | for the assigned driver, arriving takes the ride from ACCEPTED to ARRIVING, starting to ONGOING, completing to COMPLETED, one version on; completing frees customer and driver, who is ONLINE, available and, with coordinates, in the geo index exactly when not OFFLINE and with a heartbeat; every other such call changes nothing |
| Trips.CancelEndsRide | src/services/ride-state.service.js:509-525 | a ride that is not over ends CANCELLED by an actor, one version on, and its customer and driver are free in the same way |
| Trips.CompletedRun | src/services/ride-state.service.js:527-573 | a run from a request to COMPLETED, after which the driver can be found again |
| Presence.OnlineCall | src/services/driver-state.service.js:141-189 | a driver on a ride comes back BUSY with it, any other ONLINE and free, as hash, key, heartbeat and pools all say; other drivers' keys and all rides stay |
| Presence.BeatCall | src/services/driver-state.service.js:191-245 | the same refresh, with the coordinates of the heartbeat, unless the driver is OFFLINE or unknown |
| Presence.ReconnectCall | src/services/driver-state.service.js:320-354 | the same refresh on reconnection |
| Presence.OfflineCall | src/services/driver-state.service.js:247-318 | the driver is OFFLINE, in no pool, without heartbeat and reservation, and still on its ride if it was on one |
| Store.Redis.ReleaseLock | src/utils/lock.js:23-34 | compare-and-delete: only this token of this driver goes |
| Store.Redis.ReleaseDriverReservations | src/services/dispatch.service.js:46-57 | of the listed drivers, those that hold this batch's token lose it; every other key stays |
| Store.Redis.ClearPendingMembership | src/services/dispatch.service.js:59-69 | the ride leaves the pending sets of the listed drivers and no other |
| Store.Redis.CleanupGhostAvailability | src/services/driver-state.service.js:112-139 | the driver leaves pools, heartbeat and reservation; its hash stays |
| Store.Redis.IsDriverReservable | src/services/driver-state.service.js:397-429 | the answer, and that a driver without hash or heartbeat is wiped on the way |
| Store.Redis.ReserveDriversForBatch | src/services/dispatch.service.js:71-104 | the loop reserves the first `batchSize` reservable candidates and wipes exactly the ghosts it meets before it stops |
| Store.Redis.DispatchUnderLock | src/services/dispatch.service.js:106-405 | the whole call, write by write, has the effect of the dispatch function |
| Store.Redis.CloseBatch | src/services/dispatch.service.js:177-217 | the unanswered drivers of the batch are timed out, its tokens and index entries go, and the ride has no batch |
| Store.Redis.SendReserved | src/services/dispatch.service.js:329-393 | the reserved drivers become the batch, which expires after `responseTtl`: contacted, pending, indexed and messaged |
| Store.Redis.GiveUp | src/services/dispatch.service.js:249-290 | the ride is cancelled for want of drivers, cleaned up and announced |
| Store.Redis.Widen | src/services/dispatch.service.js:292-326 | the next round with twice the radius, up to the maximum |
| Store.Redis.HandleBatchTimeout | src/services/dispatch.service.js:422-487 | the timeout call closes its own batch and dispatches again, and ignores every other |
| Store.Redis.HandleDriverRejection | src/services/dispatch.service.js:489-573 | a rejection is recorded, and dispatches again exactly when nobody else still has to answer |
| Store.Redis.RecordRejectionOf | src/services/dispatch.service.js:501-559 | the answer, the index entry, the batch if exhausted, cooldown and tokens, and whether everybody has answered |
| Store.Redis.RunAcceptScript | src/redis/scripts.js:18-86 | the guards in their order with their codes, and the commit of all nine keys; a success means the batch had not expired |
| Store.Redis.CommitAccept | src/redis/scripts.js:62-86 | the writes of a successful script, key by key |
| Store.Redis.AcceptRide | src/services/dispatch.service.js:575-646 | succeeds exactly when every guard passes; then winner and losers are settled |
| Store.Redis.RequestARide | src/services/ride-state.service.js:259-361 | refused exactly when the customer has a non-terminal ride; else the new ride is stored with round 0 and the initial radius |
| Store.Redis.TransitionRide | src/services/ride-state.service.js:363-507 | the transition with its errors, its messages and the clean-up of a terminal ride |
| Store.Redis.CleanupTerminalRideKeys | src/services/ride-state.service.js:202-247 | active set, customer key, pending sets and reservations let go of the ride, and its driver is released |
| Store.Redis.ReleaseDriverAvailability | src/services/ride-state.service.js:154-200 | the driver returns to the pools exactly when it is not OFFLINE and has a heartbeat |
| Store.Redis.DriverMoves | src/services/ride-state.service.js:527-573 | arriving, start and completion for the assigned driver only, with the reply in every case: done if the ride is there already or the table allows it, else the error |
| Store.Redis.CancelARide | src/services/ride-state.service.js:509-525 | cancels a ride that is not terminal, and says when there is none |
| Store.Redis.PersistDriverRealtimeState | src/services/driver-state.service.js:39-110 | hash, heartbeat, pools and ride key after a presence write |
| Store.Redis.ComeOnline | src/services/driver-state.service.js:141-189 | a driver who still has a ride comes back BUSY with it, else ONLINE |
| Store.Redis.Beat | src/services/driver-state.service.js:191-245 | a heartbeat of an unknown driver is refused, of an OFFLINE one ignored |
| Store.Redis.Restore | src/services/driver-state.service.js:320-354 | a reconnecting driver keeps status and ride |
| Store.Redis.LeaveOnline | src/services/driver-state.service.js:247-318 | the driver leaves pools and reservation but keeps its ride, and the rides with open offers are reported |
| Sweep.SweepClearsStaleDrivers | src/services/recovery.service.js:68-81 | after a sweep run through without a break, with the dispatches its rejections trigger, every online driver without heartbeat is OFFLINE, in no pool, unreserved, without open offers, and was offered nothing; assigned rides are unchanged |
| Sweep.SweepSkipsGhosts | src/services/driver-state.service.js:374-395 | a driver already out of the online set keeps the status it had and stays out of every pool |
| Sweep.OfflineAfterSweep | src/services/recovery.service.js:68-81 | exactly when a driver without heartbeat is OFFLINE after the sweep |
| Sweep.RejectClearsOne | src/services/dispatch.service.js:510-559 | of the open offers of drivers without heartbeat, a rejection with its dispatch clears the one it is about and no other |
| Sweep.OfferOutlivesSweep | src/services/driver-state.service.js:374-421 | exactly when an open offer of a driver without heartbeat outlives the sweep: when the driver was no longer in the online set |
| Sweep.CutSweepLeavesTheRest | src/services/recovery.service.js:68-81 | a sweep cut short has cleared exactly the offers it rejected; the drivers it took offline are off duty and not visited by a sweep that follows |
| Sweep.MissedByEveryLaterSweep | src/services/driver-state.service.js:374-395 | over any run, what was left of a driver taken offline is cleared by no later sweep until the driver comes online again |
| Sweep.OffDutyGainsNothing | src/services/driver-state.service.js:247-318 | over any run, a driver that has gone offline gains no offer, request, reservation or pool entry until it comes online again |
| Sweep.RejectedForGood | src/services/recovery.service.js:25-31 | a rejection on behalf of such a driver settles the offer for good, whatever runs afterwards |
| Sweep.SweepAmidOtherCalls | src/services/recovery.service.js:68-81 | with any calls between the parts of the sweep, a driver taken offline and rejected for each offer it had open ends OFFLINE, in no pool, unreserved and without open offers, unless it has come back online |
| Sweep.RejectUndisturbing | src/services/dispatch.service.js:489-573 | a rejection, with the dispatch it may start, neither reserves nor contacts a driver that is out of the geo index, and leaves assigned rides alone |
| Recovery.ScanStaleDrivers | src/services/driver-state.service.js:374-395 | the scan takes stale drivers offline until a lock is busy; with none busy it takes exactly the stale drivers and reports each with its open offers |
| Recovery.HandleDriverDrop | src/services/recovery.service.js:19-31 | for any reason given: makes rejections with that reason for the reported driver only, and one for each reported offer unless a lock is busy |
| Recovery.DropFromDispatch | src/services/recovery.service.js:71-78 | every reported driver is dropped from every ride it had an offer for, until a lock is busy |
| Recovery.MarkDriverUnavailableDuringDispatch | src/services/dispatch.service.js:648-650 | one more rejection with the reason given, or none if the ride lock is busy |
| Recovery.ScanStaleDriversAndRecover | src/services/recovery.service.js:68-81 | the two loops are the sweep of the drivers visited with the rejections made; with no lock busy they visit every stale driver, cover every open offer of theirs, keep the promise of the sweep and count them |
| Recovery.RecoverDispatchingRides | src/services/recovery.service.js:83-116 | a job is queued for an active DISPATCHING ride exactly when it has no running batch, and ids without hash leave the active set |
| Limits.GhostKeepsStatusAndOffer | src/services/driver-state.service.js:414-421 | a run after which a driver has no heartbeat, is in no pool, is ONLINE by its hash and has an open offer, and no sweep changes that |
| Limits.InterruptedAcceptanceUnpublished | src/services/dispatch.service.js:611-629 | a run in which a ride is accepted, cancelled before the call reads it back, and no published message has the version of the acceptance |
| Limits.LateHeartbeatKeepsIff | src/services/driver-state.service.js:200-223 | exactly when a heartbeat that reads in one state and writes in another keeps the invariant |
| Limits.StaleHeartbeatUnbinds | src/services/driver-state.service.js:200-223 | a run after which a heartbeat that read before an acceptance and writes after it leaves the ride with a driver who has no ride key and is ONLINE |
| Limits.LatePresenceKeepsIff | src/services/driver-state.service.js:149-168 | the same for goOnline, and for goOffline (lines 255-285): exactly when reading in one state and writing in another keeps the invariant |
| Limits.StaleOfflineUnbinds | src/services/driver-state.service.js:255-285 | a run after which a goOffline that read before an acceptance and writes after it leaves a ride whose driver names no ride |
| Publishing.PublishedWasEmitted | src/services/socket-publisher.service.js:16-38 | nothing is published that was not emitted |
| Publishing.EveryKeyPublished | src/services/socket-publisher.service.js:16-38 | of each key the first message emitted is published |
| Publishing.EveryRequestPublished | src/services/socket-publisher.service.js:140-147 | every ride request emitted to a driver is published: its key names driver, ride and batch |
| Publishing.PublishedKeysDistinct | src/utils/idempotency.js:3-10 | and no other |
| Publishing.Publisher.MarkIdempotent | src/utils/idempotency.js:3-10 | true exactly for a key not seen before |
| Publishing.Publisher.Publish | src/services/socket-publisher.service.js:16-38 | what has been published is the deduplicated log of what was emitted |
| Publishing.EveryStatusDeliveredOnce | src/services/socket-publisher.service.js:58-78 | with accept calls in one step, every write that changes a status, inside a longer call too, is published exactly once, under the version it wrote, although most paths emit it twice, and no other published message names that status |
| Publishing.PublishedUpdatesFormPath | src/services/socket-publisher.service.js:58-78 | with accept calls in one step, after every write the published updates of a ride are a path in the status table from REQUESTED to its present status, with rising versions |
| Publishing.AcceptancePublishedIff | src/services/dispatch.service.js:585-629 | in any run, with script, read-back and messages of an accept call at a distance from each other: the acceptance is published under its own version exactly when nothing has written the ride between script and read-back |
| Reservations.OnlyItsRideReleases | src/services/dispatch.service.js:46-57 | in any run a reservation ends only in a call of its own ride, by expiry, when its driver goes offline, or when a reservation check finds the driver without hash or heartbeat; no call deletes the token of another ride |
| AcceptRace.AtMostOneWinner | src/redis/scripts.js:22-54 | with the script free to fire between any two commands of any number of locked calls, no lock needed, at most one script commits and the driver field names it |
| AcceptRace.DriverWrittenOnce | src/redis/scripts.js:27-30 | once set, the driver field never changes |
| AcceptRace.ReservationsStand | src/services/dispatch.service.js:71-104 | amid any interleaving, a reservation is never replaced, only released, and one for another ride is released by no command of this ride |
| AcceptRace.CommitsInTheBatchItRead | src/services/dispatch.service.js:575-615 | given the ride lock, a call that commits had read the batch that is current at that instant, so its losers are that batch without the winner |
| AcceptRace.CommitMeetsGuards | src/redis/scripts.js:22-54 | amid any interleaving, a script that commits has found the ride DISPATCHING without a driver, the batch not expired at the call's time, and the caller contacted, unanswered and reserved; it writes status, driver and answer and takes the reservation away |
| AcceptRace.NoTokenOutlivesTheWinner | src/services/dispatch.service.js:613-615 | after a win every reservation under the winning batch is one the winner's call still has to release |
| AcceptRace.TraceKeepsRaceInv | src/services/dispatch.service.js:161-217 | between any two commands, batch ids name one record each, what a locked call has read is still true, and every token is accounted for |
| AcceptRace.AcceptanceOverwritten | src/services/dispatch.service.js:161-276 | a schedule of one locked call and one accept call that ends CANCELLED with a driver assigned |
| AcceptRace.OverwrittenIff | src/services/dispatch.service.js:161-276 | an acceptance can end CANCELLED without a transition call exactly when at its commit a dispatch stands between finding the batch expired and closing it; otherwise the ride stays ACCEPTED until a transition call writes |
| AcceptRace.ReofferedIff | src/services/dispatch.service.js:219-353 | without a transition call, a driver can be reserved for and offered an accepted ride exactly under the same condition at its commit |
| AcceptRace.RebatchedIff | src/services/dispatch.service.js:529-543 | without a transition call, an accepted hash can name a batch again exactly under that condition or when a rejection that does not exhaust the batch has read it |
| AcceptRace.StaysSettled | src/services/dispatch.service.js:106-120 | with no locks at all: once a ride has left dispatch and no dispatch is past its status check, this stays so, and only a transition call changes the status |
| AcceptRace.DeclineWritesBack | src/services/dispatch.service.js:529-543 | a rejection that read the hash before a commit writes the batch won in back into the accepted hash unless it exhausts that batch, and leaves status and driver |
| Uninterrupted.DispatchAlone | src/services/dispatch.service.js:106-405 | the two grains agree: a dispatch of `AcceptRace`, run command by command with nothing in between, ends with the ride's hash, responses, notified set, reservations and batch counter as the dispatch function of `Steps` leaves them |
| Uninterrupted.TimeoutAlone | src/services/dispatch.service.js:422-487 | the same for a timeout job |
| Uninterrupted.RejectAlone | src/services/dispatch.service.js:489-573 | the same for a rejection with the dispatch it may start |
| Uninterrupted.MoveAlone | src/services/ride-state.service.js:363-507 | the same for every transition, the refused ones included, other than to DISPATCHING or ACCEPTED |
| Uninterrupted.AcceptAlone | src/services/dispatch.service.js:575-646 | the same for an accept call, refused or successful, with its releases |
| LeasedLock.Lock.AcquireLock | src/utils/lock.js:12-21 | set-if-absent with a lease, under a fresh token |
| LeasedLock.Lock.ReleaseLock | src/utils/lock.js:23-34 | deletes exactly the caller's own running lease, and says whether it did |
| LeasedLock.ReleaseSparesSuccessor | src/utils/lock.js:5-10 | for any number of processes and any timing, no release by another process touches the lock of a process whose lease is running |
| LeasedLock.ReleaseFreesIff | src/utils/lock.js:23-34 | a release frees the key exactly when the releaser's lease is still running |
| LeasedLock.SectionsExclude | src/utils/lock.js:37-48 | if nobody outstays its lease, critical sections never overlap |
| LeasedLock.OverlapMeansLate | src/utils/lock.js:37-48 | when two overlap, the one that entered first has outstayed its lease |
| LeasedLock.LateHolderOverlaps | src/utils/lock.js:37-48 | outstaying is enough: a history with two processes inside |
| RateLimit.Limiter.EnforceLimit | src/services/rate-limit.service.js:10-32 | without actor, limit or window nothing is limited or stored; otherwise one counter moves and the request passes while it is within the limit |
| RateLimit.LifetimeBound | src/services/rate-limit.service.js:16-20 | one lifetime of the key admits at most `maxRequests`, whatever the interleaving of INCR and EXPIRE |
| RateLimit.WindowBound | src/services/rate-limit.service.js:10-32 | any half-open interval as long as the window admits at most `2 * maxRequests - 1` |
| RateLimit.BoundIsMet | src/services/rate-limit.service.js:10-32 | for every limit and every window of more than a millisecond, a trace in which it does |
| Pricing.RoundIsNearest | src/services/pricing.service.js:10-12 | rounding gives the nearest whole paise, ties away from zero, and nothing else has that property |
| Pricing.SubtotalNearExact | src/services/pricing.service.js:28 | rounding each of four amounts and then their sum moves the sum by at most 0.02; which amounts a fare is made of is said by the next row |
| Pricing.ChargesFollowRates | src/services/pricing.service.js:22-28 | each charge is its quantity times its own rate times 1.5 for PREMIUM, 0.85 for AUTO and 1 otherwise, to the nearest paisa; the four add up to within 0.02 of the exact sum |
| Pricing.FareRepeatsInputs | src/services/pricing.service.js:34-50 | the fare also records its inputs, the minimum and the percentage, to the nearest hundredth |
| Pricing.CommissionFollowsPercentage | src/services/pricing.service.js:29-32 | the total is the sum of the charges or the minimum, whichever is more; the commission is that times the percentage over 100, and the earning the rest, each to the nearest paisa |
| Pricing.SubtotalIsSum | src/services/pricing.service.js:24-28 | the rounded components add up to the subtotal, so rounding it again changes nothing |
| Pricing.SharesAddUp | src/services/pricing.service.js:29-32 | with 0 to 100 percent and a minimum fare in whole paise, commission and earning are non-negative and add up to the total |
| Pricing.SharesAddUpIff | src/services/pricing.service.js:29-32 | commission and earning add up to the total, neither negative, unless commission is 100 percent and a minimum fare half a paisa short of a whole one applies, and exactly then not |
| Pricing.HalfPaisaLost | src/services/pricing.service.js:29-32 | settings and a trip on which they do not |
| Pricing.MinimumApplies | src/services/pricing.service.js:29-30 | for any minimum fare: it is charged, in whole paise, exactly when the components sum to less, their sum otherwise, and the flag says which |
| Pricing.FareMonotone | src/services/pricing.service.js:22-51 | a longer, slower or more delayed ride never costs less |
| Pricing.PremiumNotCheaper | src/services/pricing.service.js:4-8 | a PREMIUM trip is never estimated below a STANDARD one over the same distance |
| Pricing.EtaIsLeast | src/services/eta.service.js:35-41 | the estimate is the least whole number of minutes, at least one, in which the distance can be driven at the average speed, times 0.95 for PREMIUM and 0.85 for AUTO, at least 8 km/h |
| Pricing.MeteredTime | src/services/ride-state.service.js:139-152 | the metered time is the time since acceptance to the hundredth of a minute |
| Pricing.MeterFallsBack | src/services/ride-state.service.js:139-152 | without an acceptance on record the time counts from the request; when no time has passed, or none is on record, it is the estimate |
| Pricing.GivenValuesAreCharged | src/services/ride-state.service.js:406-427 | a completion is charged for the distance and time given, else for those on record, else for the estimated distance and the metered time, 0 counting as absent, and for the waiting time given |
| Pricing.FinalFareNearEstimate | src/services/ride-state.service.js:406-441 | for any minimum fare, the final fare differs from the estimate by the price of the extra or saved minutes and at most 0.01 |
| Pricing.FinalFareNearQuote | src/services/ride-state.service.js:280-291 | so the final fare of a requested ride stays that close to the estimate shown when it was requested, whenever it was accepted |
| JobIds.SanitizeIsClean | src/queues/index.js:40-47 | a part comes out non-empty, of letters, digits, dashes and underscores, without doubled dash or underscore and with neither at an end |
| JobIds.CleanIsFixed | src/queues/index.js:40-47 | exactly such parts are left alone, so cleaning twice is cleaning once |
| JobIds.SanitizeKeepsLetters | src/queues/index.js:40-47 | the letters and digits of a part survive in order; "part" stands in when there are none |
| JobIds.StrayCharacter | src/queues/index.js:40-47 | between clean parts any other character comes out as one separator, an underscore for colons and white space, a dash for the rest, and nothing else changes |
| JobIds.JobIdDecodes | src/queues/index.js:49-51 | splitting a job id at double underscores gives back the cleaned parts |
| JobIds.SameIdIffSameParts | src/queues/index.js:49-51 | two jobs share an id exactly when their parts clean up alike |
| JobIds.CleanPartsGiveDistinctIds | src/queues/index.js:49-51 | on clean parts, ids are injective |
| JobIds.UncleanPartsCollide | src/queues/index.js:41-43 | on others they are not |

## Left out

- Guarantees.PendingIndexExact: not claimed for a ride whose accept call is between its script and its clean-up; there the losers' entries are still owed.
- Publishing.EveryStatusDeliveredOnce: claimed for runs whose accept calls are completed at once; `Publishing.AcceptancePublishedIff` says what holds in the others.
- Publishing.PublishedUpdatesFormPath: the same.
- Sweep.SweepClearsStaleDrivers: the same exception for offers of a ride whose accept call still has to clear them; drivers outside the online set are the subject of `Sweep.OfflineAfterSweep` and `Sweep.OfferOutlivesSweep`, other calls between the parts of the sweep that of `Sweep.SweepAmidOtherCalls`.
- AcceptRace.CommitsInTheBatchItRead: assumes that the ride lock excludes other locked calls of the ride; the single winner needs no such assumption.
- Recovery.HandleDriverDrop: does not model the connection-lost message to the customer of an ONGOING ride, which changes no key.
- AcceptRace.TraceKeepsRaceInv: rides carry no version there. A locked call computes the version it writes from its own earlier read, so one under way at a commit may write the number the script has just used; unique versions are claimed for atomic calls only (`Guarantees.VersionNamesContent`).
- HTTP routes, controllers, authentication, Socket.IO rooms, payload enrichment, push placeholders and logging: no shared state.
- BullMQ: retries, delays and duplicate handling. Jobs are calls that may come at any time.
- GEOSEARCH distances and the haversine formula: the candidate list is an input.
- The rebuild of Redis from Mongo and the persistence workers: they restore from a copy that lags behind, so the invariants are not claimed across them.
- `requeueRideAfterDriverLoss`: nothing calls it.
- `withRetryLock`, and the error a single call returns when its lock is busy: that call changes nothing. Inside the sweep such an error is part of the model.
- Timeline entries, Mongo updates, timestamps, coordinates, sockets and metadata of the hashes.
- The driver's copy of a status update and the other message kinds: they go through the same deduplication under keys of their own.
- Termination of dispatch from round 2 on: the filter then re-admits drivers already notified, so a driver who never answers can be offered the ride for ever.
- Expiry of ride hashes, responses and idempotency keys, which takes hours.
- IEEE doubles: fares and radii are exact reals. `toFixed` of values from 1e21 on and NaN inputs are not modelled.
- The separate Redis keys as separate variables: the class of `Store.dfy` holds all keys in one field and assigns it command by command. It runs one call at a time; `AcceptRace.dfy` has the interleaving.
- Interleaving of commands across several rides or with the driver lock: `AcceptRace.dfy` covers one ride, its reservations and the environment.
- `fn` inside `withLock`: a critical section is the time between acquire and release.
