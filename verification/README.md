# Reool, verified

A Dafny model of reool, a connection pool for Redis, with proofs about it. Reool promises a pool of a fixed size:
connections that break are created again, connections that come back are reused, and callers that find no
connection may wait in line. Nobody owns the connections centrally; whether the promise holds depends on drop
handlers, retry loops, channels and counters in five places. The model puts these together and proves what they
achieve jointly.

`dafny verify dfyconfig.toml` checks the project. Every lemma carries `{:induction false}`: the inductions are written out, and
no proof rests on the verifier's automatic induction.

## How it is built

One **sub pool** is modelled twice, and the objects are proved to follow the state machine.

* As a state machine over values. `SubPool.dfy` has the messages and what the inner pool does with one of them;
  `System.dfy` adds the two channels, the create loops, the clients, the handle and the clock. A step is what one
  thread does at one moment: a client receives, hangs up, starts a command, loses it; a factory answers; the consumer
  takes a message from either channel. A step that is not enabled changes nothing, so every list of steps is a
  run, and what is proved "for every run" is proved for every interleaving of every number of clients. What the consumer
  counts after it has sent a connection, first the reservation that was fulfilled and then the connection in flight, are
  steps of their own, and so are the three parts of dropping a broken connection.
* As the objects that the program has: `InnerPool`, `IdleConnections`, `PoolInstrumentation`, `StateCounters`,
  `OwnedManaged`, `ExtendedConnectionFactory`, `PoolConnection`, `PoolInternal`, its `Consumer` and its channels, and
  those who use them: create loops, the cleanup ticker and clients, in `InnerPool.dfy`, `Instrumentation.dfy`,
  `Managed.dfy`, `PoolInternal.dfy` and `Participants.dfy`. `PoolInternal.Shows(s)` says that the objects are what
  the state `s` says. It holds after construction for the start state, and each method keeps it along its steps:
  `PoolInternal.CheckOut2` (RequestCheckOut), `PoolInternal.Drop` (DropHandle), `Consumer.HandleNext` (TakeInternal or
  TakeCheckout with the two CountOne steps after it), `CleanupTicker.Tick` (CleanupTick), `CreateLoopRunner.Probe` and
  `CreateLoopRunner.AttemptEnds` (CreateLoop) and the methods of `PoolClient` (Client; losing a command
  is its three steps in a row). Only Pass, which moves nothing but the clock, has no method.

The state machine is then reasoned about with one ledger (`Ledger.dfy`): every station (create loop, internal channel,
checkout channel, idle store, reservation queue, oneshot or client) has a weight for each thing that circulates, be it
a slot, a raw connection, a sender, or something a gauge has to count. `Consumption.dfy`, `Shapes.dfy`, `Balance.dfy` and
`Conservation.dfy` show that every step keeps the ledger balanced. What follows for a caller or an operator is in
`Stations.dfy`, `Gauges.dfy`, `CleanConnections.dfy`, `Answers.dfy`, `Reservations.dfy`, `Fairness.dfy`, `Ticks.dfy`,
`Stopping.dfy` and `CreateLoops.dfy`. What single steps do to the whole pool in every reachable state is stated in
`Outcomes.dfy` for messages, requests and create loops, and in `Returns.dfy` for clients, up to the way back of a connection;
they are stated without the functions that compute the steps. `Observation.dfy` adds up the gauges of several sub pools.

The **dispatcher** over several sub pools is in `Dispatch.dfy`, its layout in `Layout.dfy`, the retry loop around it in
`Retry.dfy` and `Constraints.dfy`, and the delays between connection attempts in `Backoff.dfy`. `EndToEnd.dfy` follows a
checkout from the dispatcher through a sub pool to its answer.

## What turned out differently than one might expect

* The `in_flight` gauge of a living pool can wrap around to 18446744073709551615. `Gauges.InFlightWrapsExactly` says
  exactly when, `Gauges.InFlightDoesWrap` gives a run, and `Gauges.GaugesAgree` shows that the gauge is at most one too low.
  The drop of the inner pool nevertheless always reads a true value (`Conservation.StopReadsTrueGauge`).
* So the state of a pool of several sub pools, which adds up what their counters show, can overflow: it does exactly while
  two of the `in_flight` gauges have wrapped, or one has while another is above zero (`Observation.StateOverflowsExactly`,
  with a run in `Observation.StateDoesOverflow`). Where additions wrap around instead of panicking, the result
  shows the true sum modulo 2^64 (`Observation.WrappingSumIsObserved`).
* The `reservations` gauge can be one too high: a client that was served from the queue can own its connection while
  its reservation still counts (`Gauges.GaugesAgree`, `Gauges.OwnerMayReadOldGauge`, `Gauges.OwnerDoesReadOldGauge`).
* The gauges of a stopped pool end at zero exactly if nothing was in flight or reserved at the stop
  (`Stopping.GaugesEndAtZeroExactly`): a connection that comes back later stays in `connections`, one that breaks later
  takes `in_flight` below zero, and reservations that were dropped are never counted out
  (`Stopping.ReservationsOutliveTheStop`).
* The configured reservation limit is kept exactly if the deque was built with no more room than asked for
  (`Reservations.ConfiguredLimitHoldsExactly`), because the code compares with the capacity.
* A cleanup that comes too early still restarts the interval, so frequent cleanups never clean
  (`Reservations.FrequentCleanupsNeverClean`).
* A connection whose receiver leaves at the last moment goes back to the idle ones stamped as checked out, and
  only then is an idle connection stamped (`Reservations.RacedConnectionGoesBack`, `Reservations.OnlyRacesLeaveStamps`).
* Round robin is fair for every run of dispatches exactly if the number of sub pools divides 2^64
  (`Dispatch.BalanceHoldsExactly`), because the counter wraps around; until it does, it is always fair
  (`Dispatch.FirstChoicesAreBalanced`).
* With several sub pools, a caller who is willing to wait gets a reservation only if all sub pools but the last tried
  refused the request before (`Dispatch.ReservedOnlyInLastResort`, `Dispatch.WillingToWaitIsNotEnough`). A dispatch that
  succeeds has only put the request into a channel, and the caller who waits can end with NoConnection
  (`EndToEnd.WaitingIsDecidedAtOnce`, `EndToEnd.WaitingEndsWithNothing`).
* The comments in the backoff table say 50000 and 60000 at its last two entries (`src/backoff_strategy.rs:30-31`); the sums
  are 40000 and 50000, and the model follows the numbers.
* The documentation of both incremental strategies says that the maximum delay is ten seconds, and of the capped one that
  a delay is not more than the cap (`src/backoff_strategy.rs:47-50`). With jitter neither holds: ten seconds are exceeded from
  attempt 26 on unless the cap is below 8335 ms (`Backoff.JitterExceedsTheMaximumExactly`), and the cap is exceeded wherever it
  cuts the delay and is at least six milliseconds (`Backoff.JitterExceedsTheCapExactly`, which also covers delays below
  the cap). The special case for one millisecond (`src/backoff_strategy.rs:80-81`) has no effect, as jitter
  matters exactly from six on.

## Assumptions

* Spawning a future and waiting for a timer succeed. The clock is monotone. Adding a duration to an instant and
  `position + pools.len()` do not overflow; the first choice of a dispatch is made before that addition.
* The deque that holds reservations reports one constant capacity, which is at least the configured limit, as long as it
  is not asked to grow (`Reservations.QueueIsBoundedAndNeeded` shows that it never is). The checkout channel has
  room for at least one request, as the channel's own constructor demands.
* The channels are first in first out, closed once their receiver is gone, and drop what they hold with their receiver. The
  merged stream may yield from either channel; nothing proved here depends on which.
* Gauges are integers in the model. What an observer of an atomic counter sees of a value `c` is `Usize(c)`, which is `c`
  modulo 2^64.
* A sender of a oneshot finds its receiver gone or not. The one place that looks twice, at `is_closed` and then at
  `send`, may find it gone the second time only; that is what `races` says in a checkout.

## Model

| member | source | states |
|---|---|---|
| Ledger.StartKeepsInv | src/pools/pool_internal/mod.rs:128-213 | a new sub pool satisfies the invariant: each slot is in its create loop, and every gauge, queue and channel agrees with that |
| Conservation.NextKeepsInv | src/pools/pool_internal/mod.rs:416-456 | every step of every participant, enabled or not, keeps the shape of all stations and the balance of the ledger |
| Conservation.EveryRunKeepsInv | src/pools/pool_internal/mod.rs:416-456 | the invariant holds after every sequence of steps of every valid configuration |
| Stations.EverySlotHasOneHome | src/pools/pool_internal/managed.rs:59-101 | slot conservation: while the pool is alive each of the desired_pool_size slots is in exactly one place, there is no other slot, and even afterwards none is ever in two places |
| Gauges.PoolSizeIsFixed | README.md:15-15 | the pool has a fixed size: create loops, check ins in the channel, idle connections and owners of a slot add up to desired_pool_size in every living state |
| Gauges.GaugesAgree | src/pools/pool_internal/inner_pool/mod.rs:137-180 | in every living state idle and connections equal what they count, reservations is the queue length plus the one reservation fulfilled and not counted out yet, and in_flight lacks exactly the connection sent and not counted yet |
| Gauges.OwnerMayReadOldGauge | src/pools/pool_internal/inner_pool/mod.rs:141-154 | from every reachable state in which a check in serves the head of the queue, that client can own its connection while the reservations gauge is one too high |
| Gauges.OwnerDoesReadOldGauge | src/pools/pool_internal/inner_pool/mod.rs:141-154 | a concrete run with one slot and one client in which it is |
| Gauges.QuietGaugesAddUp | src/pools/pool_internal/managed.rs:85-94 | whenever nothing is half counted, connections == idle + in_flight |
| Gauges.GaugesAreBounded | src/pools/pool_internal/instrumentation/mod.rs:81-137 | no gauge of a living pool exceeds its bound or falls below zero, except in_flight, which never falls below -1 |
| Gauges.InFlightWrapsExactly | src/pools/pool_internal/inner_pool/mod.rs:191-198 | the observed in_flight differs from the true number exactly while one sent connection is uncounted and nothing else is in flight |
| Gauges.InFlightDoesWrap | src/pools/pool_internal/managed.rs:86-94 | a concrete run with one slot and one client after which in_flight reads 2^64 - 1 |
| Conservation.StopReadsTrueGauge | src/pools/pool_internal/inner_pool/mod.rs:287-293 | whenever the consumer is between two messages in_flight has not wrapped, so the loop that counts down runs at most desired_pool_size times |
| CleanConnections.OnlyCleanConnectionsAreOffered | src/pool_connection.rs:31-88 | over all runs, whatever is idle, on its way in or handed out is clean, and a client's connection has its value exactly when its state is ok, which is exactly when no command is under way |
| CleanConnections.LostConnectionsStayLost | src/pool_connection.rs:82-88 | a connection given up in the middle of a command is in no station of any later state |
| CleanConnections.OnlyCommandsLose | src/pool_connection.rs:35-48 | a connection is lost by a step exactly if that step is the failure or cancellation of the command that holds it |
| CleanConnections.ConnectionsAreNotShared | src/pools/pool_internal/managed.rs:59-101 | no raw connection is ever in two stations, so never with two clients |
| CleanConnections.EveryConnectionIsSomewhere | src/pools/pool_internal/managed.rs:59-101 | while the pool is alive every connection that was ever made is in exactly one station unless it was given up in the middle of a command: nothing else loses one |
| CleanConnections.BrokenConnectionIsReplaced | src/pools/pool_internal/managed.rs:85-100 | the three parts of a broken drop count it out of connections and in_flight and start a create loop with its slot, and change nothing else |
| Returns.DroppedConnectionReturns | src/pool_connection.rs:82-88 | in every run, a client that drops a connection outside a command has nothing left; exactly that connection, with its raw connection, its slot and its stamp, is appended to the internal channel, or closed and counted as closed if the pool is gone; nothing else changes |
| Returns.UnreceivedConnectionReturns | src/pools/pool_internal/managed.rs:59-84 | the same for a connection that was delivered to a receiver which is dropped |
| Returns.ReceiversReceiveOrLeave | src/pools/pool_internal/mod.rs:246-256 | a receiver that is dropped while it waits is gone; one that was sent a connection and takes it holds the very same one, with its state ok |
| Returns.CommandsTakeAndGiveBack | src/pool_connection.rs:35-48 | in every run, a command takes the raw connection of its client, which has none and a state that is not ok until it is given back, clean |
| Returns.CommandsLeaveNoTrace | src/pool_connection.rs:35-48 | in every run, beginning a command and getting its reply leads back to exactly the same state of the whole pool |
| Returns.NothingElseIsPossible | src/pools/pool_internal/managed.rs:59-101 | in every run, an action changes the situation of a request exactly if it is possible there: waiting allows to hang up, delivery to receive or hang up, owning to begin a command or drop, a command to succeed or get lost, and a broken drop its next part; everything else leaves the whole pool alone |
| Returns.ReturnedConnectionIsReused | src/pool_connection.rs:82-88 | round trip: from every reachable state in which the handle exists, once the internal channel is worked off, the raw connection that a client has just dropped is idle or delivered to a request |
| Answers.AnswersAreFinal | src/pools/pool_internal/inner_pool/mod.rs:182-237 | over any continuation of any run a refused request keeps its answer, a delivered connection stays as it is until it is received, then it is the same connection of the same slot until it is finished, its slot outlasts a loss, and no stage is entered twice: no sender is used twice |
| Answers.EverySenderIsAccountedFor | src/pools/pool_internal/mod.rs:244-298 | the sender of a waiting request exists exactly once, in the checkout channel or the reservation queue of a living pool; an answered request has none |
| Outcomes.RequestIsSent | src/pools/pool_internal/mod.rs:276-296 | in every run with a handle, a request with its own permission to wait is the last in the checkout channel, or refused with CheckoutLimitReached if that is full, and nothing else changes |
| Answers.UnreservedNeverStays | src/pools/pool_internal/inner_pool/mod.rs:203-210 | a waiting request that may not be reserved is in the checkout channel and never in the reservation queue |
| Answers.RequestsMeetALivingPool | src/pools/pool_internal/mod.rs:282-296 | as long as the handle exists the pool is alive, so a request is accepted exactly if the channel has room, and otherwise refused with CheckoutLimitReached |
| Answers.NobodyWaitsForADeadPool | src/pools/pool_internal/mod.rs:249-255 | once the pool is gone no request is left waiting |
| Reservations.RacedConnectionGoesBack | src/pools/pool_internal/inner_pool/mod.rs:183-194 | a failed send returns the connection to the idle store, stamped, as the one put back last, and leaves gauges, reservations and other requests alone |
| Reservations.OnlyRacesLeaveStamps | src/pools/pool_internal/inner_pool/mod.rs:118-194 | if an idle connection is stamped as checked out, the run has a moment at which the consumer took a request whose receiver was there, with an idle connection for it, and the receiver left between is_closed and send |
| Reservations.CleanupIsExact | src/pools/pool_internal/inner_pool/mod.rs:254-280 | a cleanup that is due keeps exactly the open reservations in order, one that is not due keeps all, both restart the interval and count out exactly what they removed |
| Ticks.TicksCleanTheQueue | src/pools/pool_internal/mod.rs:179-200 | from every reachable state, once the internal channel and then a tick later than the interval are worked off, with no other step in between, the queue is exactly what it was, in order, without those that cannot be answered any more |
| Ticks.DueCleanupsRemoveTheClosed | src/pools/pool_internal/inner_pool/mod.rs:254-280 | over every run, whatever else happens: once a due cleanup has been processed, no request that could not be answered any more before is in the queue then or ever after |
| Reservations.FrequentCleanupsNeverClean | src/pools/pool_internal/inner_pool/mod.rs:261-279 | any number of cleanups, each within the interval after the one before, leaves a queue that is not full unchanged |
| Reservations.LimitIsReachedExactly | src/pools/pool_internal/inner_pool/mod.rs:214-237 | NoConnection exactly if the capacity is zero, ReservationLimitReached exactly if the queue is full of open reservations, otherwise the request is last in a queue within the capacity |
| Outcomes.IdleIsHandedOut | src/pools/pool_internal/inner_pool/mod.rs:182-198 | in every run, a request that finds an idle connection, and whose receiver stays, has the one idle longest (FiFo) or shortest (LiFo) delivered, whether it may wait or not: the same raw connection and slot, stamped with the time, gone from the idle ones, its flight still to be counted; nothing else changes |
| Outcomes.ClosedRequestIsForgotten | src/pools/pool_internal/inner_pool/mod.rs:183-185 | in every run, a request whose receiver is gone is taken from the channel, and nothing else changes |
| Outcomes.RequestIsRefused | src/pools/pool_internal/inner_pool/mod.rs:200-237 | in every run, a request that finds nothing idle and may not wait, or could not be queued, is refused with NoConnection, or with ReservationLimitReached if the queue is full of others that listen; apart from the time of the cleanup nothing else changes |
| Outcomes.RequestIsReserved | src/pools/pool_internal/inner_pool/mod.rs:200-237 | in every run, a request that finds nothing idle, may wait and has room, if only after those that do not listen any more were removed from a full queue, is the last in the queue; all others stay in their order, the gauge moves with the length, and nothing else changes |
| Outcomes.CheckInServes | src/pools/pool_internal/inner_pool/mod.rs:118-179 | in every run, a connection that comes in is delivered, stamped, to the first in the queue that listens; those before it are forgotten and counted out, those behind it stay; the connection is counted as returned or as new, and reservation and flight are still to be counted |
| Outcomes.CheckInGoesIdle | src/pools/pool_internal/inner_pool/mod.rs:118-179 | in every run, a connection that comes in while nobody in the queue listens is the last of the idle ones, without a stamp, and the queue is empty and counted out |
| Outcomes.CleanupKeepsTheOpen | src/pools/pool_internal/inner_pool/mod.rs:254-280 | in every run, a cleanup of a full queue, or one more than 100 ms after the last, keeps exactly those who listen, in order; any other keeps all; the interval starts again in both cases |
| Outcomes.CountsComeInOrder | src/pools/pool_internal/inner_pool/mod.rs:141-154 | in every run, what is owed is counted in order, first the reservation and then the flight; a probe of a create loop has no effect |
| Reservations.QueueIsBoundedAndNeeded | src/pools/pool_internal/inner_pool/mod.rs:118-212 | in every reachable state the queue is within its capacity, and idle connections and reservations are never both there |
| Reservations.ConfiguredLimitHoldsExactly | src/pools/pool_internal/inner_pool/mod.rs:79-79 | all runs keep the configured reservation limit if and only if the capacity equals it |
| Fairness.ServedInOrder | src/pools/pool_internal/inner_pool/mod.rs:137-179 | in every reachable state, the step that gives a queued request its connection processes a check in, and no request ahead of it was still listening |
| Fairness.ServedWithinBound | src/pools/pool_internal/inner_pool/mod.rs:137-179 | in every reachable state, a request with k others ahead is served within any continuation that processes k + 1 check ins, unless it hangs up |
| Stopping.StopIsExact | src/pools/pool_internal/inner_pool/mod.rs:283-311 | after the stop idle and in_flight are zero, connections is the number owned or returning, reservations is unchanged, both channels are empty, every waiting request has NoPool and every other one keeps what it has |
| Outcomes.TicksAndStopsAreSent | src/pools/pool_internal/mod.rs:353-364 | in every run, dropping the handle sends the stop message and counts the pool out, once, and without it nothing is requested; a tick sends a cleanup as long as the pool is alive |
| Stopping.DeadGaugesAgree | src/pools/pool_internal/managed.rs:78-94 | in every state after the stop: connections equals owned plus closed on return, and in_flight is minus the number that broke since |
| Stopping.GaugesEndAtZeroExactly | src/pools/pool_internal/inner_pool/mod.rs:283-301 | once all clients are done, all gauges are zero if and only if nothing was in flight or reserved at the stop |
| Stopping.ReservationsOutliveTheStop | src/pools/pool_internal/inner_pool/mod.rs:283-301 | for every n up to the capacity there is a run that ends stopped, with nobody left who waits or owns anything and a reservations gauge of n |
| Stopping.NothingIsHandedOut | src/pools/pool_internal/mod.rs:353-364 | in no run after the stop does any request, made before or after it, get a connection that it did not have |
| Stopping.CreateLoopsEnd | src/pools/pool_internal/extended_connection_factory.rs:66-96 | after the stop all create loops together take a bounded number of steps, whatever factories answer and clients drop |
| CreateLoops.FailuresAreRetried | src/pools/pool_internal/extended_connection_factory.rs:66-96 | n failed attempts leave a create loop with its slot and attempt number n higher, cost n probe messages and change nothing else |
| Outcomes.PoolsStartWithLoops | src/pools/pool_internal/mod.rs:128-213 | a new pool has one create loop at its first attempt for each slot, and nothing else |
| Outcomes.LoopProbes | src/pools/pool_internal/extended_connection_factory.rs:67-74 | in every run, a create loop probes a living pool with one message and goes on to connect, and ends if the pool is gone |
| Outcomes.LoopConnects | src/pools/pool_internal/extended_connection_factory.rs:75-85 | in every run, a connection that is made is new and clean and goes to a living pool with the slot of its loop, which ends; a failure leads to the next attempt, with nothing else changed |
| CreateLoops.WaitingIsKnown | src/pools/pool_internal/extended_connection_factory.rs:134-156 | with Incremental, or IncrementalCapped with a cap of ten seconds or more such as the default, after n >= 26 failures the loop has waited 50000 + 10000 (n - 26) ms without jitter, and with jitter no less and at most a third more |
| CreateLoops.ConstantWaitsEvenly | src/backoff_strategy.rs:65-67 | after n failures with a constant delay a loop has waited n times that delay, or more with jitter |
| CreateLoops.NoBackoffNeverWaits | src/backoff_strategy.rs:65-66 | without a strategy a loop never waits |
| CreateLoops.CapCutsTheTable | src/backoff_strategy.rs:68-73 | with a cap a loop waits no longer than the table says and no longer than n times the cap, and exactly as the table says up to the attempt whose delay reaches the cap |
| InnerPools.InnerPool.constructor | src/pools/pool_internal/inner_pool/mod.rs:76-83 | a new inner pool has nothing idle and nothing reserved, and was cleaned just now |
| InnerPools.InnerPool.Process | src/pools/pool_internal/inner_pool/mod.rs:86-116 | the object changes as the state machine says for one message and the count of a sent connection |
| InnerPools.InnerPool.DoCheckIn | src/pools/pool_internal/inner_pool/mod.rs:118-180 | the connection is counted as returned or new, then goes to the first open reservation or to the idle ones |
| InnerPools.InnerPool.DoFulfil | src/pools/pool_internal/inner_pool/mod.rs:137-179 | the loop that pops reservations computes: forget the closed ones before the first open one, and serve that |
| InnerPools.InnerPool.TryFulfill | src/pools/pool_internal/inner_pool/mod.rs:344-359 | fulfilled exactly if the receiver still listens, which then has the stamped connection; otherwise the connection comes back without a stamp |
| InnerPools.InnerPool.DoCheckOut | src/pools/pool_internal/inner_pool/mod.rs:182-212 | all branches of a checkout, with a receiver that may leave between is_closed and send |
| InnerPools.InnerPool.DoCreateReservation | src/pools/pool_internal/inner_pool/mod.rs:214-237 | refuses, or cleans a full queue and then refuses or enqueues, with the gauges |
| InnerPools.InnerPool.DoCleanup | src/pools/pool_internal/inner_pool/mod.rs:254-280 | cleans when due and always restarts the interval |
| InnerPools.InnerPool.Retain | src/pools/pool_internal/inner_pool/mod.rs:264-277 | the retain loop keeps the open reservations in order and counts out each closed one |
| InnerPools.InnerPool.Drop | src/pools/pool_internal/inner_pool/mod.rs:283-311 | counts in_flight down by what it reads, drains the idle connections out of both gauges, and drops the senders of all reservations |
| InnerPools.IdleConnections.Get | src/pools/pool_internal/inner_pool/mod.rs:418-424 | takes the front or the back, according to the activation order |
| Instrumentation.PoolInstrumentation.Record | src/pools/pool_internal/instrumentation/mod.rs:54-137 | an event moves the gauges of its sub pool, and the shared counters by just as much |
| Instrumentation.StateCounters.Record | src/instrumentation/state_counters.rs:169-300 | an event moves the shared counters by its delta |
| Instrumentation.SharedCountersAggregate | src/instrumentation/state_counters.rs:169-300 | for any number of new sub pools and every interleaving of their events, the shared counters plus the moves not passed on yet equal the sum of the gauges of the sub pools, as integers |
| Observation.WrappingSumIsObserved | src/pools/pool_per_node/inner.rs:165-170 | for every gauge, adding up what the counters of the sub pools show, with wrap around, gives what a counter of the true sum would show |
| Observation.SharedCountersShowTheSum | src/pools/pool_per_node/inner.rs:165-170 | under every interleaving, whenever no move is counted halfway, every shared counter shows the wrapping sum of what the sub pools show |
| Observation.StateOverflowsExactly | src/lib.rs:411-423 | where overflow is checked, the state of any number of living sub pools, whose sizes and capacities add up to less than 2^64, cannot be added up if and only if two in_flight gauges have wrapped, or one has while another is above zero; it is the true sum if and only if none has wrapped |
| Observation.StateDoesOverflow | src/lib.rs:411-423 | two concrete runs of sub pools of one connection each for which the sum overflows, and reads 2^64 - 2 if it wraps around |
| ManagedConnections.InternalChannel.TrySend | src/pools/pool_internal/mod.rs:67-79 | a message is appended, or comes back if the receiver is gone |
| ManagedConnections.OwnedManaged.Drop | src/pools/pool_internal/managed.rs:59-102 | a drop has exactly one effect, chosen by factory, value and channel, leaves an orphan, and terminates by an explicit measure |
| ManagedConnections.OwnedManaged.DropOrphanized | src/pools/pool_internal/managed.rs:52-56 | an orphan is dropped without any effect on pool, executor or gauges |
| ManagedConnections.DropEach | src/pools/pool_internal/managed.rs:59-118 | dropping any collection terminates, with the effects of its members one after the other |
| ManagedConnections.EveryOwnerHasOneEffect | src/pools/pool_internal/managed.rs:59-118 | over any collection, messages plus create loops plus closed connections equal the slot owners dropped; no slot is lost while the channel is open, nothing is sent once it is closed |
| ManagedConnections.ExtendedConnectionFactory.CreateConnection | src/pools/pool_internal/extended_connection_factory.rs:66-67 | starts one create loop for the slot, about to make its first attempt, and leaves all others alone |
| ManagedConnections.ExtendedConnectionFactory.Probe | src/pools/pool_internal/extended_connection_factory.rs:67-74 | a loop sends one probe and goes on to connect, or ends if the pool is gone |
| ManagedConnections.ExtendedConnectionFactory.AttemptEnds | src/pools/pool_internal/extended_connection_factory.rs:75-85 | a connection that was made ends its loop and is sent as a check in if the pool is there; a failure leads to the next attempt; no gauge moves |
| ManagedConnections.PoolConnection.constructor | src/lib.rs:89-95 | a connection handed to a client starts with its state ok |
| ManagedConnections.PoolConnection.ReqPackedCommand | src/pool_connection.rs:35-48 | a command takes the value, dirty from then on, and marks the state as not ok; without a value nothing changes |
| ManagedConnections.PoolConnection.CommandCompleted | src/pool_connection.rs:38-42 | a completed command restores the value, clean, and the state |
| ManagedConnections.PoolConnection.Drop | src/pool_connection.rs:82-88 | a connection whose state is ok returns, any other is counted out, shared counters included, and created anew; the channel stays as it was otherwise |
| PoolInternals.PoolInternal.constructor | src/pools/pool_internal/mod.rs:128-213 | builds channels, inner pool and one create loop per slot, on an executor whatever it runs already: the objects show the start state of the state machine |
| PoolInternals.PoolInternal.CheckOut2 | src/pools/pool_internal/mod.rs:232-299 | a deadline earlier than the clock, and nothing else, ends in a timeout and sends nothing; otherwise the objects take the step of a request, which is the last in the channel with the permission to wait of its constraint, the future waits until the deadline if there is one, and the error tells a full channel from a closed one; to a dispatcher this is an attempt at a channel in this condition |
| PoolInternals.PoolInternal.CheckOut | src/lib.rs:245-258 | in a checkout mode: the future waits until the deadline of the mode, or the duration of the default after now, and for ever otherwise; the request may wait unless the mode, or the default it refers to, is Immediately; a timeout at once comes exactly if that deadline is earlier than the clock |
| PoolInternals.PoolInternal.Drop | src/pools/pool_internal/mod.rs:353-364 | the objects take the step that drops the handle: the stop message is sent if anybody listens and the pool is counted out in any case |
| PoolInternals.Consumer.HandleNext | src/pools/pool_internal/mod.rs:416-456 | taking a message from either channel and counting what it owes moves the objects along the steps of the state machine, stop included |
| PoolInternals.Consumer.EndStream | src/pools/pool_internal/mod.rs:445-453 | the receivers are dropped with all they hold, then the inner pool |
| Participants.CleanupTicker.Tick | src/pools/pool_internal/mod.rs:186-196 | the objects take the step of a tick, and the ticker goes on exactly while the pool is alive |
| Participants.CreateLoopRunner.Probe | src/pools/pool_internal/extended_connection_factory.rs:67-74 | the objects take the step of a probe |
| Participants.CreateLoopRunner.AttemptEnds | src/pools/pool_internal/extended_connection_factory.rs:75-85 | the objects take the step of a connection that was made, or of an attempt that failed |
| Participants.PoolClient.Receive | src/lib.rs:89-95 | the client owns what was delivered, with its state ok, as the state machine says |
| Participants.PoolClient.HangUp | src/pools/pool_internal/managed.rs:59-84 | a receiver that is dropped is gone, and a connection delivered to it returns or is closed, as the state machine says |
| Participants.PoolClient.BeginCommand | src/pool_connection.rs:35-38 | the objects take the step that begins a command |
| Participants.PoolClient.CommandSucceeds | src/pool_connection.rs:38-42 | the objects take the step of a command that completes |
| Participants.PoolClient.LoseCommand | src/pool_connection.rs:82-88 | a command that fails or is cancelled takes the three steps of a broken drop |
| Participants.PoolClient.DropConnection | src/pool_connection.rs:82-88 | a connection that the client is done with returns or is closed, as the state machine says |
| Participants.PoolClient.StaysAt | src/pools/pool_internal/managed.rs:59-102 | whatever steps others take, a client whose objects nobody touched is where the state machine says afterwards |
| Participants.NextKeepsTheirOwn | src/pools/pool_internal/managed.rs:59-102 | no step of anybody else changes what a client owns, or lets it own a connection that it did not receive |
| Dispatch.Sweep | src/pools/pool_per_node/inner.rs:115-162 | the sweep makes its planned attempts in order until one is accepted, all failed, or the deadline passed in between |
| Dispatch.Inner.CheckOut | src/pools/pool_per_node/inner.rs:102-163 | without sub pools or in time nothing is tried and the counter stays; otherwise the counter moves by one, wrapping, and a sweep begins at its old value |
| Dispatch.PicksFollowTheCounter | src/pools/pool_per_node/inner.rs:109-116 | over every run of dispatches the i-th first choice is the wrapped counter modulo the number of sub pools, and those that make no attempt do not count |
| Dispatch.SweepIsComplete | src/pools/pool_per_node/inner.rs:135-162 | no sub pool is tried twice; a sweep in time fails only after all n refused, with the error of the last |
| Dispatch.SweepFindsTheFirst | src/pools/pool_per_node/inner.rs:115-160 | a sweep in time sends the request to the first sub pool, in its order, that accepts, and asks nobody after that |
| Dispatch.TimesOutExactly | src/pools/pool_per_node/inner.rs:109-141 | a dispatch makes no attempt if and only if its deadline is earlier than the clock before the first, and ends with CheckoutTimeout if and only if its deadline is earlier than the clock at one of its looks, before each attempt and inside the last, that comes before any sub pool has accepted; without a deadline never |
| Dispatch.SentExactlyInTime | src/pools/pool_per_node/inner.rs:109-160 | a dispatch with a deadline sends its request to a sub pool if and only if that is the first in its order that accepts and all looks at the clock until then show no later time than the deadline |
| Dispatch.ReservedOnlyInLastResort | src/pools/pool_per_node/inner.rs:118-149 | a sent request may be reserved exactly if the caller would wait and it was sent by the last of n attempts, all others having refused |
| Dispatch.WillingToWaitIsNotEnough | src/pools/pool_per_node/inner.rs:118-127 | with several sub pools, if the first accepts, the request may not be reserved, whatever the caller asked for |
| EndToEnd.WaitingIsDecidedAtOnce | src/pools/pool_per_node/inner.rs:118-127 | a caller who waits and whose first of several sub pools accepts gets, whenever that sub pool takes the request, NoConnection exactly if no connection is idle then, and a connection otherwise |
| EndToEnd.WaitingEndsWithNothing | src/pools/pool_per_node/inner.rs:118-127 | for every configuration and every number of sub pools from two on there is such a run that ends with NoConnection |
| Dispatch.FirstChoicesAreBalanced | src/pools/pool_per_node/inner.rs:115-116 | over every run of k dispatches, whatever their deadlines and whatever they meet, each of n sub pools is the first tried floor(k/n) or ceil(k/n) times, unless the counter wraps around and n does not divide 2^64 |
| Dispatch.BalanceHoldsExactly | src/pools/pool_per_node/inner.rs:115-116 | all runs from all counter values are balanced if and only if n divides 2^64 |
| Layout.New | src/pools/pool_per_node/inner.rs:26-100 | the nested loops build exactly multiplier times nodes sub pools, the p-th under number p on node p modulo nodes; with multiplier 1 each has the size and the reservation limit of the configuration, with a greater one m the least size s with s * m above it, and the limit likewise unless it is zero, which stays; or the first error, with all factories before it having worked |
| Layout.SharesCover | src/pools/pool_per_node/inner.rs:42-63 | the shares of a node's sub pools add up to at least what was configured and at most one more each; a limit of zero stays zero |
| Layout.NodesAreBalanced | src/pools/pool_per_node/inner.rs:65-116 | over every run of k dispatches over the sub pools that were built, a node is the first choice floor(k/nodes) to ceil(k/nodes) times for each time that it is configured, whatever the multiplier |
| Layout.ConsecutiveChoicesDiffer | src/pools/pool_per_node/inner.rs:65-116 | in every such run any `nodes` consecutive dispatches choose sub pools of pairwise different nodes first, if no node is configured twice |
| Layout.VisitsToANodeRotate | src/pools/pool_per_node/inner.rs:65-116 | in every such run, `nodes` dispatches after a sub pool the next sub pool of the same node is chosen, or its first one after its last |
| Retry.LastAttemptDecides | src/pools/mod.rs:29-89 | the answer is that of the last attempt, all before it met a full channel; without retries there is one attempt |
| Retry.LimitReachedMeansNoTimeLeft | src/pools/mod.rs:54-89 | for every mode and default, with retries: CheckoutLimitReached is never the answer to one who waits, comes after exactly one attempt for Immediately, and with a deadline, be it of the mode or the duration of the default after now, comes at the first decision at or after it |
| Retry.DeadlineBoundsAttempts | src/pools/mod.rs:63-87 | a checkout until a deadline, or at most for the duration of the default, makes at most one attempt besides the first per millisecond begun in that time, and is over after as many iterations, whatever the sub pools answer |
| Retry.NeverEndsExactly | src/pools/checkout_constraint.rs:64-80 | the loop runs forever if and only if the mode, or the default it refers to, is to wait and no attempt ever fits |
| Backoff.IncrementalRises | src/backoff_strategy.rs:55-74 | incremental delays without jitter never fall, and stay within the cap and ten seconds |
| Backoff.SumsOfTheTable | src/backoff_strategy.rs:5-28 | the delays add up to 100, 200, 500, 1000, 2000, 5000, 10000 and 20000 ms after 6, 8, 11, 13, 15, 18, 20 and 22 attempts, as announced |
| Backoff.CumulativeIsExact | src/backoff_strategy.rs:5-33 | the delays of n >= 26 attempts add up to exactly 50000 + 10000 (n - 26) ms |
| Backoff.JitterIsBounded | src/backoff_strategy.rs:75-95 | jitter adds less than three seconds, and less than a fifth of a delay of 100 ms or more |
| Backoff.JitterUsesItsRoom | src/backoff_strategy.rs:75-95 | from six milliseconds on jitter stays below a third of a delay under 100 ms, a fifth of one under 15 s and three seconds for any other, and some draw comes within two milliseconds of that |
| Backoff.IncrementalStaysBelowTwelveSeconds | src/backoff_strategy.rs:55-96 | with or without jitter every incremental delay is below twelve seconds |
| Backoff.JitterMattersExactly | src/backoff_strategy.rs:76-92 | some draw changes a delay if and only if it is at least six milliseconds |
| Backoff.JitterExceedsTheMaximumExactly | src/backoff_strategy.rs:47-50 | for both incremental strategies: some draw exceeds the announced ten seconds if and only if there is jitter, the attempt is the 26th or later, and a cap, if any, is 8335 ms or more |
| Backoff.JitterExceedsTheCapExactly | src/backoff_strategy.rs:49-50 | some draw exceeds the cap if and only if there is jitter and either the table reaches the cap and the cap is 6 ms or more, or it does not and the longest jitter leads beyond the cap |

## Left out

- Dispatch.Inner.CheckOut: meets the sub pools through what each attempt finds at a checkout channel and what the clock shows, not as `PoolInternal` objects; this admits everything other threads can do in between, and does not relate two attempts at the same channel. `PoolInternals.PoolInternal.CheckOut2` shows that an attempt at an object is one of these.
- PoolInternals.Consumer.HandleNext: the gauge moves of a message that come before its answer are one step with it. Any thread can read the gauges between two of them and then sees some, but not yet all, of the moves of that one message; those readings are not represented. The moves after an answer, when another thread can own the connection already, are steps of their own. The stop is one step in the same way: dropping the receivers, reading `in_flight`, counting it down and draining the idle connections.
- Fairness.ServedWithinBound: counts processed check ins and not time; nothing promises that clients return connections.
- Interior counters of one event: `PoolInstrumentation.Record` moves both counters at once; the interleaving of the two is in the aggregation proof.
- A sweep whose positions pass 2^64: `position + pools.len()` then panics or wraps around, depending on how the program is built.
- When a oneshot is polled and a timeout of a waiting request fires: hanging up is a step that may happen at any time, and the error CheckoutTimeout of that timeout is not represented.
- Wake-up times of create loops and of the cleanup ticker: in the state machine they may act at any time; delays are in the proofs about backoff.
- Pipelined commands, `src/pool_connection.rs:50-71`: they treat the connection just as single commands do. A command on a connection without a value does not occur, since a client's connection has one whenever no command is under way (`CleanConnections.OnlyCleanConnectionsAreOffered`).
- Network I/O, Redis commands, DNS and ping: a factory answers with success or failure.
- Futures, the executor, timers and the implementation of channels.
- Latency and duration values in metrics, logging, printing and the metrix instrumentation; `created_at` and `idle_since` only feed these.
- Configuration builders, environment parsing, error messages, and the wrappers around one pool and around a pool per node.
