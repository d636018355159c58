# GoStacker verification

A Dafny model of the accounting and caching protocols of GoStacker, a distributed chat
system, with proofs of what they keep. `dafny verify dfyconfig.toml` checks the project.

The model follows the code branch by branch. Code that changes state is modelled by classes
and methods (`PendingManager`, `Dispatcher`, `Node`, `Ring`, `Store`, `Service`, `Worker`),
each tied by its `ensures` to a value-level specification of the same step and, field by
field, to the new state; the properties are then proved about that specification over every
sequence of steps. Redis, MySQL, HTTP,
clocks, timeouts, schedulers and random orders are parameters (oracles) that may answer in
any way. The completion counters, the fan-out of a message and the gateway are modelled at
the granularity of their shared accesses, so their results hold for every interleaving; how
coarse the steps of the other parts are is said under "Left out".

| file | what it models |
|---|---|
| `GoInt.dfy` | int32/int64 with wrap-around, Go's `%` |
| `Wrappers.dfy`, `Messages.dfy` | `Option`; the messages |
| `PendingTask.dfy` | the sharded completion counters, one call at a time |
| `PendingInterleaving.dfy` | the same counters at the granularity of their atomic actions |
| `SendDispatch.dfy` | fan-out of one message: batching, grouping, fallback, accounting |
| `FanOut.dfy` | dispatcher, workers and counters running together |
| `GatewaySpec.dfy` | a gateway as a machine of single actions: dispatches, retries, connects, removals, writers |
| `GatewayDelivery.dfy` | conservation of message copies on it |
| `GatewayHistory.dfy` | what has become of each copy, read off the actions of a run alone |
| `GatewayOutcomes.dfy` | the whole new state that each operation run alone comes to |
| `GatewayTotals.dfy`, `GatewayStrays.dfy` | its count of pending requests, and the requests that stay in it though nobody can reach them |
| `GatewayChannels.dfy` | what single actions do to the channels |
| `GatewayPanics.dfy` | when a send finds its channel closed |
| `GatewayOverlap.dfy`, `GatewayExclusive.dfy` | what overlapping operations of one user can break, and that nothing breaks without them |
| `GatewayOrder.dfy` | the order of requests across reconnects |
| `GatewayFailures.dfy` | runs in which overlapping operations do harm |
| `GatewayNode.dfy` | the gateway's code as such actions, and its operations as sequences of them |
| `GroupCache.dfy`, `GroupStore.dfy` | the write-back cache of group members and its flusher: steps and properties, code and progress |
| `JoinedRooms.dfy` | the comma-separated column of a user's rooms |
| `Monitor.dfy` | the sliding-window ring buffer |
| `Lease.dfy` | the registry: gateway leases, user routes, ranking |
| `RouteCache.dfy` | the local route cache in front of the registry |
| `Reclaimer.dfy` | the claim, push back and acknowledge loop |
| `MessageFlush.dfy` | the batched message queue in front of MySQL |

## Main results

- **Counters.** Over every interleaving of the single atomic actions of any number of
  concurrent `DoneN`/`FailN` calls, no callback fires early, none fires twice, none is
  missing at the end, and it carries the exact number of failures.
- **Fan-out.** Dispatcher, workers and counters together keep the promises the counters
  need; every message with targets is decided exactly once; an acknowledgement means
  that every target position is on a stream or in an offline list if and only if no offline
  push of an unrouted target failed; and each copy goes where routes and failures send it, to
  the stream of its target's gateway exactly if that stream works.
- **Gateway.** In every interleaving a live message's counter is the number of copies
  neither written nor handed back, counted from the actions of the run alone, and completion
  means delivery. Dispatch, retry, connect and removal, run alone, come to the stated state
  in every case. Panics, stranded messages,
  drift of the connection count, reordering, and requests left behind in a closed channel and
  in the count of pending requests for good, have exact conditions and failing inputs. As long
  as no two operations work on the same user at once, both counts are exact for the
  connections users can be found by, and only reordering is possible, and only by the old
  writer of a reconnect.
- **Group cache.** Readers see the plain set of members over every run of safe steps; which
  steps are safe, failing at whichever command or in the middle of the rows, is stated by a
  condition that can be looked up beforehand and is proved exact. So are the steps that break
  coherence, and what a write in the middle of a flush does.
- **Routes.** A gateway found through the cache is the one of the user's last working
  connect as of at most 60 seconds ago; and without a current entry a user is found, at the
  host and port that gateway had registered, for exactly the TTL after the connect. A lease
  lives exactly for its TTL and holds the last registration and heartbeat.
- **Reclaimer.** An entry leaves the pending list only after each of its targets was taken,
  and a pass takes up every entry of every page.
- **Message flush.** Accepted messages are stored, queued or lost by a failed restoring
  push, each exactly as often as accepted, and working flushes store them all in order.

## Where the code does less than it seems to promise

Each of these is a lemma about the code as it is, with the exact condition or a failing input.

- An unrouted target whose offline push fails is parked in a channel that nothing reads, and
  counted as done (internal/send/push/channel_cache.go:58-64, internal/send/push/dispatcher_gateway.go:174-175).
  `FanOut.AcknowledgedExactly` and `FanOut.ParkedIsAcknowledged`.
- A removal or reconnect closes the channels of a holder that others have found or can still
  find, and a send on it panics (internal/gateway/push/manager.go:134-135, 234, 251, 279).
  `GatewayPanics.RunPanicsExactly`, `GatewayPanics.LateSenderPanics` and `GatewayFailures.PanicHappens`.
- A request that is sent between a removal's or reconnect's last look at the channel and its
  closing stays in the closed channel: the message is neither delivered, handed back nor
  reported, and counts as pending for good, which keeps the gateway from pulling
  (internal/gateway/push/manager.go:134-136, 182-192, 238-252, 279; internal/gateway/push/pullTask.go:81).
  `GatewayStrays.StoredTotalsExactly`, `GatewayStrays.LeftBehindExactly`,
  `GatewayStrays.DeadForGood` and `GatewayFailures.LeavingBehindHappens`.
- The retry loop measures a list and unlists its user in two steps, and a timed-out message is
  listed and pushed in two; in between a message is stranded until the next one times out
  (internal/gateway/push/channel_redis.go:48-50, 119-131). `GatewayOverlap.StrandsExactly` and
  `GatewayFailures.StrandingHappens`.
- Two removals, or a removal and a reconnect, of the same connection make the connection count
  wrong for good (internal/gateway/push/manager.go:189-192, 279-282).
  `GatewayOverlap.CountDriftsExactly` and `GatewayFailures.DriftHappens`.
- The old writer may still receive while a reconnect drains its channel, and then requests
  arrive out of order (internal/gateway/push/manager.go:57-58, 164-180).
  `GatewayOrder.StepOrdersExactly` and `GatewayFailures.ReorderHappens`.
- A failing ZSCORE is taken for "not dirty", and gives a dirty key a lifetime
  (internal/meta/chat/group/cache.go:151-155, 180-184); a write that fails midway leaves a
  changed key without a mark (internal/meta/chat/group/cache.go:64-71).
  `GroupCache.StepCoherentExactly`, `GroupCache.SafeExactly` and `GroupCache.FailedScoreEmptiesRows`.
- A query takes an iteration over the rows that breaks off for the end of the rows, and fills
  the cache with the part it has seen; the next flush deletes the others
  (internal/meta/chat/group/repo.go:165-178). `GroupCache.StepCoherentExactly`,
  `GroupCache.SafeExactly` and `GroupCache.PartialFillLosesRows`.
- A write between a flush's read and its commit, or between its commit and its clearing of the
  mark, is lost with the key (internal/meta/chat/group/flusher.go:157-211).
  `GroupCache.OverlappedFlushExactly`.
- `CleanStaleDirty` clears a room's dirty mark after a failed cache read, because
  `writeBackGroup` turns the read error into success (internal/meta/chat/group/flusher.go:91-96);
  the comment there says nothing is changed. `GroupCache.StepCoherentExactly` and
  `GroupCache.LostMarkLosesMembers`.
- Adding to or removing from a room whose cache key is missing loses the rows at the next
  flush, and a query that cannot read the cache adds old rows back to it.
  `GroupCache.SafeExactly`.
- `IsRoomMember` believes a missing cache key (internal/meta/chat/group/repo.go:89-102).
  `GroupCache.MembershipTestExactly`.
- A full ring looks empty to the expiry loop, so one insertion drops one task, however many
  are expired (pkg/monitor/monitor.go:97); and tasks that arrive in the other order than they
  completed outlive the window. `Monitor.SlidingWindowExactly` and `Monitor.LateArrivalOutlivesWindow`.
- The ranking of gateways never expires; a dead gateway with the lowest score refuses
  service to everybody without a usable route (internal/registry/gateway/service.go:193-227).
  The "try next" branch after a full gateway needs two members of a range of one and is
  never reached. `Lease.ServedExactly` and `Lease.DeadGatewayBlocks`.
- A batch route lookup whose MGET fails answers an empty map without an error, because the
  error is shadowed (pkg/db/redis/redis.go:219-239), so that everybody looks offline.
  `Lease.Service.BatchGetUserRoutes`.
- Pushing a failed batch back from its end reverses it (internal/send/chat/send/repo.go:110-115).
  `MessageFlush.OrderSurvivesExactly`.
- Re-initialising a live ID, reporting more than the total, and counts beyond int32 break the
  counters (pkg/pendingTask/pendingTask.go:69, 83-97). `PendingTask.ReInitForgets`,
  `PendingInterleaving.OverReportHappens`, `PendingTask.WaitsForAllExactly` and
  `PendingTask.TruncatedCountCompletesEarly`; the results about counters assume none of these.
- A message without targets is never acknowledged or failed. `FanOut.FinishedMeansDecided`.
- A disconnect whose read of the route fails is reported as success and forgotten
  (internal/registry/user/service.go:84-91). `Lease.Service.RecordUserDisconnect`.
- A connect between a disconnect's read of the route and its write is overwritten with the old
  gateway (internal/registry/user/service.go:84, 127). `Lease.OverlappedDisconnectExactly`.
- The batch route lookup refuses to answer from the cache without a registry client, the
  single lookup does not (internal/send/route/service.go:85-87). `RouteCache.BatchAgreesExactly`.

## Model

| member | source | states |
|---|---|---|
| PendingTask.ShardIndexInRange | pkg/pendingTask/pendingTask.go:56-61 | the shard index is legal for every int64, the minimum value included, whose negation wraps |
| PendingTask.IdsAreIndependent | pkg/pendingTask/pendingTask.go:63-129 | in every sequence of operations, counter and callbacks of an ID are those of its own operations alone |
| PendingTask.ReInitForgets | pkg/pendingTask/pendingTask.go:64-70 | re-initialising a live ID lets the second round's reports alone fire the callback; the first round's are lost |
| PendingTask.TruncatedCountCompletesEarly | internal/send/push/dispatcher_gateway.go:24 | with 2^31 to 2^32 targets the stored count is truncated: a first report of n targets completes the message if and only if n is at most the targets less 2^31, and otherwise makes the counter wrap back to what is left |
| PendingTask.WaitsForAllExactly | pkg/pendingTask/pendingTask.go:76-98 | over all sequences of reports of any sizes, no callback fires before the reports reach the number of targets, if and only if there are at most 2^31 targets |
| PendingTask.LastReportDecides | pkg/pendingTask/pendingTask.go:76-122 | over all sequences of reports that add up to at most 2^31 targets, one callback has fired and the counter is gone: the failure callback with the number of failed targets if there are any, else the completion |
| PendingTask.PendingManager.constructor | pkg/pendingTask/pendingTask.go:32-46 | 64 empty shards are an empty table |
| PendingTask.PendingManager.Init | pkg/pendingTask/pendingTask.go:64-70 | the shards behave like one map: (re)initialises this ID's counter and no other |
| PendingTask.PendingManager.DoneN | pkg/pendingTask/pendingTask.go:76-98 | an uninterrupted call subtracts with int32 wrap-around, and at zero deletes the counter and fires one callback |
| PendingTask.PendingManager.FailN | pkg/pendingTask/pendingTask.go:104-122 | the same with the failures counted before the subtraction |
| PendingTask.PendingManager.Delete | pkg/pendingTask/pendingTask.go:124-129 | forgets this ID's counter and nothing else |
| PendingInterleaving.StepKeepsInv | pkg/pendingTask/pendingTask.go:64-122 | every single atomic action of every call keeps: fields are the sums of what the calls did, and exactly one call is closing a drained counter |
| PendingInterleaving.RunKeepsInv | pkg/pendingTask/pendingTask.go:64-122 | the same over every interleaving in which live IDs are not re-initialised and counts do not exceed the total |
| PendingInterleaving.CallbackSafety | pkg/pendingTask/pendingTask.go:76-122 | in every interleaving no lookup is lost, no callback fires before the reports reach the total, at most one fires, and it is the failure callback with the exact failures if there were any, else the completion |
| PendingInterleaving.CallbackFires | pkg/pendingTask/pendingTask.go:76-122 | once the reports reach the total and their calls have ended, exactly one callback has fired |
| PendingInterleaving.AloneCallIsReport | pkg/pendingTask/pendingTask.go:76-122 | the atomic actions of a call that is not interleaved add up to the whole-call step of the plain table |
| PendingInterleaving.OverReportFiresTwice | pkg/pendingTask/pendingTask.go:83-97 | two calls that each report all of one counter, and have both looked it up, both fire |
| PendingInterleaving.OverReportHappens | pkg/pendingTask/pendingTask.go:64-98 | that state is reached: from the empty table a run of one Init and two calls completes its message twice, so reports must stay within the total |
| SendDispatch.BatchesPartition | internal/send/push/dispatcher_gateway.go:26-48 | whatever batches are dropped, every target position is in exactly one enqueued batch or counted as dropped, and batches hold 1 to 100 targets |
| SendDispatch.BatchesAreSlices | internal/send/push/dispatcher_gateway.go:26-48 | the k-th batch is the k-th stretch of 100 targets, enqueued in order exactly if it got into the channel in time, and its size counted as dropped otherwise |
| SendDispatch.EveryTargetIsRoutedOrNot | internal/send/push/dispatcher_gateway.go:153-177 | grouping neither loses nor repeats a target position |
| SendDispatch.GroupTargets | internal/send/push/dispatcher_gateway.go:141-184 | groups each routed target under its gateway in order, and settles each unrouted one: reported once as done, also when its offline push failed and it is only parked in the in-process fallback; which ones are parked |
| SendDispatch.SendGroup | internal/send/push/dispatcher_gateway.go:186-234 | settles a gateway's group: one message with exactly its targets on the gateway's stream if that stream works, and otherwise only the copies of the fallback |
| SendDispatch.FallBack | internal/send/push/dispatcher_gateway.go:203-231 | settles each target of a failed group: reported done only if its offline push was accepted, failed otherwise; exactly the accepted ones have a copy in their offline list |
| SendDispatch.ProcessBatch | internal/send/push/dispatcher_gateway.go:140-236 | for every route map, failure choice and map order one worker iteration settles every position of its batch exactly once; each gateway's stream gets exactly one message with the targets routed to it, in order, if it works and there are any, and nothing otherwise; the offline lists get exactly the unrouted targets and those of a failed stream whose marshalling and push work, and exactly the unrouted ones whose push failed are parked |
| SendDispatch.Dispatcher.constructor | internal/send/push/dispatcher_gateway.go:16-18 | starts with nothing queued and no senders |
| SendDispatch.Dispatcher.DispatchGateway | internal/send/push/dispatcher_gateway.go:20-53 | remembers the sender, initialises the counter, enqueues the batches that are admitted and reports the dropped targets as failed in one call |
| SendDispatch.Dispatcher.GatewayWorker | internal/send/push/dispatcher_gateway.go:140-236 | takes the oldest batch and settles it, its copies going exactly where routes and failures send them |
| SendDispatch.Dispatcher.SendACKToSender | internal/send/push/dispatcher_gateway.go:56-72 | acknowledges to the remembered sender at most once per remembering |
| SendDispatch.Dispatcher.OnFailMessage | internal/send/push/dispatcher_gateway.go:75-86 | forgets the sender and acknowledges nothing |
| SendDispatch.SettlesInSequence | internal/send/push/dispatcher_gateway.go:179-234 | settling two disjoint sets of positions one after the other settles their union |
| SendDispatch.WorkersStayInBatches | internal/send/push/dispatcher_gateway.go:140-236 | at every moment of every interleaving the workers have handed over and reported only positions of their own batches, never more done than handed over |
| SendDispatch.ReportsAddUp | internal/send/push/dispatcher_gateway.go:20-236 | over all numbers of targets, dropped batches, failures and interleavings, done plus failed never exceeds the number of targets, no more is done than handed over, and when everyone has finished they add up to it if and only if fewer than 2^31 targets were dropped |
| SendDispatch.AllDoneMeansAllHanded | internal/send/push/dispatcher_gateway.go:20-236 | if as many positions are reported done as there are targets, every target position was handed to a stream, an offline list or the fallback |
| FanOut.WorkIsPlay | internal/send/push/dispatcher_gateway.go:20-236 | running with the counters' actions interleaved is an interleaving of the participants' work |
| FanOut.RunTracks | internal/send/push/dispatcher_gateway.go:20-236 | dispatcher and workers themselves keep the promises the counters rely on, and the issued counts are the reports made |
| FanOut.AcknowledgedMeansHandedOver | internal/send/push/dispatcher_gateway.go:20-86 | at most one callback fires for a message; if it is the acknowledgement, every target position was handed over by then |
| FanOut.AcknowledgedExactly | internal/send/push/channel_cache.go:31-64 | an acknowledgement means that every target position is on a gateway's stream or in an offline list if and only if no offline push of an unrouted target failed |
| FanOut.ParkedIsAcknowledged | internal/send/push/channel_cache.go:31-64 | the failing input: a message to one unrouted user whose offline push fails is handled as the code does, for all other failures, and acknowledged with no copy on a stream or in a list |
| FanOut.CopiesGoWhereDue | internal/send/push/dispatcher_gateway.go:140-236 | in every run no copy is put anywhere but where the routes and failures that the workers met send it, nor twice, and all of them are there when the workers have finished; for any number of targets |
| FanOut.FinishedMeansDecided | internal/send/push/dispatcher_gateway.go:20-86 | when everyone has finished, exactly one callback has fired if there are targets, none if there are not; it is the acknowledgement if and only if nothing failed |
| GatewaySpec.StepKeepsRefs | internal/gateway/push/manager.go:55-294 | in every interleaving of single actions, operations and the store refer to holders of their own user, and a removal forgets its holder with empty hands |
| GatewayDelivery.StepKeepsInv | internal/gateway/push/manager.go:55-294 | every single action of dispatches, retries, removals, reconnects and writers keeps the accounts of all messages at once |
| GatewayDelivery.CopiesAreConserved | internal/gateway/push/dispatcher.go:24-66 | in every run the pending count of a live message is the number of target copies neither written nor accepted back, each in exactly one channel, writer, operation or list, or astray; retries and reconnects never multiply one |
| GatewayDelivery.CompletionMeansDelivered | internal/gateway/push/manager.go:55-294 | in every run each action fires completions only, and only for messages all of whose copies are written or accepted back |
| GatewayHistory.HistoryExactly | internal/gateway/push/manager.go:72-90 | in every run the recorded targets, delivered and lost copies of a message are those that its last opening, the successful socket writes and accepted push-backs, and the failed ones since have made |
| GatewayHistory.CountersCountDeliveries | internal/gateway/push/manager.go:72-75 | in every run the counter of a live message is its targets less the successful socket writes and accepted push-backs of its copies since it was opened; every other copy is in one place or lost |
| GatewayHistory.CompletedMeansWritten | internal/gateway/push/manager.go:72-75 | an action completes a message only if it is a successful write or accepted push-back of one of its copies, and all copies have had one by then |
| GatewayHistory.FailuresReportNothing | internal/gateway/push/manager.go:86-90 | a failed socket write and a refused push-back leave every counter as it was and lose that copy |
| GatewayOutcomes.ServedExactly | internal/gateway/push/dispatcher.go:40-64 | a dispatch's turn for one target, for every state: at the end of the user's channel if there is room, listed and at the end of the wait list if there is none, offered back and reported if accepted when not connected, a panic on a closed channel; nothing else changes |
| GatewayOutcomes.RetriedExactly | internal/gateway/push/channel_redis.go:97-132 | a retry's turn, for every state: nothing for an empty or unreadable list, a malformed message dropped, the oldest message to the end of the channel if there is room and the user unlisted if no more wait, else to the end of the list |
| GatewayOutcomes.ConnectedExactly | internal/gateway/push/manager.go:152-221 | a connect, for every state: a new open holder with room for the buffer and the old queue, holding that in order; the old holder closed and empty; the connection count grows only for a new user |
| GatewayOutcomes.RemovedExactly | internal/gateway/push/manager.go:223-294 | a removal, for every state: the user gone, the holder closed and empty, its requests uncounted, each message offered back in order and reported if accepted; a holder closed before keeps its requests |
| GatewayTotals.TotalsAreExact | internal/gateway/push/manager.go:45-66 | in every run totalPending is the number of requests in the channels of all holders ever made and received but not uncounted, plus those drained and not let go of, less those sent and not yet counted; channels stay within capacity, so a reconnect never blocks |
| GatewayStrays.StoredTotalsExactly | internal/gateway/push/manager.go:125-279 | in every run totalPending is the number of requests in the channels users can be found by, plus those in the hands of writers and operations, plus the strays: the requests of each holder that was forgotten or replaced with some in its channel, and those sent to one afterwards, less those still received or drained from there |
| GatewayStrays.LeftBehindExactly | internal/gateway/push/manager.go:169-185 | in every run the requests in closed channels are those that channels held when they were closed, less those still received or drained from there |
| GatewayStrays.StraysAreLeftBehind | internal/gateway/push/manager.go:238-252 | as long as no open holder loses its place in the store, every stray is a request left behind in a closed channel |
| GatewayStrays.DeadForGood | internal/gateway/push/manager.go:55-66 | the requests of a closed channel that nobody is found by, works on or writes from are never received, drained or uncounted in any continuation of the run |
| GatewayPanics.SealedExactly | internal/gateway/push/manager.go:182-185 | in every run a holder's send channel is closed if and only if a removal or reconnect has been through its closing of it |
| GatewayPanics.RunPanicsExactly | internal/gateway/push/manager.go:125-141 | the process has panicked if and only if an operation sent on a holder whose send channel a removal or reconnect had closed before, whether the operation found the holder before or after that |
| GatewayPanics.LateSenderPanics | internal/gateway/push/manager.go:127-135 | an operation that looks up its user while the stored holder's send channel is closed panics at its next action |
| GatewayOverlap.OpenUnlessLeaving | internal/gateway/push/manager.go:223-279 | in every run a holder that users can find has both channels open, unless a removal or reconnect has closed it and is still busy with it |
| GatewayOverlap.ClosersAreCounted | internal/gateway/push/manager.go:164-185 | in every run only removals and reconnects close channels, and one that is about to close an already closed holder is at least the second to have loaded it |
| GatewayOverlap.StrandsExactly | internal/gateway/push/channel_redis.go:48-132 | in every run a user with waiting messages is visited by the retry loop unless an action unlisted it with a filled list or filled the list of an unlisted user, and no later action rescued it |
| GatewayOverlap.CountDriftsExactly | internal/gateway/push/manager.go:189-192 | in every run the connection count, but for operations between their two changes, exceeds the stored holders by the connects that found their user stored less the removals that found theirs gone |
| GatewayExclusive.OneAtATimeIsExact | internal/gateway/push/manager.go:125-294 | as long as no two operations work on one user at once, whatever else overlaps: no panic, an exact connection count, totalPending exactly the requests in stored channels and in hands, every waiting user retried |
| GatewayOrder.StepOrdersExactly | internal/gateway/push/manager.go:152-221 | an action lets what a connection's writers received, followed by what is on its way, grow only at the tail, if and only if it is none of: the old writer receiving while different drained requests wait, somebody else draining the channel, storing the new holder while the old channel holds requests |
| GatewayOrder.LinesOnlyGrow | internal/gateway/push/manager.go:152-221 | over every run without such actions, across any number of reconnects, a connection's requests keep their order |
| GatewayOrder.OnlyTheWriterReorders | internal/gateway/push/manager.go:57-61 | as long as no two operations work on one user at once, only the old writer, by receiving during the drain, can put a reconnecting user's requests out of order |
| GatewayFailures.PanicHappens | internal/gateway/push/manager.go:234-253 | the failing input: one dispatch and one removal panic |
| GatewayFailures.DriftHappens | internal/gateway/push/manager.go:279-282 | the failing input: two removals of one connection leave the count at -1 |
| GatewayFailures.StrandingHappens | internal/gateway/push/channel_redis.go:119-131 | the failing input: one retry and two dispatches leave a message in a list nobody visits |
| GatewayFailures.ReorderHappens | internal/gateway/push/manager.go:159-185 | the failing input: a reconnect delivers two requests in the other order than they were queued |
| GatewayFailures.LeavingBehindHappens | internal/gateway/push/manager.go:134-136 | the failing input: a dispatch and a removal both end without a panic, nobody is connected, and the message stays in a dead channel and in totalPending |
| GatewayNode.Holder.constructor | internal/gateway/push/manager.go:195-201 | a new holder is empty with both channels open |
| GatewayNode.Holder.Refill | internal/gateway/push/manager.go:202-205 | refills the new channel in order without ever finding it full |
| GatewayNode.Node.constructor | internal/gateway/push/manager.go:18-25 | a gateway starts idle |
| GatewayNode.Node.Lookup | internal/gateway/push/manager.go:127-131 | finds the user's holder, as one action |
| GatewayNode.Node.SendOn | internal/gateway/push/manager.go:134-140 | appends at the tail, or times out at a full channel, or panics at a closed one, as one action |
| GatewayNode.Node.EnqueueMessage | internal/gateway/push/manager.go:125-141 | lookup, send and count in a row; which of queued, no connection, timed out and panic it comes to |
| GatewayNode.Node.Receive | internal/gateway/push/manager.go:58-61 | takes the oldest request of the channel |
| GatewayNode.Node.UncountReceived | internal/gateway/push/manager.go:62-63 | takes the received request out of totalPending, as one action of its own |
| GatewayNode.Node.Write | internal/gateway/push/manager.go:64-90 | reports a message exactly after a successful write, and stops the writer after a failed one |
| GatewayNode.Node.CloseOld | internal/gateway/push/manager.go:164-167 | closes the close channel, or tells that it was closed |
| GatewayNode.Node.DrainAll | internal/gateway/push/manager.go:169-180 | empties a channel in order, one receive after the other |
| GatewayNode.Node.RegisterConnection | internal/gateway/push/manager.go:152-221 | run alone, it is a sequence of the reconnect's own actions to its end, and the new queue holds exactly the old queue's requests in order |
| GatewayNode.Node.RemoveConnection | internal/gateway/push/manager.go:223-294 | run alone, it is a sequence of the removal's own actions to its end; tells whether there was a connection |
| GatewayNode.Node.InsertWaitQueue | internal/gateway/push/channel_redis.go:48-55 | lists the user and then pushes the message, as two actions |
| GatewayNode.Node.PopWait | internal/gateway/push/channel_redis.go:98-109 | takes the oldest waiting message and decodes it, for every way in which that fails |
| GatewayNode.Node.RetryTurn | internal/gateway/push/channel_redis.go:97-132 | run alone, one user's turn is a sequence of the retry's own actions: pop, lookup, send, count, measure, unlist, or back to the list |
| GatewayNode.Node.Dispatch | internal/gateway/push/dispatcher.go:24-66 | run alone, it initialises the counter and is a sequence of the dispatch's own actions, which serves every target in order or ends in a panic |
| GroupCache.StepCoherentExactly | internal/meta/chat/group/cache.go:54-186 | a step of any kind, failing at any of its commands, keeps "dirty keys carry no TTL, present clean keys equal their rows" if and only if it is none of the named ones: a write that changes a clean key's members and fails before its mark, one that marks a key with a TTL and fails to make it persistent, a read whose ZSCORE fails on a dirty key, a query that fills a cold room with a part of its rows, and clearing a stale mark after a failed read |
| GroupCache.EveryRunIsCoherent | internal/meta/chat/group/cache.go:54-186 | the same over every run without such a step, cold rooms included |
| GroupCache.OtherRoomsUntouched | internal/meta/chat/group/cache.go:54-186 | a step about one room changes nothing stored for another |
| GroupCache.SafeStepKeepsFaithful | internal/meta/chat/group/cache.go:54-168 | a safe step keeps "cache if present, else rows" equal to the plain sets |
| GroupCache.SafeExactly | internal/meta/chat/group/flusher.go:157-211 | the safety condition is exact for every kind of step, every failing command and every set of rows a query may see: it is safe if and only if readers are told the plain set at once, after a flush, after the key's TTL and a flush, and after a read and its TTL |
| GroupCache.ReadersSeePlainSets | internal/meta/chat/group/repo.go:151-181 | over every run of safe steps - adds, removes, reads, queries, flushes, stale cleaning and expiries with failing commands - a reader of any room is told exactly its members, if and only if the cache answers or the reader's own iteration gets to all rows |
| GroupCache.LostMarkLosesMembers | internal/meta/chat/group/flusher.go:91-96 | after a mark lost by a failed read, one cache lifetime without flush loses the members written since |
| GroupCache.FailedScoreEmptiesRows | internal/meta/chat/group/cache.go:148-155 | one failing ZSCORE in a read of a dirty room, one cache lifetime and a flush delete all members of the room from the database |
| GroupCache.PartialFillLosesRows | internal/meta/chat/group/repo.go:165-178 | the failing input: after a query whose iteration broke off, one write and one flush leave only the rows it had seen and the written member |
| GroupCache.OverlappedFlushExactly | internal/meta/chat/group/flusher.go:157-211 | when any safe steps happen between a flush's read of the members and its commit, and any between its commit and its clearing of the mark, readers keep seeing the plain set if and only if it is in the end what the flush has read |
| GroupCache.UnreadableExactly | internal/meta/chat/group/repo.go:151-173 | with the cache unreachable a reader is told the plain set exactly if it reads all of it: if the room is cold and it gets to all rows, or if the rows it reads are the key's members |
| GroupCache.MembershipTestExactly | internal/meta/chat/group/repo.go:89-102 | the membership test is right exactly if the room is warm or the user is not in the rows |
| GroupCache.KeyLifetimes | internal/meta/chat/group/cache.go:148-155 | a dirty key can expire only after a read whose ZSCORE failed; a read clean key lives one cache TTL, a flushed key one post-flush TTL |
| GroupStore.Store.AddRoomMember | internal/meta/chat/group/cache.go:54-80 | adds the member if the first command works, marks the room dirty with the time if the next two do, makes its key persistent if all five do; succeeds exactly if the first four do |
| GroupStore.Store.AddRoomMembers | internal/meta/chat/group/cache.go:82-117 | the same for a list with repetitions, with one fallback for the first command and two commands for each user; an empty list is an error that changes nothing |
| GroupStore.Store.RemoveRoomMember | internal/meta/chat/group/cache.go:119-140 | removes the member, and the key with the last one; marks the room dirty and leaves the key persistent, or with a TTL or as it was, by which of its commands work |
| GroupStore.Store.GetRoomMemberIDs | internal/meta/chat/group/cache.go:142-168 | answers the cached members; renews the TTL of a key it finds clean or cannot score, and makes a dirty one persistent |
| GroupStore.Store.IsRoomMember | internal/meta/chat/group/repo.go:89-102 | asks the cache, or the rows if the cache cannot be read |
| GroupStore.Store.QueryRoomMemberIDs | internal/meta/chat/group/repo.go:151-181 | an empty or unreadable cache is answered from the rows, as far as the iteration gets, and filled with those, if that works |
| GroupStore.Store.ScanRows | internal/meta/chat/group/repo.go:164-171 | an iteration yields some of the rows, and all of them if it does not break off |
| GroupStore.Store.PopDirtyGroups | internal/meta/chat/group/cache.go:189-204 | the min(n, k) oldest dirty rooms, ascending, none left out older than one taken; nothing is removed |
| GroupStore.Store.WriteBack | internal/meta/chat/group/flusher.go:167-200 | one transaction: the rows become exactly the given members if every statement and the commit work, and stay as they were otherwise |
| GroupStore.Store.FlushRoom | internal/meta/chat/group/flusher.go:157-211 | one room's write-back for every point at which it can fail |
| GroupStore.Store.ProcessDirtyGroups | internal/meta/chat/group/flusher.go:151-212 | flushes exactly the oldest rooms, each independently of the others' failures |
| GroupStore.Store.CleanStaleDirty | internal/meta/chat/group/flusher.go:43-66 | handles exactly the rooms marked before the cutoff |
| GroupStore.PassCleans | internal/meta/chat/group/flusher.go:151-212 | a failure-free pass clears exactly the marks of the rooms it took, makes their rows current and leaves all other rows alone |
| GroupStore.PassIsPerRoom | internal/meta/chat/group/flusher.go:157-211 | in a pass with any failures a room's mark is cleared exactly if all its commands work, and its rows become its members exactly if they work up to the commit; no failure touches another room |
| GroupStore.CleaningIsPerRoom | internal/meta/chat/group/flusher.go:43-66 | the same for the cleaning of stale marks, whose marks are cleared also after a read that failed |
| GroupStore.PassesFinish | internal/meta/chat/group/flusher.go:151-212 | p failure-free passes of batch b leave max(0, k - p*b) of k dirty rooms; when none is left every present key equals its rows |
| JoinedRooms.WriteCsv | internal/meta/chat/group/flusher.go:137-144 | joins the formatted IDs with commas and a trailing comma; nothing for no rooms |
| JoinedRooms.ReadCsv | internal/meta/chat/group/repo.go:125-139 | skips empty fields, fails on the first field that is no int64, keeps order and repetitions |
| JoinedRooms.ParseFormat | internal/meta/chat/group/repo.go:135-136 | every int64 survives formatting and parsing, the minimum included |
| JoinedRooms.ListIsReadFirst | internal/meta/chat/group/repo.go:128-139 | whatever follows a written list in the column, the list is read first, whole and in order |
| JoinedRooms.RoundTrip | internal/meta/chat/group/flusher.go:226-234 | reading what was written returns the same list, for all lists of int64 |
| Monitor.Ring.constructor | pkg/monitor/monitor.go:38-54 | an empty window |
| Monitor.Ring.Receive | pkg/monitor/monitor.go:94-137 | one insertion turns the window into: expired prefix dropped if not full, else one task dropped; then the new task; head, tail, count and totals follow |
| Monitor.Ring.DropExpired | pkg/monitor/monitor.go:97-112 | the expiry loop ends, and drops exactly the expired prefix unless the ring is full |
| Monitor.Ring.DropHead | pkg/monitor/monitor.go:101-111 | drops the oldest task; count and success count were positive, so the guards never bite |
| Monitor.Ring.Append | pkg/monitor/monitor.go:129-136 | appends at the tail |
| Monitor.Ring.GetStats | pkg/monitor/monitor.go:69-79 | the averages are those of exactly the window's tasks |
| Monitor.DropsWhatIsOver | pkg/monitor/monitor.go:97-112 | exactly the tasks before the first that has no completion time or one less than the window ago are dropped |
| Monitor.SlotIsMod | pkg/monitor/monitor.go:129-130 | the tail is (head + count) mod the capacity |
| Monitor.WindowIsRecentHistory | pkg/monitor/monitor.go:94-137 | for every run the window is a suffix of the tasks inserted, within capacity, ending with the last one |
| Monitor.SlidingWindowExactly | pkg/monitor/monitor.go:94-137 | for every window: after an insertion into a ring with a free slot exactly the live tasks and the new one are left if and only if no expired task stood behind a live one; in a full ring nothing expired is left if and only if all but the oldest task were live |
| Monitor.LateArrivalOutlivesWindow | pkg/monitor/monitor.go:65-67 | the failing input: of two tasks that arrive in the other order than they completed, the expired one stays although there is room |
| Monitor.OrderedRunsSlide | pkg/monitor/monitor.go:94-137 | if tasks arrive in the order of their completion, expired tasks come first in the window of every run, so that the promise is kept with a free slot |
| Lease.Service.constructor | internal/registry/gateway/service.go:15-20 | an empty registry |
| Lease.Service.RegisterGateway | internal/registry/gateway/service.go:29-83 | lease, ranking at zero and instance entry, as far as the commands work |
| Lease.Service.UpdateHeartbeat | internal/registry/gateway/service.go:86-142 | renews a lease that is still there and then its score; anything else changes nothing |
| Lease.Service.UnregisterGateway | internal/registry/gateway/service.go:145-172 | removes lease, ranking and instance entry, as far as the commands work |
| Lease.Service.RecordUserConnect | internal/registry/user/service.go:26-76 | overwrites the user's route if the gateway has a lease; reports success exactly then |
| Lease.Service.RecordUserDisconnect | internal/registry/user/service.go:80-141 | marks the route and renews it only for the gateway it names; when it reports an error |
| Lease.Service.GetLowestLoadGateway | internal/registry/gateway/service.go:193-227 | looks at one gateway of minimal score and refuses if that one is gone, unreadable or full |
| Lease.Service.GetAvailableGatewayForUser | internal/registry/user/service.go:205-248 | the gateway of the user's route if it has a lease, else the lowest ranked |
| Lease.Service.BatchGetUserRoutes | internal/registry/user/service.go:162-201 | decoding by position gives each listed user, repeated or not, exactly the route a single lookup gives; when the MGET fails, an empty map without an error |
| Lease.RouteIsLastConnect | internal/registry/user/service.go:26-141 | in every run a present route names the gateway and address of the user's last working connect, and is marked disconnected exactly if that gateway reported a disconnect since |
| Lease.RouteLastsItsTTL | internal/registry/user/service.go:53-61 | a connect keeps its route at least for the TTL |
| Lease.RouteIsThere | internal/registry/user/service.go:26-76 | in every run, for less than the TTL after the user's last connect, the route is there and names that gateway with the host and port it had registered |
| Lease.RouteLapses | internal/registry/user/service.go:53-61 | without a disconnect from its gateway since, the route ends exactly with the TTL after the connect |
| Lease.LateDisconnectChangesNothing | internal/registry/user/service.go:100-108 | in every run a disconnect from any other gateway than that of the last connect changes nothing |
| Lease.OverlappedDisconnectExactly | internal/registry/user/service.go:80-141 | whatever happens between a disconnect's read and its write, it amounts to a disconnect at the moment of the write if and only if the route is still there and of the same connect; a connect to another gateway in between is overwritten |
| Lease.ServedExactly | internal/registry/gateway/service.go:193-227 | with working commands a user without a usable route is sure to be served if and only if every gateway of minimal score has a lease and room, and can be served if and only if one of them has |
| Lease.StepRankedExactly | internal/registry/gateway/service.go:54-67 | a step keeps every lease ranked by its load, unless it writes the lease and fails to write a different score |
| Lease.OfferedIsLeastLoaded | internal/registry/gateway/service.go:193-227 | in every run without such a failure, the offered gateway has no more load than any other with a lease, and room |
| Lease.OfferIsGrounded | internal/registry/user/service.go:205-248 | in every run an offered gateway has a lease, and is the one of the user's last working connect or has minimal score and room |
| Lease.DeadStaysRanked | internal/registry/gateway/service.go:86-94 | an expired gateway keeps its score until it registers or unregisters |
| Lease.DeadGatewayBlocks | internal/registry/gateway/service.go:195-210 | while an expired gateway has the lowest score, every user without a usable route is refused |
| Lease.StepKeepsListed | internal/registry/gateway/service.go:62-74 | a step whose commands work keeps instance set and ranking equal |
| Lease.InstancesAreRanked | internal/registry/gateway/service.go:29-172 | over every run whose commands work, instance set and ranking list the same gateways, each with a lease ranked by its load |
| Lease.LeaseIsLastReport | internal/registry/gateway/service.go:29-142 | in every run a lease holds the address, port and capacity of the gateway's last registration, and the load and users of its last heartbeat since |
| Lease.LeaseEndsExactly | internal/registry/gateway/service.go:29-142 | in every run a gateway that has not unregistered has a lease exactly for the TTL after its last registration or heartbeat |
| Lease.UnregisteredStaysGone | internal/registry/gateway/service.go:145-172 | after unregistering nobody can connect to a gateway until it registers again, heartbeats or not |
| RouteCache.Service.constructor | internal/send/route/service.go:19-23 | neither cache nor client at first |
| RouteCache.Service.InitRouteService | internal/send/route/service.go:26-34 | an empty cache and the given client |
| RouteCache.Service.Get | internal/send/route/cache.go:42-54 | answers an entry up to its expiry |
| RouteCache.Service.Set | internal/send/route/cache.go:58-67 | buffers an entry whose expiry counts from the call |
| RouteCache.Service.GetUserGateway | internal/send/route/service.go:38-80 | cache, then client check, then registry; buffers exactly a fetched route |
| RouteCache.Service.BatchGetUserGateways | internal/send/route/service.go:84-139 | finds for every user asked for, repeated or not, what the single lookup finds in the same state, also when the registry fails; buffers each fetched route once; when it reports which error |
| RouteCache.Service.InvalidateCache | internal/send/route/service.go:148-153 | forgets the user's entry |
| RouteCache.Service.ClearCache | internal/send/route/service.go:156-161 | forgets all entries |
| RouteCache.BatchRefinesSingle | internal/send/route/service.go:84-139 | hits and fetched routes together agree pointwise with the single lookup |
| RouteCache.BatchAgreesExactly | internal/send/route/service.go:84-139 | with or without a client, the batch finds what single lookups find if and only if there is a client or the cache answers for none of the users |
| RouteCache.BuffersExactly | internal/send/route/service.go:70-129 | a lookup buffers exactly the routes that it has fetched, each to be served for 60 seconds |
| RouteCache.TraceIsSourced | internal/send/route/service.go:38-139 | in every run each cached or buffered entry is an answer the registry gave, with 60 seconds from then |
| RouteCache.BoundedStaleness | internal/send/route/service.go:38-139 | over registry changes, ticks, lookups, evictions, dropped and delayed Sets and invalidations, a gateway found now was the registry's answer at most 60 seconds ago |
| RouteCache.FoundWhereConnected | internal/send/route/service.go:38-80 | cache and registry together: a gateway found is the one of the user's last working connect as of at most 60 seconds ago |
| RouteCache.FoundExactly | internal/send/route/service.go:38-139 | in every run, with a client, an answering registry and no current entry, both lookups find a user for less than the TTL after the last working connect, at that gateway and its registered host and port; and neither does after the TTL if the gateway has not reported a disconnect since |
| RouteCache.FoundAfterInvalidation | internal/send/route/service.go:148-153 | in every run a gateway found right after an invalidation is the one of the user's last working connect |
| Reclaimer.Worker.constructor | internal/msgflusher/reclaimer.go:86-99 | the given pending entries and nothing done |
| Reclaimer.Worker.PushbackToSend | internal/msgflusher/reclaimer.go:222-263 | asks the instances in the shuffled order up to the first that accepts |
| Reclaimer.Worker.PushAll | internal/msgflusher/reclaimer.go:180-199 | pushes the targets in order up to the first that nobody takes |
| Reclaimer.Worker.Reclaim | internal/msgflusher/reclaimer.go:169-213 | skips an entry that does not decode, acknowledges one whose targets were all taken |
| Reclaimer.Worker.ReclaimStream | internal/msgflusher/reclaimer.go:155-220 | handles page after page, stopping at an error, an empty page, or a cursor that is empty, zero or unchanged |
| Reclaimer.CallStopsAtFirstSuccess | internal/msgflusher/reclaimer.go:236-262 | a call asks different instances, only the last may accept, and giving up means that all were asked |
| Reclaimer.AnswersAreTheWorlds | internal/msgflusher/reclaimer.go:236-262 | a call asks the instances in the shuffled order, and records each answer as given |
| Reclaimer.PushesTakeAPrefix | internal/msgflusher/reclaimer.go:180-199 | the targets taken are a prefix, all of them exactly if the entry is to be acknowledged; otherwise every instance refused the next one |
| Reclaimer.PassTakesUpAll | internal/msgflusher/reclaimer.go:155-220 | a pass takes up every entry of every page, in order, up to the first page that is empty or has a final or unchanged cursor, or the first claim that fails |
| Reclaimer.EntryIsAllOrNothing | internal/msgflusher/reclaimer.go:169-213 | an entry is acknowledged if and only if its data decodes with targets and all of them were taken in this pass, and leaves the pending list if and only if that acknowledgement works |
| Reclaimer.RunKeepsEarned | internal/msgflusher/reclaimer.go:155-220 | in every run each acknowledgement is preceded by one unbroken pass in which the targets taken, in order, are exactly those that the entry's data lists |
| Reclaimer.EntriesLeaveOnlyWhenServed | internal/msgflusher/reclaimer.go:155-263 | over any passes and failures, an entry its gateway did not acknowledge leaves the pending list only if its data lists targets and every one of them was taken by some send instance |
| MessageFlush.Store.constructor | internal/send/chat/send/repo.go:86-90 | an empty queue and no rows |
| MessageFlush.Store.InsertMessage | internal/send/chat/send/repo.go:24-52 | the message is queued at the tail if and only if the call reports success |
| MessageFlush.Store.PopBatch | internal/send/chat/send/repo.go:88-105 | pops at most a batch, up to an empty list or an error, skipping what does not decode |
| MessageFlush.Store.Restore | internal/send/chat/send/repo.go:111-114 | pushes the messages back from the last to the first, ignoring errors |
| MessageFlush.Store.FlushOnce | internal/send/chat/send/repo.go:87-116 | the popped messages become rows, or go back to the queue if the insert fails |
| MessageFlush.DecodeEncode | internal/send/chat/send/repo.go:99-113 | a restored message decodes to itself |
| MessageFlush.FlushConserves | internal/send/chat/send/repo.go:87-131 | whatever fails, queued, stored and lost messages together are the queued and stored ones from before |
| MessageFlush.LostNothingExactly | internal/send/chat/send/repo.go:110-115 | nothing is lost exactly if the insert works or no restoring push fails |
| MessageFlush.WorkingFlushStores | internal/send/chat/send/repo.go:87-131 | a flush whose pops and insert work stores the oldest batch of messages, or all, in order, and leaves the others queued |
| MessageFlush.WorkingFlushesFinish | internal/send/chat/send/repo.go:87-131 | k working flushes store exactly the k batches oldest messages, in order, so a queue of any length is stored after enough of them |
| MessageFlush.FailedFlushReverses | internal/send/chat/send/repo.go:110-115 | after a failed insert the queue is the rest followed by the popped prefix reversed |
| MessageFlush.OrderSurvivesExactly | internal/send/chat/send/repo.go:110-115 | a failed insert keeps the order of distinct messages exactly if none was popped or the only one queued was |
| MessageFlush.RunConserves | internal/send/chat/send/repo.go:24-131 | over every run the accepted messages are exactly those stored, queued and lost |
| MessageFlush.StoredOnce | internal/send/chat/send/repo.go:24-131 | distinct accepted messages are stored at most once, and never while still queued |

## Left out

- HTTP handlers, WebSocket read loops and pings, configuration, logging, tokens, metrics export and retry wrappers: their outcomes are parameters.
- An old session's read loop can remove a newer connection of the same user (internal/gateway/user/ws/ws.go:135); nothing is claimed about which session a removal belongs to.
- Interleavings of the Redis commands inside one cache or flush operation: each group-cache operation is one step, however far it gets, except for a flush, whose read, commit and clearing of the mark may have any steps in between (`GroupCache.OverlappedFlushExactly`).
- Interleavings of the commands inside one registry operation: a connect, a heartbeat (GET, SETEX, ZADD), a registration or unregistration and an offer are one step each, however far it gets, except for a disconnect (`Lease.OverlappedDisconnectExactly`).
- Interleavings inside one pass of the reclaimer, one flush or push of the message queue, and one insertion into the ring (which the source guards by a lock): each is one step, and other steps come between them.
- A failed Redis command or COMMIT has no effect; commands that took effect but reported an error are not modelled.
- The cached set of a user's rooms: only the column format of the user side is proved, and the commands on the user side of group operations appear by whether they fail.
- Room roles, nicknames, join requests and search.
- The unsynchronised map read of the counters as a memory-model question: the lookup is one atomic action.
- `WriteJSONSafe` is like `EnqueueMessage` with a wait for the result and is not modelled.
- Pull backpressure of the gateway (internal/gateway/push/pullTask.go:69-139) and the acknowledgement cache: the gateway's results are about its completion callback, not about stream acknowledgements.
- The standalone dispatcher (internal/send/push/dispatcher_standalone.go) and offline-message batching: weaker copies without accounting.
- Liveness, fairness, real time and blocking on a full local fallback channel; the only progress claimed is that of the flusher.
- The field names the reclaimer decodes are not those the sender writes (internal/msgflusher/reclaimer.go:21-28, internal/send/push/types.go:4-11); the reclaimer's results are about the targets it decodes.
- FanOut.RunTracks: for fewer than 2^31 targets; from 2^31 + 1 on a message can be completed early (`PendingTask.WaitsForAllExactly`).
- FanOut.AcknowledgedMeansHandedOver: the same bound on the number of targets.
- FanOut.AcknowledgedExactly: the same bound on the number of targets.
- FanOut.FinishedMeansDecided: the same bound on the number of targets.
- SendDispatch.Dispatcher.GatewayWorker: one iteration of a loop that never ends.
- GatewayDelivery.CompletionMeansDelivered: a message ID is not dispatched again while it is live, since Init overwrites a live counter (pkg/pendingTask/pendingTask.go:69); a report is one action here, whose single actions `PendingInterleaving` covers.
- GatewayDelivery.CopiesAreConserved: under the same assumption; copies in the in-process fallback count as astray, because nothing reads that fallback (internal/gateway/push/channel_redis.go:37-46).
- GatewayNode.Node.Dispatch: the operations are run alone here, one action after the other; the pieces they are made of may be interleaved, and the results over runs are about these.
- RouteCache.BoundedStaleness: a lookup's query of the registry and its Set call are one step, so the 60 seconds count from that step; the time an answer is under way comes on top.
- RouteCache.FoundWhereConnected: the same.
- Monitor.Ring.Receive: the totals are unbounded integers, where int64 sums would wrap.
- Monitor.Ring.GetStats: averages are exact rationals, without floating-point rounding.
- Lease.OfferedIsLeastLoaded: loads and scores are real numbers, without floating-point rounding.
- Reclaimer.Worker.ReclaimStream: the replies to the claims are given as a list; that the server's cursor reaches its end is not proved.
