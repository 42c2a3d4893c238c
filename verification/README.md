# MSight cloud backend: a Dafny model

This project models the stateful core of the MSight cloud backend and proves
properties of it over every input, every run or every interleaving. It is
checked with `dafny verify dfyconfig.toml`.

| module | models |
|---|---|
| `Resp`, `ValkeyConnection`, `ValkeyClient`, `ValkeySession` | the hand-written Valkey client: RESP2 encoder and incremental parser, response buffer, one-in-flight command queue, reconnects |
| `ConfigCache`, `SharedCache`, `LoadConfig`, `Fleet`, `Serving` | the three-tier configuration cache of the SPaT consumers, for one call and for a whole fleet |
| `Naming`, `SensorCloud`, `SensorReconciler`, `SensorConvergence`, `SensorOperator` | the sensor reconciler and the reaper, over a world of queues, subscriptions and services in which any call may fail |
| `CriticalSpat`, `RateLimiter`, `SdsmBuffer` | the stream filters: critical-update detector, 2 Hz limiter, SDSM fragment buffer |
| `Ec2Capacity` | building and taking down the EC2 capacity of a cluster under faults |
| `Notifications` | the read-modify-write of a bucket's notification rules |
| `Presence` | WebSocket presence in Valkey: connect, disconnect, gone clean-up, location updates, expiry sweep |
| `AdminRouter` | the admin router and its middleware chain |

How the modules are built. Code that changes things in place is a class whose
methods change its fields, and each method is proved equal to a function of the
old state; whole runs, histories and interleavings are then proved about those
functions by induction over the events. A world outside the process (AWS,
Valkey, the database) is a value the methods update; a schedule or a fault
argument says for each call whether it works, fails without effect, or takes
effect and still reports a failure. Clocks, random draws and the order of
listings are arguments too.

What came out that a reader of the code may not expect, each stated exactly:

- The RESP round trip holds if and only if all bulk text is one-byte: the
  encoder counts UTF-8 bytes, the parser characters
  (`Resp.RoundTripIff`, `Resp.EncodedParsesBack`). With multi-byte text in
  front of other items a reply can be rejected before it has arrived
  (`Resp.WideTextMisaligns`).
- The staleness bound of the configuration cache over all tiers is
  hard ttl + ttl * (1 + jitter) + grace, and is tight. The docstring of
  `ConfigCache` speaks of ttl * (1 + jitter), which is its own tier only.
- A failed dial is not retried by `_run_config_query`, although the comment on
  `_get_db_conn` says callers retry; only a failed query is
  (`LoadConfig.Connection.RunConfigQuery`).
- A sensor deletion cut off after the unsubscribe is not repaired by the next
  run in which nothing fails, and a task restart cut off after the service was
  tagged is repeated by no run at all. The comment on `convergeTags` says the
  restart happens once; a restart that failed does not happen
  (`SensorConvergence.InterruptedDeleteIsNotRepaired`,
  `SensorConvergence.InterruptedRestartIsNotRepaired`).
- A service that is still draining makes a run fail although no call does, when
  it stands behind an unwanted queue, an incomplete sensor or a restart; what
  such a run reaches is stated without assuming it away
  (`SensorConvergence.CleanConverge`, `SensorConvergence.CompletesIff`). Behind
  a desired sensor it does not keep two runs from reaching a fixed point; behind
  an unwanted queue it does, since every run then makes a call that is refused
  (`SensorConvergence.TwoRunsReachAFixedPoint`).
- The reaper's poll puts all services of the prefix into one DescribeServices,
  which takes ten. With more than ten the call is refused, the refusal is
  caught, and the poll answers complete while the services are draining, which
  is what src/functions/sensor-reaper/handler.ts:99-105 says it waits for
  (`SensorConvergence.FirstPollIff`,
  `SensorConvergence.ElevenSensorsAreNotAwaited`).
- The phase property of the critical filter needs no distinct signal groups;
  the drift property fails exactly for a forwarded update that contradicts
  itself. The docstring gives the timing window as 30 s, the constant is 2
  minutes; the model follows the constant. An update the handler drops behind
  the filter stays the reference, so its phase is kept from the clients
  (`CriticalSpat.DroppedIsTheReference`).
- A failed SDSM broadcast loses its group, because the buffer is cleared first,
  and lets timestamps go back.
- The deployment tag in rule ids does not separate deployments whose names
  continue each other with `-object-created` (`Notifications.OwnsIff`). The doc
  comment at src/shared/storage-infrastructure.ts:481-490 describes a
  bucket-wide rule; the code writes one rule per prefix, and the model follows
  the code.
- A top-level nil reply reaches the caller as an empty text
  (src/shared/valkey-client.ts:44). The recheck of an expired client therefore
  lets a client without any score through, and of two overlapping sweeps the
  second takes a live socket away (`Presence.CleanupSparesIff`,
  `Presence.SecondSweepTakesALiveSocket`); and a disconnect without a lookup
  fails on parsing it (`Presence.Valkey.Disconnect`).
- Client keys collide when app ids contain colons, which the identity check
  allows (`Presence.KeysCollide`). A disconnect that overtakes the second write
  of its connect leaves the socket fields behind
  (`Presence.DisconnectClearsIff`), and a location update between the two
  removals of a cleanup leaves the client in the geo set only
  (`Presence.UpdateDuringSweep`), one before them in neither set but with its
  fields in the hash (`Presence.HashAfterSweep`).
- A malformed reply stays in the response buffer: it rejects the next command of
  the connection as well (`ValkeyConnection.MalformedStays`).

## Model

| member | source | states |
|---|---|---|
| `Resp.ParseResponse` | src/shared/valkey-client.ts:47-141 | the recursive parser with its `values` list and moving `cursor`, against the reference parse of the buffer at every position |
| `Resp.ParseArray` | src/shared/valkey-client.ts:103-138 | the array loop: items are parsed one behind the other, and one incomplete item makes the array incomplete |
| `Resp.DecimalRoundTrip` | src/shared/valkey-client.ts:64-77 | a length printed in decimal is read back as itself and contains no line terminator |
| `Resp.IntegersIff` | src/shared/valkey-client.ts:64-77 | the texts read as integers: the empty one as 0, and digits with one sign or none |
| `Resp.LineForms` | src/shared/valkey-client.ts:55-87 | simple strings, integers and both nils as they stand on the wire, and what is read |
| `Resp.BulkForm` | src/shared/valkey-client.ts:89-100 | a one-byte bulk string as it stands on the wire, and what is read |
| `Resp.ArrayForms` | src/shared/valkey-client.ts:103-138 | arrays of none and of two replies as they stand on the wire, and what is read |
| `Resp.OddForms` | src/shared/valkey-client.ts:64-140 | what no server sends: other negative array lengths are empty arrays, numbers that are none are handed on, lengths that are none and unknown types are malformed |
| `Resp.RenderedParses` | src/shared/valkey-client.ts:47-141 | for every well-formed one-byte reply, at any position of any buffer, parsing its rendering gives its value and exactly its length, whatever follows |
| `Resp.PrefixIncomplete` | src/shared/valkey-client.ts:51-95 | every strict prefix of the rendering of a well-formed reply is incomplete, never an error or a value, where multi-byte text stands at most in its last bulk string |
| `Resp.WideTextMisaligns` | src/shared/valkey-client.ts:89-100 | multi-byte text in front of other items: if the parser lands on a character that starts no reply and is not the last, a strict prefix is rejected |
| `Resp.WideTextOvershoots` | src/shared/valkey-client.ts:89-100 | if it lands at the end or beyond, every strict prefix is incomplete after all |
| `Resp.WidePrefixIsRejected` | src/shared/valkey-client.ts:89-140 | the shortest case: a two-byte character in front of another bulk string |
| `Resp.MultiByteIsMisread` | src/shared/valkey-client.ts:90-98 | once the rendering of a reply with multi-byte bulk text is complete, its value is not what is parsed: the encoder counts bytes, the parser characters |
| `Resp.RoundTripIff` | src/shared/valkey-client.ts:47-141 | parsing a rendering with anything behind it gives the reply and its length if and only if all its bulk text is one-byte |
| `Resp.LoneBulkNeverCompletes` | src/shared/valkey-client.ts:89-95 | a multi-byte bulk string alone in the buffer stays incomplete although all of it has arrived |
| `Resp.EncodeCommand` | src/shared/valkey-client.ts:179-188 | the encoding loop produces the rendering of the array of its arguments as bulk strings |
| `Resp.ByteLengthIsUtf8` | src/shared/valkey-client.ts:184-184 | the byte length is that of the UTF-8 encoding, which a reader of UTF-8 turns back into the text |
| `Resp.CommandOnTheWire` | src/shared/valkey-client.ts:179-188 | a command with one argument, as it stands on the wire |
| `Resp.EncodedParsesBack` | src/shared/valkey-client.ts:179-188 | an encoded command parses back to its arguments, whatever follows, if and only if they are one-byte text |
| `ValkeyConnection.Connection.Settle` | src/shared/valkey-client.ts:27-45 | the command in flight is settled once, with its error or with its response, a top-level nil becoming the empty text; the slot is free afterwards |
| `ValkeyConnection.Connection.ProcessResponseBuffer` | src/shared/valkey-client.ts:143-177 | one pass over the buffer: error line, incomplete, complete or malformed answer, and what remains in the buffer |
| `ValkeyConnection.Connection.OnData` | src/shared/valkey-client.ts:234-237 | a chunk is appended and processed; with no command in flight it is only kept |
| `ValkeyConnection.WholeAnswerSettles` | src/shared/valkey-client.ts:143-177 | a complete answer settles the command with exactly that answer and leaves the buffer empty |
| `ValkeyConnection.CallerIsTold` | src/shared/valkey-client.ts:27-45 | a nil on top is the empty text, one inside an array stays a nil, an error line is the message of the rejection, every other reply is its value |
| `ValkeyConnection.MalformedStays` | src/shared/valkey-client.ts:143-177 | a malformed reply rejects the command and stays in the buffer, so that it rejects the next one too |
| `ValkeyConnection.PartialAnswerWaits` | src/shared/valkey-client.ts:148-168 | no strict prefix of an answer settles anything or touches the buffer |
| `ValkeyConnection.AnyChunkingSettles` | src/shared/valkey-client.ts:143-177 | however an answer is cut into chunks, the command is settled once, with that answer |
| `ValkeyClient.NextKeeps` | src/shared/valkey-client.ts:190-324 | every send, start, connect, chunk, timeout, write error, socket error and close keeps the protocol invariant: one command in flight, commands ending in order, buffers aligned with the one outstanding answer |
| `ValkeyClient.RunKeeps` | src/shared/valkey-client.ts:190-324 | the same over every interleaving of events |
| `ValkeyClient.EveryCommandGetsItsOwnReply` | src/shared/valkey-client.ts:27-45 | after every interleaving at most one command is in flight over all connections, every resolved command got the answer to itself, commands ended in the order sent, none is forgotten, and a written command resolves with its answer as soon as the rest of it arrives |
| `ValkeyClient.WrittenIsAnswered` | src/shared/valkey-client.ts:143-237 | however the run goes on, a written command has its own answer once no byte of it is missing, unless its connection fails, and then it is rejected |
| `ValkeyClient.QueueMoves` | src/shared/valkey-client.ts:269-309 | the next operation starts when none runs, on the open shared connection, on a dialled one, or fails without a host; an opened connection is written to |
| `ValkeyClient.EveryCommandCanBeAnswered` | src/shared/valkey-client.ts:190-324 | from every reachable state a continuation without failures answers every command that has not ended, each with its own answer |
| `ValkeyClient.TimeoutFreesTheQueue` | src/shared/valkey-client.ts:213-222 | whatever state is reached, the timeout of the running operation rejects it and frees the queue |
| `ValkeyClient.DeadStaysSilent` | src/shared/valkey-client.ts:239-261 | a step never revives a dead connection, revises an ending or resolves a command from it |
| `ValkeyClient.DeadForever` | src/shared/valkey-client.ts:239-320 | a connection that timed out, failed or was closed never carries another successful command, however the run goes on |
| `ValkeyClient.FailuresKill` | src/shared/valkey-client.ts:213-320 | what makes a connection dead: a socket error or close, its command timing out, a write error, a connect timeout |
| `ValkeySession.Session.SendCommand` | src/shared/valkey-client.ts:280-293 | a sent command joins the chain of operations, as a step of the protocol |
| `ValkeySession.Session.RunNext` | src/shared/valkey-client.ts:269-309 | the next operation uses the shared connection, waits for it, dials one or fails without a host, as a step of the protocol |
| `ValkeySession.Session.OnConnect` | src/shared/valkey-client.ts:263-265 | the dialled connection opens and the waiting command is written |
| `ValkeySession.Session.OnData` | src/shared/valkey-client.ts:234-237 | bytes that arrive go to the connection object, and if they settle its command the operation ends, as a step of the protocol |
| `ValkeySession.Session.RejectInFlight` | src/shared/valkey-client.ts:27-45 | the command in flight on a connection object is rejected, as a step of the protocol |
| `ValkeySession.Session.TearDown` | src/shared/valkey-client.ts:239-261 | any failure rejects the command in flight or the dial in progress and forgets the shared connection, whichever it is |
| `ValkeySession.Session.OnCommandTimeout` | src/shared/valkey-client.ts:297-303 | the command timeout tears its connection down |
| `ValkeySession.Session.OnWriteError` | src/shared/valkey-client.ts:311-321 | a write error tears its connection down |
| `ConfigCache.ConfigCache.Fresh` | src/shared/python/msight_config_cache.py:105-118 | a fresh read answers exactly before the entry's drawn refresh point |
| `ConfigCache.ConfigCache.Stale` | src/shared/python/msight_config_cache.py:120-134 | a stale read answers exactly before the refresh point plus the grace |
| `ConfigCache.ConfigCache.PutMany` | src/shared/python/msight_config_cache.py:144-147 | the loop stores every item with its own draw and nothing else |
| `ConfigCache.ConfigCache.Missing` | src/shared/python/msight_config_cache.py:149-163 | the names without a fresh entry, each once and in order of first appearance |
| `ConfigCache.MissingIn` | src/shared/python/msight_config_cache.py:149-163 | the reference for it: exactly the names that are not fresh, without repetition |
| `SharedCache.SharedCache.ReadOne` | src/shared/python/msight_valkey_cache.py:220-238 | fresh, stale or missing, by the stored refresh point and the expiry |
| `SharedCache.SharedCache.ReadMany` | src/shared/python/msight_valkey_cache.py:180-218 | every requested name is in exactly one of fresh, stale and absent; a failed read makes all of them absent |
| `SharedCache.SharedCache.WriteMany` | src/shared/python/msight_valkey_cache.py:242-260 | each value is stored with its refresh point and expiry, as far as the writes took effect |
| `SharedCache.SharedCache.ClaimRefresh` | src/shared/python/msight_valkey_cache.py:264-282 | one claim: won on a free lock, lost on a held one, and won by everybody when the call fails or the lock time is below a second |
| `SharedCache.SharedCache.ReleaseRefresh` | src/shared/python/msight_valkey_cache.py:284-289 | a release frees the lock if it takes effect |
| `LoadConfig.Connection.RunConfigQuery` | src/functions/spat-sns-consumer/handler.py:250-279 | a failed query is retried once, a failed dial is not, and the connection is closed however it ends |
| `LoadConfig.Consumer.ReadSharedApps` | src/functions/spat-sns-consumer/handler.py:312-324 | tier 2 for the app list, with the claim on a stale value |
| `LoadConfig.Consumer.ReadSharedCenters` | src/functions/spat-sns-consumer/handler.py:326-344 | tier 2 for the centres, with the claim only when nothing is absent |
| `LoadConfig.Consumer.Tier3` | src/functions/spat-sns-consumer/handler.py:347-394 | tier 3: one query with its retry refreshes both tiers; one without a row releases both claims and falls back on the grace, or raises |
| `LoadConfig.Consumer.Answer` | src/functions/spat-sns-consumer/handler.py:396-401 | the reply loop: fresh, else stale, else None, for every requested name |
| `LoadConfig.Consumer.LoadConfig` | src/functions/spat-sns-consumer/handler.py:282-403 | the whole call changes both tiers and answers exactly as the three-tier function says |
| `Serving.QueriesIff` | src/functions/spat-sns-consumer/handler.py:300-348 | a call queries exactly if the app list or a centre is known to nobody, or is due and this container won the claim; and it tries for claims exactly on what is due |
| `Serving.AppsServed` | src/functions/spat-sns-consumer/handler.py:300-394 | the app list of every reply, in order: the database's, fresh in this container, alive in the shared tier, within the grace in this container; with none of these the call raises |
| `Serving.CentersServed` | src/functions/spat-sns-consumer/handler.py:396-401 | the centres of every reply: what the container holds, up to the end of its grace, and None for every other name |
| `Serving.QueryRefreshesBothTiers` | src/functions/spat-sns-consumer/handler.py:347-376 | after a query that answered, both tiers hold the app list and every centre nobody had, with their times; None where there is no row |
| `Serving.FailedQueryFreesTheClaims` | src/functions/spat-sns-consumer/handler.py:378-388 | after a query that failed, either claim can be won at once by the next container, as far as the releases took effect |
| `Serving.OutageServes` | src/functions/spat-sns-consumer/handler.py:282-403 | with Valkey and the database down, a container serves exactly what it holds, each value to the end of its grace |
| `Serving.StoredOutlivesAnOutage` | src/functions/spat-sns-consumer/handler.py:282-403 | what a query stored at t with draw d is served through any outage at every moment before t + d + grace, and not from then on |
| `Serving.FreshWindow` | src/shared/python/msight_config_cache.py:97-118 | a stored value is fresh for at least ttl * (1 - jitter) and never for ttl * (1 + jitter) |
| `Serving.SharedLife` | src/shared/python/msight_valkey_cache.py:220-260 | a written value is fresh for the ttl, stale to the end of the hard ttl in whole seconds, then gone; with a hard ttl below a second nothing is written |
| `Serving.ClaimIs` | src/shared/python/msight_valkey_cache.py:264-282 | a claim is lost exactly to a held lock that Valkey answered about, and what becomes of the lock |
| `Serving.ClaimsExclude` | src/shared/python/msight_valkey_cache.py:264-282 | after a won claim the next is won exactly when the lock time is over |
| `Fleet.CallOk` | src/functions/spat-sns-consumer/handler.py:282-403 | one call by any container, with any failures: what it stores and what it serves was the database's recently enough |
| `Fleet.RunSourced` | src/functions/spat-sns-consumer/handler.py:282-403 | over every run of calls, every cached value in either tier was the database's at some moment within its tier's bound |
| `Fleet.EverythingServedIsRecent` | src/functions/spat-sns-consumer/handler.py:282-403 | with any number of containers, draws and failures, every app list and found centre served was the database's less than hard ttl + ttl * (1 + jitter) + grace ago |
| `Fleet.BoundIsTight` | src/shared/python/msight_config_cache.py:97-142 | no smaller bound holds: for every slack there is a run that serves a value older than the bound less the slack |
| `Fleet.AgreesWithDirectQuery` | src/functions/spat-sns-consumer/handler.py:300-403 | with an unchanging database a call whose own query does not fail answers what a direct query would, None exactly for missing rows, whatever else failed |
| `Fleet.SteadyRunPaced` | src/shared/python/msight_valkey_cache.py:264-282 | while the shared tier has everything and nothing fails, claims won on one cache are a lock time apart and those on the app list a ttl apart |
| `Fleet.FleetQueriesRarely` | src/functions/spat-sns-consumer/handler.py:312-371 | then the whole fleet makes at most 2 * (floor(W / lock) + 1) queries in any window W |
| `Naming.SensorRecovered` | src/shared/sensor-infrastructure.ts:126-129 | stripping prefix and suffix from a made queue name gives the normalised sensor |
| `Naming.QueueNameRoundTrip` | src/shared/deployment-naming.ts:204-211 | remaking the queue name from the recovered sensor gives the queue back if and only if the naming function made it |
| `Naming.NotRecovered` | src/shared/sensor-infrastructure.ts:126-129 | names without the prefix or without `.fifo` lose only what is there |
| `Naming.PlainNames` | src/shared/deployment-naming.ts:204-211 | a plain sensor name stands in its names as it is; no name has a capital or an underscore from the sensor |
| `Naming.SameQueueIff` | src/shared/deployment-naming.ts:204-211 | two sensors share their queue exactly if they differ in case and underscores for hyphens at most |
| `Naming.QueueOfInjective` | src/shared/deployment-naming.ts:204-211 | distinct services have distinct queues |
| `SensorReconciler.CreateKeeps` | src/shared/sensor-infrastructure.ts:307-413 | however a creation goes, the invariant holds, only this sensor is touched and nothing is lost; if it reports success the sensor works |
| `SensorReconciler.TakenNameBreaksInv` | src/shared/sensor-infrastructure.ts:314-330 | where another deployment's queue carries the name, a creation that works subscribes that queue and breaks the invariant |
| `SensorReconciler.DeleteKeeps` | src/shared/sensor-infrastructure.ts:422-486 | however a deletion goes, the invariant holds and only this sensor is touched; if it reports success nothing active is left |
| `SensorReconciler.DeleteAllKeeps` | src/shared/sensor-infrastructure.ts:633-635 | the deletion loop under any failures |
| `SensorReconciler.DrainingSticks` | src/shared/sensor-infrastructure.ts:458-470 | a deletion of a sensor whose service is draining fails behind the unsubscribe even if no call does, and leaves the queue |
| `SensorReconciler.DeleteAllOutcome` | src/shared/sensor-infrastructure.ts:633-635 | the deletion loop where no call fails succeeds exactly if no listed service is draining; the other sensors are gone, those are stuck without subscription |
| `SensorReconciler.CreateAllKeeps` | src/shared/sensor-infrastructure.ts:636-638 | the creation loop under any failures keeps the invariant, loses nothing and touches only its sensors |
| `SensorReconciler.CreateAllOutcome` | src/shared/sensor-infrastructure.ts:636-638 | the creation loop where no call fails succeeds exactly if no listed service is draining; every queue is there and the other sensors work |
| `SensorReconciler.TagAllKeeps` | src/shared/sensor-infrastructure.ts:551-589 | the tagging loop changes tags only, to the configured value; where no call fails it succeeds exactly if no service it has to restart is draining, and tags every other sensor |
| `SensorReconciler.TagAllTags` | src/shared/sensor-infrastructure.ts:551-589 | where no call fails the loop leaves every listed sensor with the cost tag on queue and service, also where the restart of a draining service is refused |
| `SensorConvergence.ToDeleteNames` | src/shared/sensor-infrastructure.ts:626-628 | the deletions named are exactly the owned queues nobody wants, each once, and share no service with a desired sensor |
| `SensorConvergence.DeletingSpares` | src/shared/sensor-infrastructure.ts:626-635 | while deleting, no foreign queue and no resource of a desired sensor is touched at all, whatever fails |
| `SensorConvergence.ConvergeKeeps` | src/shared/sensor-infrastructure.ts:603-643 | any run under any failures keeps the invariant, changes no foreign queue, and takes no queue, cost tag, subscription or service from a desired sensor |
| `SensorConvergence.FailedListingStops` | src/shared/sensor-infrastructure.ts:610-612 | a run whose listing fails ends before it has changed anything |
| `SensorConvergence.FailedDescriptionThrows` | src/shared/sensor-infrastructure.ts:535-549 | a run whose description fails ends before the tags, with what it deleted and created |
| `SensorConvergence.CleanConverge` | src/shared/sensor-infrastructure.ts:603-643 | one run in which no call fails, from any state: the owned queues are exactly the desired ones and those a draining service keeps alive; a sensor ends up working if and only if its service was not draining and it worked before or lacked its queue or its service; a desired queue ends up with the cost tag unless it was there without it and its service was missing; the run reports no failure if and only if no draining service stood in its way |
| `SensorConvergence.CompletesIff` | src/shared/sensor-infrastructure.ts:603-643 | such a run ends with exactly the desired queues and an active service each if and only if no service behind an owned queue or a desired sensor was draining |
| `SensorConvergence.CleanMeansNothingFailed` | src/shared/sensor-infrastructure.ts:603-643 | a run that reports no failure had no failed call, neither of its own nor for one sensor |
| `SensorConvergence.QuietIsFixed` | src/shared/sensor-infrastructure.ts:603-643 | where the owned queues are the desired ones, every desired service is listed, draining or not, and the cost tags are set, no run changes anything or makes a mutating call, whatever fails |
| `SensorConvergence.CostsNothingIff` | src/shared/sensor-infrastructure.ts:603-643 | a run in which no call fails makes no mutating call if and only if the world is quiet in that sense |
| `SensorConvergence.FixedIff` | src/shared/sensor-infrastructure.ts:603-643 | no further run for the list, whatever fails in it, can change anything or make a mutating call if and only if the world is quiet |
| `SensorConvergence.SteadyIff` | src/shared/sensor-infrastructure.ts:603-643 | the same with services that may finish draining at any time: queues, subscriptions, active services and the count of mutating calls stay, if and only if the world is quiet and every desired service is active |
| `SensorConvergence.CompleteBecomesStable` | src/shared/sensor-infrastructure.ts:520-592 | a failure-free run leaves a complete world stable |
| `SensorConvergence.HistoryKeepsInv` | src/shared/sensor-infrastructure.ts:603-643 | after any history of runs in which any call may fail, a subscription or active service still has its owned queue |
| `SensorConvergence.TwoCleanRunsSettle` | src/shared/sensor-infrastructure.ts:603-643 | two failure-free runs for one list, first and last of a history with failing runs and draining services in between, reach a fixed point if and only if no unwanted queue had a draining service when the last began; one that holds whatever finishes draining if and only if no service behind an owned queue or a desired sensor was draining then |
| `SensorConvergence.TwoRunsReachAFixedPoint` | src/shared/sensor-infrastructure.ts:603-643 | two failure-free runs from any state a history can leave: one behind the other they reach a fixed point if and only if no unwanted queue has a draining service at the start; where nothing in the way is draining at the start, services that finish draining between or after them make no difference |
| `SensorConvergence.PollIff` | src/functions/sensor-reaper/handler.ts:106-134 | where no call fails the poll answers complete if and only if no owned queue is left and either no service of the prefix is left or more than ten are |
| `SensorConvergence.PollAnswers` | src/functions/sensor-reaper/handler.ts:106-146 | the poll under any failures: exactly when it answers complete, which includes every failure to look |
| `SensorConvergence.CompleteMeansEmpty` | src/functions/sensor-reaper/handler.ts:106-146 | after any history, if the queue listing worked and whatever fails behind it, "complete" means no owned queue, no subscription and no active service; no service at all only where no call fails and at most ten are left |
| `SensorConvergence.FirstPollIff` | src/functions/sensor-reaper/handler.ts:99-134 | the first poll behind a failure-free teardown, whose services are all still draining, answers complete if and only if no queue was stuck and there were either no services or more than ten |
| `SensorConvergence.ManySensorsAreNotAwaited` | src/functions/sensor-reaper/handler.ts:122-146 | a deployment of more than ten sensors, built from nothing and torn down without a failure: the very first poll answers complete with every service still draining |
| `SensorConvergence.ElevenSensorsAreNotAwaited` | src/functions/sensor-reaper/handler.ts:122-146 | eleven sensors by name |
| `SensorConvergence.ConvergeToNothing` | src/functions/sensor-reaper/handler.ts:69-97 | converging to the empty list where no call fails leaves no subscription and no active service, and of the owned queues exactly those with a draining service |
| `SensorConvergence.InterruptedDeleteIsNotRepaired` | src/shared/sensor-infrastructure.ts:450-456 | a deletion cut off after the unsubscribe is not repaired when the sensor is wanted again, although the run reports no failure |
| `SensorConvergence.InterruptedRestartIsNotRepaired` | src/shared/sensor-infrastructure.ts:562-575 | a restart cut off after the service was tagged is never repeated: the tasks keep running without the cost tag |
| `SensorOperator.Operator.CreateSensorInfrastructure` | src/shared/sensor-infrastructure.ts:307-413 | the calls of a creation in order, leaving at the first failure, against the creation function |
| `SensorOperator.Operator.DeleteSensorInfrastructure` | src/shared/sensor-infrastructure.ts:422-486 | the calls of a deletion in order, against the deletion function |
| `SensorOperator.Operator.NamesToDescribe` | src/shared/sensor-infrastructure.ts:530-534 | the service names to describe, each once |
| `SensorOperator.Operator.DescribeInBatches` | src/shared/sensor-infrastructure.ts:533-549 | requests of at most ten names that laid end to end are the names themselves, so each is described exactly once |
| `SensorOperator.Operator.TagOne` | src/shared/sensor-infrastructure.ts:551-589 | tag queue and service where the tag differs, then restart, against the tagging function |
| `SensorOperator.Operator.ConvergeTheTags` | src/shared/sensor-infrastructure.ts:520-592 | the tagging pass, loops and batches included, against its function |
| `SensorOperator.Operator.ListOwnedQueues` | src/shared/sensor-infrastructure.ts:148-174 | over all pages, exactly the queues that still exist and carry this deployment's tag, each once |
| `SensorOperator.Operator.ConvergeTo` | src/shared/sensor-infrastructure.ts:603-643 | the whole run, loop by loop, against the converge function |
| `SensorOperator.Operator.IsComplete` | src/functions/sensor-reaper/handler.ts:106-146 | the poll call by call under the schedule: listings, one DescribeServices for all services of the prefix, refused beyond ten, and complete whenever it cannot look |
| `CriticalSpat.HasSignificantChange` | src/functions/critical-spat-sns-consumer/handler.py:177-236 | significant exactly if nothing is cached or some entry of the update disagrees with the last cached entry of its group |
| `CriticalSpat.Filter.IsCritical` | src/functions/critical-spat-sns-consumer/handler.py:239-265 | forwarded or not, and the cache afterwards, with failing reads and writes and expiry |
| `CriticalSpat.NoPhaseLost` | src/functions/critical-spat-sns-consumer/handler.py:177-265 | for every key and signal group the event states of the updates judged critical and of those received are one sequence once repeats are taken out, with expiry, failing reads and repeated groups |
| `CriticalSpat.NoPhaseLostToClients` | src/functions/critical-spat-sns-consumer/handler.py:603-640 | the same for what clients are sent, as long as nothing is dropped behind the filter |
| `CriticalSpat.DroppedIsTheReference` | src/functions/critical-spat-sns-consumer/handler.py:616-640 | an update dropped behind the filter is the reference all the same: the next is sent on only if it disagrees with it, a read fails or 300 s have passed |
| `CriticalSpat.DropKeepsAPhaseFromClients` | src/functions/critical-spat-sns-consumer/handler.py:616-640 | one dropped update keeps its phase from the clients |
| `CriticalSpat.SuppressedIff` | src/functions/critical-spat-sns-consumer/handler.py:239-265 | an update is judged not critical if and only if the cache can be read, one was judged critical under 300 s ago and the update agrees with the last of these |
| `CriticalSpat.CriticalIff` | src/functions/critical-spat-sns-consumer/handler.py:177-265 | an update is critical exactly if the cache cannot be read, nothing of its key was critical in the last 300 s, or an entry has no counterpart with its phase and an end time at most 10 tenths away where end times count |
| `CriticalSpat.TimingDecides` | src/functions/critical-spat-sns-consumer/handler.py:213-235 | with the groups and phases of the reference, it is critical exactly if some end time that counts differs by more than 10 tenths |
| `CriticalSpat.DriftIsBounded` | src/functions/critical-spat-sns-consumer/handler.py:162-236 | after every handled update the last one judged critical has its groups, phases and end times to within a second, unless the update was itself critical and contradicts itself, and then exactly not |
| `CriticalSpat.DriftInNumbers` | src/functions/critical-spat-sns-consumer/handler.py:162-236 | after every handled update that does not contradict itself, each entry has the phase of the last critical update and an end time at most 10 tenths from it, with no clock or 0 < remaining <= 1200 |
| `CriticalSpat.DistinctGroupsAgree` | src/functions/critical-spat-sns-consumer/handler.py:187-199 | an update with distinct groups never contradicts itself |
| `CriticalSpat.FailedWriteLosesAPhase` | src/functions/critical-spat-sns-consumer/handler.py:257-263 | one failed cache write is enough to lose a phase |
| `CriticalSpat.KeysApart` | src/functions/critical-spat-sns-consumer/handler.py:246-247 | cache keys tell sensors and intersections apart when sensor names have no colon |
| `RateLimiter.Limiter.ShouldPass` | src/functions/spat-sns-consumer/handler.py:151-163 | the script: block below half a second, else store and pass |
| `RateLimiter.LastPassDecides` | src/functions/spat-sns-consumer/handler.py:151-163 | a message passes if and only if nothing passed yet, the last pass is 300 s ago, or it was captured half a second after it; so a stored value blocks for at most 300 s |
| `RateLimiter.PassesAreApart` | src/functions/spat-sns-consumer/handler.py:151-163 | neighbouring passes are half a second apart in capture time, or the key expired between them |
| `RateLimiter.RateIsLimited` | src/functions/spat-sns-consumer/handler.py:151-163 | while the key lives at most floor(2L) + 1 messages captured within any L seconds pass |
| `RateLimiter.RateIsReached` | src/functions/spat-sns-consumer/handler.py:151-163 | that bound is met for every number of messages |
| `RateLimiter.ExpiryForgets` | src/functions/spat-sns-consumer/handler.py:151-163 | after expiry a message captured before the last pass can pass |
| `SdsmBuffer.Consumer.BroadcastPending` | src/services/sensor-consumer/consumer.py:212-284 | the buffer is cleared first; then the group is dropped without a position, lost on an error, or broadcast as the merge of its fragments |
| `SdsmBuffer.Consumer.Merge` | src/services/sensor-consumer/consumer.py:355-374 | merging appends the objects and adopts the header only from a strictly newer fragment |
| `SdsmBuffer.Consumer.ProcessMessage` | src/services/sensor-consumer/consumer.py:288-389 | buffer, merge, drop or flush; it raises exactly for an undecodable message or a failed broadcast, and the message then goes back to the queue |
| `SdsmBuffer.Consumer.Consume` | src/services/sensor-consumer/consumer.py:394-433 | the loop acknowledges exactly what did not raise and flushes once more at the end |
| `SdsmBuffer.WhereItGoes` | src/services/sensor-consumer/consumer.py:343-389 | what every delivery does to the whole ledger, by the timestamps of the pending fragments |
| `SdsmBuffer.StaleIff` | src/services/sensor-consumer/consumer.py:351-389 | a fragment is dropped as stale exactly if it is more than 5 ms older than the newest pending one, joins exactly within 5 ms on either side, and closes the group exactly if more than 5 ms newer |
| `SdsmBuffer.AcknowledgedIff` | src/services/sensor-consumer/consumer.py:394-433 | which messages are deleted from the queue |
| `SdsmBuffer.SentMessage` | src/services/sensor-consumer/consumer.py:212-284 | what is sent for a group: time, position, text and capture time of the first of its newest fragments, and the objects of all in order |
| `SdsmBuffer.NothingIsLostSoFar` | src/services/sensor-consumer/consumer.py:343-389 | at any moment every fragment is in exactly one of closed groups, pending, stale and returned, and groups and pending laid end to end are the accepted fragments in arrival order |
| `SdsmBuffer.NothingIsLostOrDoubled` | src/services/sensor-consumer/consumer.py:394-433 | over a whole run with its last flush nothing is pending, and the groups laid end to end are the accepted fragments; the others are stale or returned |
| `SdsmBuffer.ObjectsAreKept` | src/services/sensor-consumer/consumer.py:357-366 | over a whole run the objects of the groups, end to end, are those of the accepted fragments in arrival order |
| `SdsmBuffer.OnlyFailuresLose` | src/services/sensor-consumer/consumer.py:212-225 | over a whole run a group is lost exactly if a fragment was returned or the last flush failed on a group with a position: the buffer is cleared before the broadcast |
| `SdsmBuffer.SpanIsBounded` | src/services/sensor-consumer/consumer.py:351-370 | a group of k fragments spans at most 5(k-1) ms |
| `SdsmBuffer.SpanIsMet` | src/services/sensor-consumer/consumer.py:351-370 | for every k a run meets that bound |
| `SdsmBuffer.NewestIsFirst` | src/services/sensor-consumer/consumer.py:358-370 | a group carries its maximum timestamp and the header of the first fragment that has it |
| `SdsmBuffer.RunIsOrdered` | src/services/sensor-consumer/consumer.py:343-433 | over any run, the last flush included, the groups are chained within 5 ms, and each is more than 5 ms newer than its predecessor unless that one was lost |
| `SdsmBuffer.TimestampsIncrease` | src/services/sensor-consumer/consumer.py:376-433 | where no broadcast before the last flush fails, timestamps increase by more than 5 ms between any two groups, the last one included |
| `SdsmBuffer.FailureBreaksTheOrder` | src/services/sensor-consumer/consumer.py:212-225 | after a failed broadcast timestamps can go back |
| `Ec2Capacity.Provisioner.EnsureEc2Capacity` | src/shared/microservice-infrastructure.ts:1187-1374 | the build, call by call with its tolerated errors, against its function |
| `Ec2Capacity.Provisioner.DeleteEc2Capacity` | src/shared/microservice-infrastructure.ts:1392-1465 | the teardown, call by call, against its function |
| `Ec2Capacity.EnsureKeeps` | src/shared/microservice-infrastructure.ts:1187-1374 | wherever a build stops: attached implies provider implies group implies template, nothing refused, a managed provider only ever asked for on a guarded group; on success all four, as specified, except that an existing provider keeps its settings |
| `Ec2Capacity.BuiltAsAsked` | src/shared/microservice-infrastructure.ts:1224-1347 | what a successful build leaves, setting by setting: minimum and desired size, maximum, protection, image and instance type, and the settings of a new provider |
| `Ec2Capacity.BuildReportsFailures` | src/shared/microservice-infrastructure.ts:1187-1374 | a build that reports success had no failed call |
| `Ec2Capacity.CallIs` | src/shared/microservice-infrastructure.ts:217-245 | what a call does and answers, by how it goes and what AWS makes of it |
| `Ec2Capacity.RefusedIff` | src/shared/microservice-infrastructure.ts:1383-1391 | what AWS refuses in any case, misses, or has already |
| `Ec2Capacity.EnsureSucceedsIff` | src/shared/microservice-infrastructure.ts:1187-1374 | a failure-free build succeeds if and only if the cluster is there and the request names an instance type with an image |
| `Ec2Capacity.ProviderFollowsSpecIff` | src/shared/microservice-infrastructure.ts:1322-1347 | the provider ends up as specified if and only if there was none or one with the same settings |
| `Ec2Capacity.RemoveAllDescends` | src/shared/microservice-infrastructure.ts:1392-1465 | the teardown from any point on |
| `Ec2Capacity.DeleteKeeps` | src/shared/microservice-infrastructure.ts:1392-1465 | wherever a teardown stops the chain holds and no delete was refused; success means nothing is left, and nothing failing means success |
| `Ec2Capacity.DrainedBeforeUnprovided` | src/shared/microservice-infrastructure.ts:1413-1433 | wherever a teardown stops, with the provider gone a group that is left has minimum and desired size 0 and no protection; its maximum stays |
| `Ec2Capacity.DeleteReportsFailures` | src/shared/microservice-infrastructure.ts:1392-1465 | a teardown that reports success had no failed call |
| `Ec2Capacity.HistoryKeeps` | src/shared/microservice-infrastructure.ts:1187-1465 | after any history of failing builds and teardowns the chain holds and no request was ever refused |
| `Ec2Capacity.AnyHistoryCanBeFinished` | src/shared/microservice-infrastructure.ts:1187-1465 | from there a failure-free teardown leaves none and a failure-free build all four |
| `Ec2Capacity.WrongOrderIsRefused` | src/shared/microservice-infrastructure.ts:1383-1391 | deleting the group before a managed provider is refused |
| `Notifications.FindPrefixConflict` | src/shared/storage-infrastructure.ts:121-133 | None exactly when no distinct prefixes are nested, else the first conflicting pair |
| `Notifications.Bucket.EnableObjectNotifications` | src/shared/storage-infrastructure.ts:491-545 | read, swap our rules, write, or refuse; against its function |
| `Notifications.Bucket.DisableObjectNotifications` | src/shared/storage-infrastructure.ts:548-575 | read and write back without our rules, or nothing to do; against its function |
| `Notifications.Bucket.DescribeRules` | src/shared/storage-infrastructure.ts:287-311 | whether rules of ours are there, their prefixes sorted and distinct, and the foreign topic rules |
| `Notifications.SortedDistinctAscends` | src/shared/storage-infrastructure.ts:496-496 | sorting the set of prefixes gives an ascending list |
| `Notifications.AscendingIsUnique` | src/shared/storage-infrastructure.ts:496-496 | which is the only one with these elements |
| `Notifications.ForeignIsUntouched` | src/shared/storage-infrastructure.ts:465-545 | whatever fails, nothing that is not ours changes, and a rejected write changes nothing |
| `Notifications.ReadsBack` | src/shared/storage-infrastructure.ts:287-311 | reading back after enabling gives the sorted distinct prefixes |
| `Notifications.EnableTwice` | src/shared/storage-infrastructure.ts:491-545 | enabling depends on the set of prefixes only, and twice is once |
| `Notifications.DisableUndoesEnable` | src/shared/storage-infrastructure.ts:548-575 | disabling after enabling leaves exactly the foreign configuration, and disabling again changes nothing |
| `Notifications.EachKeyFiresOneRule` | src/shared/storage-infrastructure.ts:520-532 | every key fires exactly one of our rules if it starts with a listed prefix and none otherwise |
| `Notifications.RulesAnnounce` | src/shared/storage-infrastructure.ts:518-545 | what takes effect on the bucket: one rule of ours for each distinct prefix, on the control topic, for s3:ObjectCreated:* only, filtering on that prefix alone, with an id of its own, behind everything else unchanged |
| `Notifications.EnableSucceedsIff` | src/shared/storage-infrastructure.ts:491-545 | enabling succeeds exactly if there is a prefix, none nests, the bucket is there, and read and write work |
| `Notifications.DisableSucceedsIff` | src/shared/storage-infrastructure.ts:548-575 | disabling succeeds exactly if the bucket is gone, holds no rule of ours, or the write works |
| `Notifications.OursIff` | src/shared/storage-infrastructure.ts:79-95 | which rules are ours: the numbered ids and the bare one |
| `Notifications.PrefixOfIs` | src/shared/storage-infrastructure.ts:287-311 | the prefix read from a rule is that of its first prefix filter, empty without one |
| `Notifications.LessIff` | src/shared/storage-infrastructure.ts:496-496 | the order of the prefixes, by the first character in which they differ |
| `Notifications.OwnsIff` | src/shared/storage-infrastructure.ts:79-95 | a deployment takes another's rule for its own if and only if the other's name is its own, or continues it with "-object-created" and then ends or goes on with a hyphen |
| `Presence.NextKeeps` | src/functions/ws-connect/handler.ts:144-170 | every command of every handler keeps: a hash has no socket field or all five of one connect of its client, lookups belong to completed connects, geo and expiry sets are equal; the cleanup counts a client without a score as expired, as the code does |
| `Presence.RunKeeps` | src/functions/ws-connect/handler.ts:144-170 | the same over every interleaving |
| `Presence.OnlyItsOwnEndClears` | src/functions/ws-disconnect/handler.ts:49-66 | a client loses a connection only to that connection's own disconnect or gone event, to a newer connect, or to a sweep that found no score later than its clock |
| `Presence.CleanupSparesIff` | src/functions/expiration-cleanup/handler.ts:173-176 | a cleanup spares a socket if and only if its client has a score and one later than the sweep's clock: a missing score arrives as an empty text and passes the guard |
| `Presence.SecondSweepTakesALiveSocket` | src/functions/expiration-cleanup/handler.ts:173-201 | of two sweeps that listed an expired client, the second takes the live socket and lookup of a reconnect in between away |
| `Presence.OnlyItsConnectSets` | src/functions/ws-connect/handler.ts:149-161 | a client gets a connection only from that connection's own connect, once |
| `Presence.ClosedForever` | src/shared/radius-broadcaster.ts:129-149 | a cleared connection is never seen on any client again |
| `Presence.DisconnectCloses` | src/functions/ws-disconnect/handler.ts:41-69 | a disconnect whose connect had completed clears its connection for good, whatever runs between its commands and afterwards, other disconnects of the same connection included |
| `Presence.DisconnectClearsIff` | src/functions/ws-disconnect/handler.ts:41-69 | an undisturbed disconnect clears its connection if and only if the connect had got as far as its lookup; without one the handler ends in an error |
| `Presence.KeysApart` | src/functions/location-api/handler.ts:39-41 | client keys tell clients apart when app ids have no colon |
| `Presence.KeysCollide` | src/functions/ws-connect/handler.ts:24-26 | with colons, which identity checks allow, two clients can share a hash |
| `Presence.UpdateDuringSweep` | src/functions/expiration-cleanup/handler.ts:163-201 | an update landing between the commands of a cleanup, of a client with an expired score or none, is kept exactly if it lands before the recheck or after all of them, and leaves the two sets unequal exactly between the two removals |
| `Presence.Valkey.Connect` | src/functions/ws-connect/handler.ts:75-170 | the handler: socket fields, then lookup; the socket to close is the stored one, exactly if its three texts are there, not empty, and of another connection |
| `Presence.Valkey.Disconnect` | src/functions/ws-disconnect/handler.ts:41-69 | the handler: compare and delete, lookup removed, 200; without a lookup 500 and nothing changed, since the nil reply arrives as an empty text that does not parse |
| `Presence.Valkey.ClearWsInfo` | src/shared/radius-broadcaster.ts:129-149 | the compare-and-delete script |
| `Presence.Valkey.UpsertClientLocation` | src/functions/location-api/handler.ts:94-132 | the location script: geo, expiry and hash together |
| `Presence.Valkey.CleanupExpiredClient` | src/functions/expiration-cleanup/handler.ts:163-201 | the cleanup of one client, with its recheck, which a missing score does not stop |
| `Presence.Valkey.Sweep` | src/functions/expiration-cleanup/handler.ts:224-283 | the sweep removes exactly the expired clients and keeps equal sets equal |
| `Presence.Valkey.Search` | src/shared/radius-broadcaster.ts:63-84 | the search script: the flat list of the nearby clients that have all three fields |
| `Presence.Valkey.FindNearby` | src/shared/radius-broadcaster.ts:87-127 | the reader recovers exactly those sockets from the flat list |
| `Presence.NearbyAre` | src/shared/radius-broadcaster.ts:63-127 | the sockets found are those of the listed clients whose hash has all three fields, in the order of the list |
| `Presence.ConnectStores` | src/functions/ws-connect/handler.ts:144-161 | a connect stores its five fields, marked connected, and leaves the location |
| `Presence.UsableIff` | src/functions/ws-connect/handler.ts:75-102 | a handler uses a socket exactly if all three texts are there and not empty |
| `Presence.ClearTakes` | src/shared/radius-broadcaster.ts:129-149 | a clear takes the five socket fields exactly for the right connection, and nothing else |
| `Presence.LocationStored` | src/functions/location-api/handler.ts:39-132 | a location update is found where it was put, with every field, and touches nothing else; one off the earth changes nothing |
| `Presence.CleanupRemoves` | src/functions/expiration-cleanup/handler.ts:163-201 | a cleanup removes hash, members and the lookup of the socket, and nothing else |
| `Presence.HashAfterSweep` | src/functions/expiration-cleanup/handler.ts:163-201 | what an update during a cleanup leaves of hash and lookup, by where it lands |
| `Presence.EventsTakeEffect` | src/shared/radius-broadcaster.ts:129-149 | a gone socket is cleared, an update lands, a lookup expires |
| `AdminRouter.Runner.DispatchAt` | src/shared/admin-api/router.ts:35-50 | the closure: it throws at or below the highest position started |
| `AdminRouter.StartedInOrder` | src/shared/admin-api/router.ts:30-53 | whatever middleware do with `next`, positions start once each and in order, the terminal last |
| `AdminRouter.NextThrowsIffCalledBefore` | src/shared/admin-api/router.ts:37-49 | a call of `next` throws if and only if its middleware called it before, else it starts the next position |
| `AdminRouter.AllRun` | src/shared/admin-api/router.ts:30-53 | if every middleware calls `next`, all of them and then the terminal run |
| `AdminRouter.SegmentsAreGood` | src/shared/admin-api/router.ts:55-57 | segments are never empty and contain no slash |
| `AdminRouter.SplitJoin` | src/shared/admin-api/router.ts:55-57 | splitting joined segments gives them back |
| `AdminRouter.CapturesAreDecoded` | src/shared/admin-api/router.ts:138-146 | a captured name carries its decoded segment, unless captured again later |
| `AdminRouter.CapturedNames` | src/shared/admin-api/router.ts:129-146 | the captured names are those of the pattern and no others |
| `AdminRouter.LiteralsFitThemselves` | src/shared/admin-api/router.ts:148-152 | a pattern without captures fits its own path and no other |
| `AdminRouter.FitsIffFilled` | src/shared/admin-api/router.ts:129-152 | a pattern fits exactly the paths got by filling its captures with segments that decode to something |
| `AdminRouter.ChokesIff` | src/shared/admin-api/router.ts:136-140 | a route ends the search exactly at a captured segment that does not decode, if all before it fits |
| `AdminRouter.UpperIs` | src/shared/admin-api/router.ts:72-80 | the registered method is in capitals |
| `AdminRouter.Router.Match` | src/shared/admin-api/router.ts:118-173 | the earliest route that fits path and method, with its captures; wrong method exactly if only a path fits; an undecodable segment ends the search where it is met |
| `AdminRouter.Router.DispatchRequest` | src/shared/admin-api/router.ts:175-196 | with decodable segments: 404 exactly if no path fits, 405 exactly if one fits but with no such method, else the earliest fitting route if there is a caller and 500 if not |

## Left out

- Resp.RenderedParses: covers well-formed replies of RESP2 ("Simple strings", "Integers", "Bulk strings", "Arrays") with integers a JavaScript number holds exactly; errors nested in arrays and lengths below -1 are not well-formed and the code treats them inconsistently.
- Resp.WideTextMisaligns: with multi-byte text in front of other items, where the parser lands on a character that does start a reply the outcome depends on the text that follows and is not characterised; the other landings are this lemma and WideTextOvershoots.
- Resp.ParseResponse: a `$` length below -1 is Malformed in the model where the code slices backwards; number texts other than decimal integers are one opaque value or Malformed; characters are UTF-16 units without surrogate pairs, and a chunk boundary inside a multi-byte character is not modelled.
- ValkeyClient.EveryCommandGetsItsOwnReply: the server is assumed to answer each written command once and in order, with well-formed one-byte answers; every event handler runs to completion before the next event.
- Fleet.EverythingServedIsRecent: one clock for all containers and for both tiers, exact times instead of floating point, and each call at one instant; cache entries that do not decode count as missing; keys are typed, so an intersection named like the lock key does not meet the lock.
- Fleet.FleetQueriesRarely: a container's read and claim are one step, since a call is one instant.
- Fleet.AgreesWithDirectQuery: duplicate rows for one intersection name are not modelled, the map table is a map.
- SensorConvergence.ConvergeKeeps: assumes no desired name is carried by another deployment's queue; what happens otherwise is SensorReconciler.TakenNameBreaksInv, while DeletingSpares needs no such assumption.
- SensorConvergence.TwoCleanRunsSettle: a fixed point is one for runs with the same list; within one run no service finishes draining, that is an event between runs.
- SensorConvergence.CompleteMeansEmpty: a poll whose queue listing fails answers complete and says nothing; the two listings and the description of one poll see the same world, so a service does not go INACTIVE between them.
- SensorOperator.Operator.ListOwnedQueues: reads the tags of all listed queues at one moment; in SensorCloud a whole listing is one read that works or fails, and the topic's subscriptions are one read.
- Naming.QueueNameRoundTrip: lower-casing is ASCII, and the prefix is literal text where the code puts it into a regular expression.
- Subscriptions that await confirmation, the eventual consistency of SQS listings beyond a queue that is already gone, task definition contents, and the texts of the reported steps.
- CriticalSpat.NoPhaseLost: successful cache writes (FailedWriteLosesAPhase shows why) and one handler at a time for a key; the run starts with nothing cached.
- CriticalSpat.NoPhaseLostToClients: why an update is dropped behind the filter (no configuration, no app, no centre) is one flag of the arrival, and the broadcast itself is not modelled.
- RateLimiter.RateIsLimited: one clock for expiry; capture times are exact numbers and arbitrary.
- SdsmBuffer.Consumer.BroadcastPending: finding the nearby clients and sending to them is one step that works or fails, and no clients nearby counts as broadcast; the batch deletion of acknowledged messages is the list of their positions.
- Ec2Capacity.EnsureKeeps: an existing capacity provider keeps its settings (ProviderFollowsSpecIff); an error named like "not found" or "already exists" is taken to mean it, user data and volume settings are left out, and builds and teardowns do not overlap.
- Notifications.Bucket.EnableObjectNotifications: a configuration written by somebody else between the read and the write is overwritten; filter names are Prefix or Suffix without regard to case; sorting compares characters, which differs from UTF-16 order only beyond the basic plane.
- Notifications.Bucket.DescribeRules: the ids of foreign queue and function destinations are passed through, not listed.
- Presence.RunKeeps: the cleanup of one client is one step there, for any client a sweep may have listed; its commands one by one are UpdateDuringSweep, with one update of that client. Closing a socket at the gateway is not an effect on the store; the disconnect it causes is an event of its own.
- Presence.Valkey.Sweep: one app at a time; scanning for the app keys and the counters are left out, and failures of single commands end a handler rather than a step.
- AdminRouter.Router.Match: `decodeURIComponent` is a parameter that may throw; `toUpperCase` is ASCII.
- AdminRouter.StartedInOrder: what middleware return and throw besides `next` itself is not modelled, only which positions start and when `next` throws.
- ASN.1 and JSON decoding, base64, the AWS SDK calls as such, SQL, schemas, the CDK stack, the MCP tools, the console and the latency, maps and system handlers: configuration, input and output, or easy members.
