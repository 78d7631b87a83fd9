# Verified model of ghost's stateful protocols

This project models, in Dafny, the four parts of the ghost utility library whose behaviour
depends on state, time or interleaving, and proves what every run of them keeps:

- **cache** (`CacheAside.dfy`, `CacheRuns.dfy`, `CacheTransparency.dfy`, `Stampede.dfy`): `GetOrSet`, cache-aside loading with a
  lock in the cache itself. Any number of callers interleave, one cache operation at a time,
  over a store of expiring entries with a clock. Operations may fail, with or without having
  taken effect; entries may be evicted; callers may be cancelled.
- **rabbitmq** (`Connection.dfy`, `ChannelPool.dfy`, `ClientProtocol.dfy`, `Topology.dfy`,
  `TopologyManager.dfy`, `InterleavedRestores.dfy`, `SharedArguments.dfy`, `DeadLetter.dfy`, `BatchConsumer.dfy`): the
  connection state and its compare-and-swap, the pool of publisher channels, the two together,
  the topology cache
  that is replayed after a reconnect, by one goroutine or by several at once, the dead-letter
  topology, and the batch consumer.
- **kafka** (`KafkaConsumer.dfy`): the poll, retry, dead-letter and commit loop.
- **oauth2** (`OAuthState.dfy`): the in-memory state store with lazy expiry and a background
  sweep, and the manager's login and callback.

Protocols are step functions: `Next(s, e)` is what the code does in state `s` when event `e`
happens, and `e` carries who moves and what the environment answers. A run is any sequence of
events, and the theorems are about all of them. Code that updates objects in place is a class
whose methods are proved against functions of the old state. Clocks, randomness, brokers,
handlers and user functions are parameters: sequences or functions of answers, never restricted
beyond what a theorem states.

## Where the code and its documentation differ

The model follows the code.

- The log at `rabbitmq/consumer.go:219` and `rabbitmq/README.md` say that a message rejected
  after too many retries goes to the parking lot. The dead-letter key the main queue declares is
  the one bound to the retry queue, so it goes there, for every queue name, and nothing ever
  reaches the parking lot (`DeadLettersCycle`, `NoMessageLostOrParked`).
- The state diagram of `rabbitmq/README.md` shows Closing as final. It is final exactly when
  the state was not Connecting at the time of `Close` (`ClosingIsFinalIff`).
- The comment on `GetOrSet` promises that one caller executes fn per key at a time. Under a lock
  that outlives its holders this holds exactly if no fallback meets another call: a waiter whose
  500 ms have run out calls fn beside the holder, or a new holder calls it beside such a waiter
  (`OneAtATimeUnderLockIff`, `FallbackWhileHolderComputes`, `LockedCallDuringFallback`). With
  timely polls it is kept (`OneAtATimeIfTimely`). If a holder's lock is lost the next caller
  enters as well (`LostLockAdmitsSecondHolder`, `ExpiredLockAdmitsSecondHolder`).
- A value equal to the nil sentinel is returned as such by the caller that computed it and as
  the empty string by everyone else (`SentinelIsNotTransparent`).
- The comment at `kafka/consumer.go:14` promises that an offset is committed after successful
  processing and that no message is lost. A fetched record is lost in two ways, and no others
  (`FetchedRecordLostIff`, `NothingLostIff`). It is committed after all its attempts failed, with
  no DLQ or a failed send (`OutageLosesEverything`). Or it came in a fetch that reports an error,
  which the loop skips as a whole, and a later record of its partition is committed
  (`SkippedThenPassed`).
- The comment on `restoreTopology` promises a cache with exactly the same entries. A restore that
  stops at an error drops the rest of the cache for good and is not retried (`RestoreTopology`,
  `Reconnects`). Two restores can overlap (`TwoRestorers`); then the entries are kept but their
  order is not (`CacheConservation`, `InterleavedRestoresSucceed`, `InterleavedRestoresReorder`). A
  queue whose argument map is shared with a durable queue declared later is replayed with other
  arguments (`ReplayedAsDeclaredIff`).
- The comment on `channelPool` calls it safe for concurrent use. A channel returned between drain
  and the end of fill takes a slot that fill needs; fill blocks until someone takes a channel out,
  and the client can stay Connecting for good (`FillBlocksIff`, `StuckForGood`,
  `ReturnDuringRefillSticks`). A drain by the watcher of the other connection takes channels that
  fill has sent, and the client can end Connected with an empty pool (`FillLeavesAllIff`,
  `StarvedUntilLost`, `DrainDuringRefillStarves`).
- `HandleCallback` deletes the state "for one-time use", but looks it up and deletes it in two
  steps: callbacks that overlap can use one save several times (`FedAtMostOnceIff`,
  `ConcurrentCallbacksBothSucceed`).

## Model

| member | source | states |
|---|---|---|
| CacheAside.MutualExclusion | cache/cache_aside.go:43-82 | in every interleaving of any number of callers, at most one caller of a key is between its successful SetNX and its deferred Del, provided the key's lock does not expire and is not evicted under its holder; other keys may fare as they like, and data keys may even collide with lock keys |
| CacheAside.LostLockAdmitsSecondHolder | cache/cache_aside.go:49-57 | the proviso is needed: from any state with a holder, any event that loses its lock lets the next caller that tries in as well |
| StampedeRuns.ExpiredLockAdmitsSecondHolder | cache/cache_aside.go:49-57 | and can fail: from the start on an empty cache, for every request, waiting for the lock TTL leaves two callers inside |
| StampedeRuns.FailedSetNxLeaksLock | cache/cache_aside.go:49-52 | a SetNX that fails after it took effect leaves a lock that nobody holds |
| CacheAside.LockLiveIffHeld | cache/cache_aside.go:49-57 | if no cache operation of the key's callers fails and the lock outlives its holders, the lock entry of the key is live exactly while a caller of it is inside: every way out releases it |
| CacheAside.ComputeOnlyWhileVacant | cache/cache_aside.go:56-82 | in every such run a caller that is computing or about to store finds its key without a live value: after a successful Set no locked call of fn starts until that value is gone |
| Stampede.OneAtATimeUnderLockIff | cache/cache_aside.go:31-104 | when the lock outlives its holders, at most one caller of the key executes fn throughout a run, exactly if no waiter runs out while fn runs and no locked call begins while a fallback call runs |
| Stampede.OneAtATimeIfNobodyRunsOut | cache/cache_aside.go:49-104 | in every run in which the lock outlives its holders and no waiter of the key runs out of time, fn runs one call at a time |
| Stampede.OneAtATimeIfTimely | cache/cache_aside.go:49-104 | in particular if every poll that ends past its deadline finds the leader's value and the loop test follows the poll at once |
| Stampede.OneAtATimeIff | cache/cache_aside.go:31-104 | with no assumption on lock, time or faults: throughout a run at most one caller of the key executes fn, exactly if no caller passes its double check or runs out of its wait while another executes fn |
| Stampede.WaiterKeepsOneCallIff | cache/cache_aside.go:88 | while fn runs, a waiter's turn at its loop test keeps one call at a time exactly if its deadline has not passed |
| StampedeRuns.FallbackWhileHolderComputes | cache/cache_aside.go:84-104 | from the start on an empty cache, for every request whose lock TTL exceeds 500 ms: a run without faults or lock loss in which holder and waiter both execute fn |
| StampedeRuns.LockedCallDuringFallback | cache/cache_aside.go:49-104 | and one in which a third caller's locked call begins while the waiter's fallback call still runs |
| Stampede.CallsAreLockedOrFallback | cache/cache_aside.go:65-104 | in every run the calls of fn are those after a missed double check and those of waiters that ran out, each counted once |
| Stampede.ExactlyOneCallIff | cache/cache_aside.go:49-104 | in a burst on a vacant key whose callers meet no fault and whose value outlives it, fn is called at most 1 + k times, and exactly 1 + k times once all are done, k being the number of waiters that ran out of time; callers of other keys are unrestricted |
| Stampede.TimelyMeansNobodyRunsOut | cache/cache_aside.go:88-101 | k is 0 if every poll that ends past its deadline finds the leader's value and the loop test follows the poll at once |
| Stampede.ExactlyOneCallIfTimely | cache/cache_aside.go:49-104 | such a burst calls fn at most once, and exactly once when all its callers are done |
| CacheTransparency.EncodingRoundTrip | cache/cache_aside.go:74-77 | what is stored for a result reads back as that result exactly when the result is not the sentinel; CacheNil keeps the empty string out of the store, and without it the result is stored as it is |
| CacheTransparency.Transparency | cache/cache_aside.go:35-112 | with no assumption on timing, lock loss, faults or cancellation: if no data key is another's lock key and fn tells the truth about its key, other than the sentinel, or fails, every value returned in any run is the truth and the cache holds nothing but encodings of it |
| CacheTransparency.ErrorsAreReported | cache/cache_aside.go:35-104 | in every run a caller returns an error exactly if its first Get, its SetNX, its Set, its fn call or its context failed, and then that very error; failures of the double check and of polls count as misses |
| CacheTransparency.OutcomeIsTheFirstFixed | cache/cache_aside.go:35-104 | in every run a caller settles on the first outcome an answer fixes, at that moment, and keeps it: a value found by its first Get, its double check or any poll, the value it stored, its fallback value, or the error it met |
| CacheTransparency.StoresWhatFnReturned | cache/cache_aside.go:65-81 | what a caller stores is what fn returned to it |
| CacheTransparency.SentinelIsNotTransparent | cache/cache_aside.go:65-81 | for a value equal to the sentinel two callers of one request disagree |
| CacheTransparency.CollisionIsNotTransparent | cache/cache_aside.go:35-49 | a request for a key that is another's lock key can return the text of the lock, which no fn computed |
| CacheTransparency.LeaderStores | cache/cache_aside.go:35-81 | a lone caller on an empty cache takes the lock for the lock TTL and stores the encoded value for the value's TTL before it releases |
| CacheTransparency.Lifetimes | cache/cache_aside.go:43-81 | the lock lives for LockTTL, or 10 s if that is not positive, and the value for its TTL, or for ever if that is not positive |
| CacheTransparency.CacheNilIsInvisible | cache/cache_aside.go:61-112 | requests that differ only in CacheNil take the same branches, make the same calls and return the same results under every schedule; the caches agree up to reading the sentinel as empty |
| SpinWait.BackoffSchedule | cache/cache_aside.go:86-101 | the doubling, capped backoff in closed form, and that twelve sleeps fit into the wait budget and thirteen do not |
| SpinWait.WaitersAreBounded | cache/cache_aside.go:84-104 | in every interleaving every waiter polls at most 13 times and is in its fallback call only at least 500 ms after it found the lock taken |
| SpinWait.HitEndsTheWait | cache/cache_aside.go:94-96 | in every run a poll that finds the value is the waiter's last: it is done with that value from then on |
| SpinWait.EveryCallEnds | cache/cache_aside.go:32-104 | in every interleaving a caller is done after at most 43 answers it waited for, whatever the others do |
| SpinWait.Wait | cache/cache_aside.go:86-104 | the loop on its own, for every clock whose sleeps last at least as asked: it ends at the first hit or cancellation, runs out only after 500 ms with every poll missed, and after exactly 13 polls if no other time passes |
| ConnectionProtocol.SingleDialer | rabbitmq/client.go:111-290 | before Close, for any number of concurrent and stale connection-lost events, at most one goroutine is dialing, and the state is Connecting exactly while one is |
| ConnectionProtocol.TriggerEndsOnlyIf | rabbitmq/client.go:233-253 | a notification ends only by reading Connecting or Closing, or by winning the swap and starting one dialer |
| ConnectionProtocol.NoLossIgnored | rabbitmq/client.go:233-253 | before Close, whenever a notification has ended someone is dialing |
| ConnectionProtocol.TriggerDecides | rabbitmq/client.go:233-253 | undisturbed, two steps settle it: a dialer from Connected or Disconnected, nothing from Connecting or Closing |
| ConnectionProtocol.Attempt | rabbitmq/client.go:255-290 | undisturbed, a failed attempt returns to its backoff with the state Connecting, a successful one stores Connected and goes on to restore |
| ConnectionProtocol.RestoreIsLast | rabbitmq/client.go:281-287 | the restore is the last thing a dialer does, whatever the state has become by then |
| ConnectionProtocol.CloseStopsBackoff | rabbitmq/client.go:259-269 | a dialer that is backing off at Close stops and leaves the state Disconnected, whether it sees closeChan or the timer first |
| ConnectionProtocol.TwoRestorers | rabbitmq/client.go:200-290 | only dialing is exclusive: a run from NewClient in which two goroutines restore the topology at once |
| ConnectionProtocol.ClosingIsFinalIff | rabbitmq/client.go:233-328 | after Close the state stays Closing in every continuation exactly when it was not Connecting when Close was called |
| ReconnectBackoff.WaitIsIdeal | rabbitmq/client.go:254-280 | with both intervals below 2^62 ns every wait is positive and equals min(initial * 2^k, max) after k failures, initial when k is 0 |
| ReconnectBackoff.WaitIsIdealIff | rabbitmq/client.go:254-280 | in wrapping 64-bit arithmetic that formula holds for every k exactly when both intervals are below 2^62 ns |
| PoolOwnership.PoolOwnershipRun | rabbitmq/pool.go:31-106 | in every interleaving of publishers, fills and drains before close, with channels dying at any moment: the pool never exceeds its size or repeats a channel, and every channel made is in exactly one of pool, one holder, or dropped |
| PoolOwnership.NoLeak | rabbitmq/producer.go:71-92 | once all actors are idle every open channel is back in the pool |
| PoolOwnership.PublishEnds | rabbitmq/producer.go:71-92 | in every interleaving PublishMessage is over after at most five answers it waited for, having read the state at most twice |
| PoolOwnership.PublishFailsOnlyIf | rabbitmq/producer.go:71-92 | it ends without a channel only if cancelled, not connected at both reads, or handed a dead channel |
| PoolOwnership.LendsOnlyOpen | rabbitmq/pool.go:60-74 | what get hands out is the head of the pool and open at that moment |
| PoolOwnership.MoveIsProgress | rabbitmq/pool.go:31-106 | every answer waited for brings a publish or a fill strictly nearer to its end, and nothing else moves it |
| PoolOwnership.FillEndsOnlyIf | rabbitmq/pool.go:31-57 | a fill ends only with all its channels sent or at a failed open or confirm |
| PoolOwnership.FillBlocksIff | rabbitmq/pool.go:31-57 | in every interleaving, a fill that found the pool empty is blocked at its send exactly when its own sends plus the channels others put in less those taken out have used up the size |
| PoolOwnership.FillLeavesAllIff | rabbitmq/pool.go:31-57 | a fill that has sent all its channels leaves size + k of them pooled, k <= 0 being what others put in less what they took out: a full pool exactly if k is 0 |
| PoolOwnership.BlockedStepIff | rabbitmq/pool.go:54 | an event unblocks a blocked fill exactly if it takes a channel out |
| PoolOwnership.BlockedUntilSomeoneTakes | rabbitmq/pool.go:54 | once blocked it stays blocked until someone borrows or drains |
| ClientProtocol.SingleFiller | rabbitmq/client.go:111-290 | before Close, in every interleaving of dialers, watchers and publishers, at most one goroutine fills the pool, and the state is Connecting while one does |
| ClientProtocol.ConnectedOnlyIfFilled | rabbitmq/client.go:111-150 | in every run the state becomes Connected only through a goroutine whose fill sent all its channels in that very connect |
| ClientProtocol.FilledConnects | rabbitmq/client.go:133-150 | a connect whose fill succeeded cannot fail any more |
| ClientProtocol.DrainsBeforeTrigger | rabbitmq/client.go:198-201 | a watcher triggers a reconnect only when its own drain is over |
| ClientProtocol.PoolGuards | rabbitmq/client.go:292-300 | publishers pass the state check only while Connected and retry only when not, and only dialers and watchers fill or drain |
| ClientProtocol.StuckForGood | rabbitmq/pool.go:54 | if a fill is blocked with nobody draining or past the state check, the client stays Connecting in every continuation without Close and without another drain |
| ClientRuns.ReturnDuringRefillSticks | rabbitmq/pool.go:77-106 | and gets there from NewClient: a channel borrowed before the consumer connection is lost is returned during the refill |
| ClientProtocol.StarvedUntilLost | rabbitmq/client.go:292-300 | a client that is Connected with no channel pooled or held stays so until a connection is lost or it is closed |
| ClientRuns.DrainDuringRefillStarves | rabbitmq/client.go:185-245 | and gets there from NewClient: both connections are lost and the second watcher drains what the refill has sent |
| RabbitClient.Client.Drain | rabbitmq/pool.go:95-106 | leaves an empty pool, with exactly the pooled channels closed |
| RabbitClient.Client.Fill | rabbitmq/pool.go:31-57 | on an empty pool never blocks, succeeds exactly when every channel opens and confirms, and leaves distinct open channels of the given connection, size of them exactly on success |
| RabbitClient.Client.Publish | rabbitmq/producer.go:71-92 | alone, PublishMessage moves the channel it borrowed to the back of the pool if it is still open, drops a dead one, and changes nothing else |
| RabbitClient.Client.ReturnCh | rabbitmq/pool.go:77-92 | puts an open channel back if there is room and closes it otherwise |
| RabbitClient.Client.Connect | rabbitmq/client.go:111-150 | success leaves exactly size open channels, all on a publisher connection dialed in this call, and a consumer connection likewise; a failed dial leaves the pool alone; after a failed fill every channel left in the pool is closed, and no failed connect leaves a connection or a channel of its own open |
| RabbitClient.Client.ReconnectWithBackoff | rabbitmq/client.go:254-290 | any number of failed connects and then a success leave the pool ready on a connection dialed in this call; the waits requested are those after 0, 1, 2, ... failures; the loop stops at the first success or at close |
| BrokerTopology.BrokerHoldsWhatWasGiven | rabbitmq/topology.go:20-118 | a declaration reaches the broker field by field as configured; on a quorum client every durable queue, arguments given or not, is asked for as a quorum queue, and every other argument is the caller's |
| BrokerTopology.CachedIsFixedPoint | rabbitmq/topology.go:27-52 | a cached queue is redeclared with the attributes of its first declaration, and caching it again changes nothing |
| BrokerTopology.ReplayRestores | rabbitmq/topology.go:122-163 | for any accepted history and any broker that lost part of the result, replaying exchanges, then queues, then bindings is accepted and rebuilds all the history declared |
| BrokerTopology.ReplayRestoresAll | rabbitmq/topology.go:122-163 | if the history began on a broker with only built-in exchanges, the replay yields the same broker to the letter |
| BrokerTopology.ReplayAcceptedIff | rabbitmq/topology.go:139-155 | the replay is accepted exactly when every binding's endpoints are declared by the history or still there |
| SharedArguments.ReplayedAsDeclaredIff | rabbitmq/topology.go:27-52 | with argument maps that configurations may share: a cached queue is replayed with the attributes it was declared with, exactly unless it is transient, its map had no quorum type at that time, and a durable queue declared later uses the same map |
| SharedArguments.SpoiledIsRefused | rabbitmq/topology.go:27-52 | a broker that still has the queue refuses its replay exactly in that case |
| SharedArguments.ReplayWritesNothing | rabbitmq/topology.go:27-52 | the replay itself changes no map |
| SharedArguments.UnsharedIsCached | rabbitmq/topology.go:27-52 | if no map is shared, the cache holds what the rest of the model says it holds |
| TopologyManager.Manager.DeclareExchange | rabbitmq/topology.go:59-86 | caches the exchange exactly if the channel opens and the broker accepts it |
| TopologyManager.Manager.DeclareQueue | rabbitmq/topology.go:20-56 | likewise for a queue, cached with the queue type written into the caller's own arguments if it gave any |
| TopologyManager.Manager.BindQueue | rabbitmq/topology.go:89-118 | likewise for a binding, which needs both endpoints |
| TopologyManager.Manager.Snapshot | rabbitmq/topology.go:125-135 | copies the three slices and truncates them in place; later appends into the kept backing arrays do not reach the copies |
| TopologyManager.Manager.DeclareAll | rabbitmq/topology.go:20-118 | the cache after declarations in any order is their grouping, and the broker is theirs in order |
| TopologyManager.Manager.RestoreTopology | rabbitmq/topology.go:122-163 | leaves the flattened cache as its own prefix of the length redeclared, whole exactly on success, with the broker having accepted just that prefix, and stops only at a failure |
| TopologyManager.Manager.RestoreAfterLoss | rabbitmq/topology.go:122-163 | end to end: on a broker that lost any part of the topology a working restore succeeds, rebuilds it to the letter and keeps the cache |
| TopologyManager.Manager.Reconnects | rabbitmq/topology.go:122-163 | over any number of reconnects the cache stays a prefix of what it was, and is whole exactly if they all succeeded |
| InterleavedRestores.CacheConservation | rabbitmq/topology.go:122-163 | any number of restores and declarations at once, with failures and a broker that changes at will: the cache and what the goroutines have in hand, or had when they failed, are exactly what was cached at first and declared since |
| InterleavedRestores.CacheIsCompleteIff | rabbitmq/topology.go:122-163 | the cache is a rearrangement of all that, exactly when nobody is under way or failed with something in hand |
| InterleavedRestores.RestoreEnds | rabbitmq/topology.go:139-155 | a restore of n entries is through, or has given up at its first failure, after 2n + 1 of its own steps |
| InterleavedRestores.StepIsProgress | rabbitmq/topology.go:139-155 | a restore gives up at a step exactly if its next declaration is unanswered or refused, and every other step brings it nearer to its end |
| InterleavedRestores.InterleavedRestoresSucceed | rabbitmq/topology.go:122-163 | on a broker that lost any part of the topology and then stays up, interleaved restores never fail, rebuild it to the letter and leave a rearrangement of the cache from which the same holds again |
| InterleavedRestores.InterleavedRestoresReorder | rabbitmq/topology.go:122-163 | two that overlap can swap two exchanges in the cache |
| DeadLetterRouting.SetupAttributes | rabbitmq/topology.go:166-248 | what the two setup calls leave on the broker, to the letter: kinds, durability, TTL, dead-letter arguments and bindings |
| DeadLetterRouting.RetryOnlyIff | rabbitmq/topology.go:166-248 | with several main queues on one dead-letter exchange, what dies in one goes to its own retry queue only, exactly when no sibling's binding catches it |
| DeadLetterRouting.WildcardSiblingsCatch | rabbitmq/topology.go:166-248 | and it can fail: a sibling named with a hash, or with a star if there are no dots, catches the dead letters of others |
| TopicMatching.HashMatches | rabbitmq/topology.go:188-214 | a hash in a binding key stands for any number of words |
| TopicMatching.StarMatches | rabbitmq/topology.go:188-214 | a star stands for exactly one word |
| DeadLetterRouting.DeadLettersCycle | rabbitmq/topology.go:166-248 | alone on its dead-letter exchange, whatever its name: dead letters of the main queue go to the retry queue only, expired ones back to the main queue only, never to the parking lot |
| DeadLetterRouting.SharedDeadLettersCycle | rabbitmq/topology.go:166-248 | any number of wildcard-free main queues may share the exchange and keep that |
| DeadLetterRouting.SetupMakesCycle | rabbitmq/topology.go:166-248 | the declarations of the two setup calls, accepted by a broker with nothing bound to the exchange, establish it |
| DeadLetterSetup.SetupDeadLetters | rabbitmq/topology.go:166-248 | declares in order and stops at the first failure, with cache and broker holding exactly the part before it; success on an exchange with no other binding leaves dead letters cycling between main and retry queue |
| MessageLifecycle.NoMessageLostOrParked | rabbitmq/consumer.go:196-243 | under manual acknowledgement, in every run exactly the published messages are there, each in exactly one of main queue, consumer, retry queue and acknowledged, and never in the parking lot |
| MessageLifecycle.FollowsItsJourney | rabbitmq/consumer.go:196-243 | with all copies, queues and routes the broker takes each message exactly along a five-stage life cycle: queued, delivered, waiting for its retry, queued again, finished |
| MessageLifecycle.AckedIffHandled | rabbitmq/consumer.go:196-243 | in every run a message is acknowledged exactly if a delivery of it at the consumer decoded and its handler succeeded |
| MessageLifecycle.UnhandledGoesTo | rabbitmq/consumer.go:196-232 | a delivery that fails goes back to the main queue if it decodes and has retries left, and to the retry queue otherwise |
| BatchValues.Conservation | rabbitmq/consumer.go:324-415 | every delivery received is acked, nacked or rejected exactly once or is in the buffer |
| BatchConsumer.Consumer.Flush | rabbitmq/consumer.go:329-356 | one handler call and one settlement per buffered delivery, all acks or all nacks, then empty buffers; nothing on an empty buffer |
| BatchConsumer.Consumer.Accept | rabbitmq/consumer.go:393-406 | a poison pill is rejected, anything else is appended to both buffers |
| BatchConsumer.Consumer.Turn | rabbitmq/consumer.go:358-414 | every event keeps the buffers aligned and below max(1, batchSize); a delivery hands the batch over exactly if it fills it, and any other event exactly if there is something to hand over |
| BatchConsumer.Consumer.Run | rabbitmq/consumer.go:324-415 | over every sequence of events: conservation, batches that concatenate to the decodable deliveries in order, each full exactly if a delivery ended it and otherwise ended by a timer, cancellation or close that holds nothing back, settlements that match the handler's answers, and empty buffers at every exit |
| KafkaConsumer.NewConsumer | kafka/consumer.go:35-55 | the last positive retry and backoff settings win over the defaults; the DLQ is that of the last option, set or not |
| KafkaConsumer.ProcessRecord | kafka/consumer.go:80-148 | a record stays uncommitted exactly if the context is done at the start or cuts one of its backoffs short; otherwise its calls follow one another until one succeeds or MaxRetries + 1 have failed, and then it is offered to the DLQ if there is one |
| KafkaConsumer.ProcessRecords | kafka/consumer.go:80-148 | commits stay a prefix of the records offered, all of them short of cancellation |
| KafkaConsumer.Start | kafka/consumer.go:59-150 | in every run the loop polls only while the context is not done, and the committed records are a prefix of those offered, and of those fetched if no fetch with errors carries records |
| KafkaConsumer.NothingSkippedIff | kafka/consumer.go:73-78 | the loop offers everything fetched exactly when no fetch that reports an error carries records |
| KafkaConsumer.FailedRecordBackoff | kafka/consumer.go:87-95 | a fully failed record requested RetryBackoff * MaxRetries * (MaxRetries + 1) / 2 of backoff |
| KafkaConsumer.FetchedRecordLostIff | kafka/consumer.go:68-146 | with offsets that grow along each partition, a fetched record is committed past without having been handled or put into the DLQ, exactly if it was committed after all MaxRetries + 1 attempts failed with no DLQ or a failed send, or came in a fetch that reports an error and a later record of its partition was committed |
| KafkaConsumer.NothingLostIff | kafka/consumer.go:68-146 | in every run nothing fetched is lost exactly if neither happens to any record |
| KafkaConsumer.SkippedThenPassed | kafka/consumer.go:73-146 | a run of the loop that loses a record although handler and DLQ never fail: its fetch reports an error and the next record of the partition is committed |
| KafkaConsumer.OutageLosesEverything | kafka/consumer.go:80-148 | while the handler fails and no DLQ takes anything, every record offered is committed and lost |
| KafkaConsumer.WorkingDlqLosesNothing | kafka/consumer.go:68-148 | in every run in which no fetch with errors carries records, a DLQ whose sends succeed, or a handler that does not fail, loses nothing fetched |
| StateStore.SweepIsInvisible | oauth2/state.go:51-127 | for every sequence of saves, lookups, deletes and sweeps under a clock that does not go back, lookups give the same data or the same error class with and without the sweeps |
| OAuthManager.InMemoryStorage.GetStateData | oauth2/state.go:66-82 | finds an entry not yet expired, and deletes an expired one |
| OAuthManager.InMemoryStorage.RemoveExpired | oauth2/state.go:117-127 | whatever the iteration order, leaves exactly the entries not yet expired |
| OAuthManager.InMemoryStorage.Serve | oauth2/state.go:51-127 | the storage with its sweeps answers every sequence of saves, lookups and deletes under a clock that does not go back as a store that is never swept would |
| OAuthManager.Manager.GetAuthUrl | oauth2/manager.go:119-151 | saves the state until now plus the timeout, or nothing for an unknown provider |
| OAuthManager.Manager.HandleCallback | oauth2/manager.go:156-190 | the provider gets the saved data exactly if it is known and the state is found; the state is then gone on every way out; each failure has its own error class |
| OAuthManager.Manager.LoginThenReplay | oauth2/manager.go:119-190 | a callback reaches the provider with the nonce and verifier saved at login exactly within the timeout, and a replay never does |
| OneTimeUse.StoreFollowsStorage | oauth2/state.go:51-127 | each step of the interleaving changes the store, and finds in it, exactly what the storage's own operations do |
| OneTimeUse.StaysAvailable | oauth2/state.go:51-127 | over all interleavings a saved state stays to be found until it is used, saved again or expired |
| OneTimeUse.GoneForGood | oauth2/manager.go:165-178 | over all interleavings: once a callback that found a state has returned, no later lookup of it succeeds unless it is saved again |
| OneTimeUse.FedAtMostOnceIff | oauth2/manager.go:165-178 | in a run each save feeds at most one provider call exactly when no lookup finds a save that a callback still in flight has found |
| OneTimeUse.SequentialFeedsAtMostOnce | oauth2/manager.go:156-190 | in sequential runs each save feeds at most one provider call |
| OneTimeUse.ConcurrentCallbacksBothSucceed | oauth2/manager.go:165-178 | from the empty store: after one login, two callbacks that both look its state up in time before either returns reach the provider with the same save |

## Left out

- Redis, AMQP, Kafka and OIDC client libraries: only the contracts the code relies on are modelled; a Redis `Set` with go-redis's keep-TTL value is treated as one without expiry.
- `channelPool.close` racing with returns or fills, and the client after `Close` beyond its state word: the code does not synchronise them.
- `StartConsumer` with `AutoReconnect`, `waitForReconnect`, automatic acknowledgement, `PublishBatch` and the message properties set by `PublishMessage`: settled by reading one branch.
- Server-named queues, deletions, exclusive and auto-delete lifetimes, delivery and length limits, and the contents of `x-death` (the retry count is an arbitrary number).
- Fanout, direct and headers exchanges: dead letters here travel through a topic exchange and the default exchange only.
- TopologyManager.Manager.DeclareQueue: works on argument values; that one map may be shared by several configurations is the subject of `SharedArguments`, and a caller that changes a map after declaring it is not modelled.
- TopologyManager.Manager.RestoreTopology: runs alone; several at once are the subject of `InterleavedRestores`.
- Settlements and commits that fail on the wire: one counts as made when the code makes it.
- RabbitClient.Client.Publish: runs alone on a pool with a channel ready; the state check, the one retry, waiting and cancellation are in `PoolOwnership` and `ClientProtocol`.
- The db, i18n, cryptoutil and logger modules, and the option building, validation and HTTP handlers of kafka and oauth2: each would only add easy members.
- RabbitClient.Client.ReconnectWithBackoff: the goroutine runs against a finite sequence of answers; that it keeps trying for ever is not stated.
