# Huma, verified

A Dafny model of Huma, a Go client library around RabbitMQ, and proofs of what it keeps:
that its publisher pool neither leaks nor shares channels, that its retry protocol loses no
message, that declared topology survives every reconnect, and that reconnecting and shutting
down hand over to each other properly.

`dafny verify dfyconfig.toml` checks everything.

## How it is built

Every outcome of the broker, the network, a handler or a context is chosen by the
environment: a failed call, a lost reply, a channel dying at any moment.  Where only the order
of steps matters the model is a small-step system with any number of goroutines, one program
counter each; where the code updates fields in loops the model is a class whose methods are
proved against the state before and after.

The classes count every time the environment gets in the way (`Network.World.troubles`): a death,
a refusal, a lost reply, the end of a context, another goroutine.  "Without trouble" below means
that this count has not moved, and says what an operation must do when nothing hinders it; the
rest of each contract holds whatever happens.

| file | part of Huma |
|---|---|
| `Sums`, `Options` | sums over goroutines, copies, calls; optional values |
| `PoolMachine`, `PoolWaiting` | `publisher_pool.go`, every interleaving of get, put and close |
| `Network`, `Pool` | the AMQP library as Huma uses it; the pool as a class |
| `Retry`, `Consumer` | the retry policy; the worker loop that carries it out, as a class |
| `RetryMachine` | the life of one message: copies, attempts, faults |
| `Broker`, `Topology`, `TopologyHistory` | direct routing and dead-lettering; what a queue configuration stands for; declaring, losing and replaying |
| `Sdk` | the SDK object as a class: declare, start, publish, reconnect, close |
| `Lifecycle` | monitor, reconnect and Shutdown goroutines, the wait group and the two `sync.Once` |
| `StartRace` | Start against reconnect |
| `DialRace` | reconnect and its dials against Shutdown |
| `Locks` | the lock operations of every path |
| `Guarantees` | a message, the topology and their breakdowns in one run |

Broker rules are those of AMQP 0-9-1: direct exchanges (section 3.1.3.1) and acknowledgements
(section 3.1.8).  Dead-lettering, queue TTL and publisher confirms are RabbitMQ extensions.

## What turned out

Some plausible statements about the code are false.  Each of them has a proof of exactly when
it holds:

- "A goroutine waits for a publisher channel only while the pool is at its maximum" holds
  only for pools with size equal to maximum in which no channel ever dies
  (`PoolWaiting.WaitingMeansFullExactly`).  A waiting getter is not woken when `put` discards
  a channel.  Waiting with room always goes back to another goroutine that gave up a channel of
  a full pool while the first was on its way into the wait
  (`PoolWaiting.RoomComesFromADecrement`).
- The configured maximum survives the conversion to `int32` exactly up to 2^31 - 1; `NewSDK`
  does not check it (`Pool.MaximumSurvivesExactly`).
- "No message is lost" holds exactly when a retry is never due or the retry route leads back to
  the queue (confirms are given for unroutable messages too), and the message does not look
  like a heartbeat on a queue with DummyMessageEnabled: one that a caller gave the header
  `type: "heartbeat"` is acknowledged there without a handler call
  (`RetryMachine.NoLossExactly`, `RetryMachine.HeartbeatsAreSwallowed`).  Whatever arrives by a
  route Huma declares has such a retry route, over any breakdowns and replays
  (`Guarantees.DeclaredQueuesLoseNothing`).
- A preset negative retry counter buys extra handler calls; the bound counts them
  (`RetryMachine.HandlerCallsAreBounded`).
- Recovery ends in exactly four ways, and one of them is not a wish to stop: an error that the
  new monitor sees before the old reconnect goroutine has cleared `reconnecting`
  (`Lifecycle.RecoveryEndsExactly`, `Lifecycle.WindowIsReachable`).
- "Every stored queue is consumed once while the channel works" holds for a queue exactly when
  one of two things happened and not both: it was stored before the last reconnect, or its own
  Start got its Consume through since (`StartRace.ConsumedOnceExactly`).  It is consumed twice
  when a reconnect came between storing and consuming (`StartRace.DuplicatedExactly`), and not
  at all while its Start has yet to come to it (`StartRace.UnconsumedIsReachable`).  A Start
  that failed is replayed all the same (`StartRace.FailedStartIsReplayed`).
- "Reconnect gets through once the network is back" fails when a Start has stored a queue that
  is neither on the broker nor declared: then no number of rounds gets through
  (`Sdk.SDK.Reconnect`), and they hold `s.mu`, which DeclareQueues would need.
- In a run, the resources are closed only when no counted goroutine (one of the wait group) is
  left, if and only if no Start starts a worker after a Shutdown has found the wait group
  empty (`Lifecycle.ClosesOnNobodyExactly`); a caller is safe who starts nothing once Shutdown
  has been called (`Lifecycle.NoStartAfterShutdownSuffices`).  Publishers are not counted:
  Shutdown waits for none of them (`Lifecycle.PublisherIsClosedUnder`), and what they then
  meet is the closed pool of `PoolMachine`.
- "The locks never block anybody for good" holds with one exception: a goroutine of the wait
  group, a handler say, that calls Shutdown waits for itself, until its own context ends
  (`Locks.StuckExactly`, `Locks.WaitsForItselfForEver`).
- `reconnect` calls `startWithStoreQueuesFlag` with `s.mu` held: it blocks itself for all
  arguments but `store=false, channelLocked=true` (`Locks.ReconnectFlagsExactly`).
- The error text for `DLXTTL` promises at least one millisecond, but a positive duration below
  one passes validation and becomes a TTL of 0 (`Topology.TTLIsPositiveExactly`).  The model
  follows the code.

## Assumptions

- Handlers do not settle the delivery themselves, change its headers or call
  `runtime.Goexit`; logger, metrics and context hooks do not panic.
- Every AMQP call returns, with or without an error.  After `Close`, a connection or channel is
  closed, whatever error it reports, and a connection takes its channels with it.
- A network connection whose handshake fails is closed by the AMQP library.
- All Starts of a queue give it the same MaxRedelivery and DummyMessageEnabled; the declared
  configuration may differ.
- Only Huma declares topology.  The broker may lose any part of it, but then it has lost the
  connection as well; a queue it loses takes its messages with it.

## Model

| member | source | states |
|---|---|---|
| PoolMachine.CounterIsExactAndBounded | publisher_pool.go:70-181 | for any number of goroutines and any interleaving, the counter is the buffered channels plus the lent ones plus those removed and not yet counted out, between 0 and the maximum; the mutex excludes; nothing is sent on the closed Go channel and it is not closed twice |
| PoolMachine.ChannelsAreNeverShared | publisher_pool.go:70-159 | no two goroutines have the same AMQP channel in hand, and none has one that is buffered |
| PoolMachine.ClosedPoolOnlyShrinks | publisher_pool.go:83-104 | after `closed` is set no channel is ever counted again and the counter never rises |
| PoolMachine.TeardownLeavesNothing | publisher_pool.go:135-181 | when the Go channel is closed and nobody is in a method or holds a channel, the counter is 0 and every AMQP channel ever opened is closed |
| PoolMachine.OnlyWaitersBlock | publisher_pool.go:70-181 | a goroutine in a method can act, or waits for a mutex whose holder can act, or waits for a channel to come back |
| PoolMachine.InitialHolds | publisher_pool.go:35-56 | the pool as it is handed out satisfies the invariant of the interleavings |
| PoolMachine.StepKeeps | publisher_pool.go:70-181 | every atomic step of every goroutine, and the death of any channel, keeps mutual exclusion, the exact counter, its bound, the flags, and that a channel has one home |
| PoolWaiting.WaitingMeansFull | publisher_pool.go:106-119 | with size at least the maximum and no deaths, a waiting goroutine never has room in the pool |
| PoolWaiting.DeathLeavesRoom | publisher_pool.go:141-147 | a reachable state with a goroutine waiting although a discarded dead channel has made room |
| PoolWaiting.OverflowLeavesRoom | publisher_pool.go:149-155 | the same without any death, when the maximum exceeds the buffer |
| PoolWaiting.ReachStored | publisher_pool.go:135-159 | from every reachable state with an open pool that has room and a free mutex, putting a live channel back leads to the state with it at the end of the buffer and nothing else changed |
| PoolWaiting.WaitingMeansFullExactly | publisher_pool.go:106-155 | waiting implies a full pool if and only if size equals maximum and no channel dies |
| PoolWaiting.RoomComesFromADecrement | publisher_pool.go:80-155 | for every run: a goroutine that waits with room was committed to waiting when another one counted a dead or superfluous channel out of an open pool at its maximum, and there has been room ever since |
| Pool.PublisherChannelPool.Empty | publisher_pool.go:35-42 | an empty pool, with its maximum as an int32 |
| Pool.PublisherChannelPool.Get | publisher_pool.go:70-120 | a channel nobody else has: the first of the buffer if that is open, else a later one found open, or a new one; never from a closed pool; without trouble it fails only if the pool or its connection is closed or all channels are lent and the maximum is reached; on error nothing is lent, and no channel opened meanwhile is left open |
| Pool.PublisherChannelPool.Round | publisher_pool.go:73-118 | one round of the loop, from its look at the context, does the same, or goes round again with fewer buffered channels |
| Pool.PublisherChannelPool.GrowOrWait | publisher_pool.go:83-118 | the half of a round behind the unlocked look at the counter |
| Pool.PublisherChannelPool.Grow | publisher_pool.go:84-103 | opens and counts one channel below the maximum, or counts none and leaves none open, for a closed pool, a closed connection or trouble |
| Pool.PublisherChannelPool.TakeLive | publisher_pool.go:107-115 | takes one channel out of the buffer, and counts it out if it is dead |
| Pool.PublisherChannelPool.Put | publisher_pool.go:135-159 | without trouble, a live channel goes back into an open pool that has room, and nothing is closed; otherwise it may be given up, and is then closed; it is lent no more and nothing else is affected |
| Pool.PublisherChannelPool.Close | publisher_pool.go:162-181 | afterwards nothing the pool ever opened is open but what is still lent, and the counter is their number; without trouble it closes nothing but the buffered channels |
| Pool.OpenConfirmed | publisher_pool.go:45-51 | a confirm-mode channel, or nothing and no channel left open |
| Pool.NewPublisherChannelPool | publisher_pool.go:28-57 | a pool of `size` confirm channels, always so on an open connection without trouble, or nothing and every channel opened on the way is closed |
| Pool.MaximumSurvivesExactly | publisher_pool.go:40 | the conversion to int32 keeps the maximum if and only if it is at most 2^31 - 1 |
| Retry.RetryCounts | rabbitmqsdk.go:518-562 | over a chain of retries only the counter changes, by one each time: the int64 written is the one read back |
| Retry.CounterIsRead | rabbitmqsdk.go:550-562 | a message without the counter header counts 0, one with an int, int32 or int64 in it counts that, and any other value counts 0 |
| Retry.RetryIsTheSameMessage | rabbitmqsdk.go:518-528 | a retry has every field and every header of the message, and only `x-huma-redelivery-count` is written: an int64, one more than was read |
| Retry.DeliveredAsPublished | rabbitmqsdk.go:522-528 | every field of a delivery is the published one |
| Retry.HeartbeatStays | rabbitmqsdk.go:756-764 | a retry looks like a heartbeat if and only if the original does |
| Consumer.CopyHeaders | rabbitmqsdk.go:518-521 | the copy loop yields an equal table, in whatever order the map is visited |
| Consumer.RetryPublishing | rabbitmqsdk.go:518-528 | the republished message is the original with its counter raised |
| Consumer.RetryOfDelivery | rabbitmqsdk.go:518-529 | what comes back after a retry is the same delivery with the counter header raised |
| Consumer.Worker.HandleDeliveryFailure | rabbitmqsdk.go:513-548 | makes exactly the calls the policy prescribes, and counts a nack unless the settlement failed |
| Consumer.Worker.ProcessDelivery | rabbitmqsdk.go:473-511 | makes exactly the calls the policy prescribes, for success, error and panic; one of acked, nacked and failed settlements grows by one |
| Consumer.Worker.HandlePick | rabbitmqsdk.go:421-468 | a heartbeat is acknowledged and counted nowhere; an ordinary delivery is received and processed |
| Consumer.WhatIsNoHeartbeatIsHandled | rabbitmqsdk.go:433-462 | on every queue, a delivery without the header `type: "heartbeat"` goes to the handler once and is settled once |
| Consumer.HeartbeatsAreNotHandled | rabbitmqsdk.go:756-764 | a delivery with that header is handled like any other on a queue without heartbeats; on a queue with heartbeats its one call is its acknowledgement |
| Consumer.OwnHeartbeatsComeBack | rabbitmqsdk.go:464-468 | a tick sends a heartbeat to the queue itself iff the queue has heartbeats, and what comes back is acknowledged and not handled |
| Consumer.Worker.Consume | rabbitmqsdk.go:412-471 | for any deliveries and any answers: received = acked + nacked + failed settlements at every loop head, and the loop ends only with its context or its channel |
| Consumer.EveryDeliveryIsSettledOnce | rabbitmqsdk.go:473-548 | one handler call and one settlement per delivery, the settlement last; done iff the handler returned nil; republished iff it failed with 0 < MaxRedelivery and the counter below it, then acknowledged iff that was confirmed and requeued otherwise; else requeued for MaxRedelivery 0 and rejected for any other |
| Consumer.OneSettlementPerDelivery | rabbitmqsdk.go:421-548 | over a whole run of the loop there are as many settlements as ordinary deliveries and as handler calls |
| RetryMachine.StepKeeps | rabbitmqsdk.go:473-548 | every step and every fault keeps the invariant of copies and attempts |
| RetryMachine.NeverLost | rabbitmqsdk.go:428-548 | through failures, panics, failed or ambiguous republishes, unapplied settlements and lost connections, a message whose retries are routed and that does not look like a heartbeat has a live copy, or was handled successfully, or was rejected after a failure with its retries used up |
| RetryMachine.UnroutedRetryLoses | rabbitmqsdk.go:529-535 | a retry that is confirmed but routed nowhere loses the message |
| RetryMachine.HeartbeatsAreSwallowed | rabbitmqsdk.go:433-439 | a message with the heartbeat header, on a queue with heartbeats, is acknowledged unhandled and gone |
| RetryMachine.NoLossExactly | rabbitmqsdk.go:433-547 | no loss in any run if and only if the retry route leads back, or no retry is ever due, and the message does not look like a heartbeat on a queue with heartbeats |
| RetryMachine.ZeroRequeuesUntilSuccess | rabbitmqsdk.go:514-547 | with MaxRedelivery 0 the message is never copied or rejected and goes only after a success, or as a heartbeat |
| RetryMachine.CopiesAreConserved | rabbitmqsdk.go:433-547 | live + completed + rejected + swallowed copies = 1 + forks, a fork being an accepted republish whose original was not removed; none is swallowed unless the message looks like a heartbeat; at most 1 + forks dead letters |
| RetryMachine.HandlerCallsAreBounded | rabbitmqsdk.go:473-562 | handler calls on all copies together are at most (N - c0 + 1)(1 + F), F being the faulty attempts, for N > 0 and a first counter c0 < N, else 1 + F |
| RetryMachine.RunsAreFinite | rabbitmqsdk.go:473-562 | the length of a run is bounded by the faulty attempts and the deliveries that reached no handler |
| RetryMachine.FaultFreeFailure | rabbitmqsdk.go:513-562 | a message that always fails, without faults, is handled exactly N - c0 + 1 times and rejected once; one taken for a heartbeat is not handled |
| RetryMachine.NewMessageFails | types.go:139-152 | a message without the counter header that always fails, without faults, is handled exactly N + 1 times for N > 0 and once for N = -1, and rejected once, with its counter at N or untouched |
| RetryMachine.NewMessageIsBounded | types.go:139-152 | with F faulty attempts handlers are called on it at most (N + 1)(1 + F) times, for N = -1 at most 1 + F times |
| RetryMachine.NewMessageCanFail | rabbitmqsdk.go:513-548 | for every N but 0 such a run to the rejection exists |
| RetryMachine.NewMessageCanSucceed | rabbitmqsdk.go:473-548 | and for every n up to N one in which n attempts fail and the next succeeds |
| RetryMachine.DeadLetterIsTheOriginal | rabbitmqsdk.go:518-547 | a rejected copy is the original with its counter at N, or the untouched original when no retry was due |
| Broker.MergeAllContains | rabbitmqsdk.go:219-331 | declarations that met no conflict are all there afterwards, and nothing is gone |
| Broker.RouteExactly | rabbitmqsdk.go:529 | a message reaches a queue through the default exchange by its name, through any other by a binding with its routing key, and not otherwise |
| Broker.DeadLettersAreRouted | rabbitmqsdk.go:263-290 | dead letters go where the two dead-letter arguments of their queue say, with their own routing key if only the exchange is given, and nowhere without it |
| Topology.AllWanted | rabbitmqsdk.go:218-331 | the fragments promised for a list of queues, one each |
| Topology.ValidExactly | rabbitmqsdk.go:766-802 | exactly which configurations are accepted |
| Topology.ProblemIsReal | rabbitmqsdk.go:766-802 | a reported problem is there, and with any of the problems the configuration is refused |
| Topology.DeclaredQueue | rabbitmqsdk.go:229-311 | the declared queue has the configured durable, auto-delete and exclusive flags, and an argument for its type, its dead letters and its consumer timeout exactly as configured, and no other |
| Topology.DeclaredArguments | rabbitmqsdk.go:229-309 | their values: quorum, `<Name>.DLX`, `<Name>.DLQ`, the timeout in whole milliseconds |
| Topology.DeclaredDLQ | rabbitmqsdk.go:241-258 | with EnableDLQ there are `<Name>.DLX`, a durable direct exchange, `<Name>.DLQ`, a durable queue without arguments, and their binding |
| Topology.DeclaredDelay | rabbitmqsdk.go:267-330 | a delay queue has the configured exchange, the binding of the queue to it by its routing key or name, and the durable `<Name>.delay`, with exactly these arguments: DLXTTL in whole milliseconds, that exchange, that key, and the queue type if it is quorum |
| Topology.WantsNoOtherQueue | rabbitmqsdk.go:241-311 | no other queue is asked for |
| Topology.WantsNoOtherExchange | rabbitmqsdk.go:241-283 | no other exchange is asked for |
| Topology.WantsNoOtherBinding | rabbitmqsdk.go:255-330 | no other binding is asked for |
| Topology.PartsAreWanted | rabbitmqsdk.go:241-330 | the parts of one configuration never contradict each other: each of them is in what is promised |
| Topology.DeclaresOnlyWanted | rabbitmqsdk.go:219-331 | wherever declaring stops, it adds no queue that is not wanted |
| Topology.TTLCastIsExact | rabbitmqsdk.go:285 | the int32 conversion of a validated TTL loses nothing |
| Topology.ToInt32 | rabbitmqsdk.go:285 | Go's conversion: the number of the int32 range that differs from the given one by a multiple of 2^32 |
| Topology.TTLIsPositiveExactly | rabbitmqsdk.go:797 | a validated TTL arrives as at least 1 if and only if it is at least a millisecond |
| Topology.DelayedMessageArrives | rabbitmqsdk.go:687-696 | a delayed message goes to the delay queue alone and from there, when it expires, to the queue |
| Topology.RejectedMessageGoesToDLQ | rabbitmqsdk.go:241-265 | a final rejection reaches `<Name>.DLQ` with EnableDLQ, and nothing without |
| Topology.RetryRouteReturns | rabbitmqsdk.go:529 | republishing to where a delivery came from leads back to its queue, for the default exchange and for the delay path |
| TopologyHistory.StepKeeps | rabbitmqsdk.go:208-338 | declaring, breaking and replaying keep that the broker held everything declared when the channel last worked, and holds no more now |
| TopologyHistory.ReplayNeverConflicts | reconnect.go:145-158 | after any history of successful, stopped and replayed declarations and any losses, a replay is never refused |
| TopologyHistory.PromisesAreKept | rabbitmqsdk.go:208-338 | what a successful DeclareQueues promised is there whenever the channel works again |
| TopologyHistory.FreshReplayRebuilds | reconnect.go:145-158 | on an empty broker a replay builds all that was declared and nothing else |
| TopologyHistory.ReplayIsIdempotent | reconnect.go:145-158 | where everything is still there a replay changes nothing, with duplicates and wherever it stops |
| Sdk.SDK.DeclareDLQ | rabbitmqsdk.go:241-258 | adds exactly the dead-letter part, or stops within it; it is refused only if the queue's topology contradicts the broker |
| Sdk.SDK.DeclareDelay | rabbitmqsdk.go:267-295 | adds exactly the delay part, or stops within it; it is refused only if the queue's topology contradicts the broker; what the delay part is: `Topology.DeclaredDelay` |
| Sdk.SDK.MainArgs | rabbitmqsdk.go:229-309 | the argument table of the queue itself |
| Sdk.SDK.DeclareMain | rabbitmqsdk.go:311-330 | the same for the queue and its binding |
| Sdk.SDK.DeclareQueue | rabbitmqsdk.go:219-330 | adds exactly the promised fragment, or a part of it and says why it stopped |
| Sdk.SDK.DeclareEach | rabbitmqsdk.go:219-331 | the loop: the first n queues completely, and of the next one a part |
| Sdk.SDK.DeclareQueuesLocked | rabbitmqsdk.go:218-338 | the broker changes as `Topology.Declares` says, and the queues are remembered iff all were declared and store is set |
| Sdk.SDK.DeclareQueues | rabbitmqsdk.go:208-216 | when it succeeds everything promised is on the broker and nothing is gone |
| Sdk.SDK.SetQos | rabbitmqsdk.go:186-205 | remembered if and only if the broker took it, and it takes it on an open channel without trouble |
| Sdk.StartableExactly | rabbitmqsdk.go:352-362 | exactly which configurations Start accepts |
| Sdk.Consumers | rabbitmqsdk.go:402-406 | the i-th queue is consumed on the given channel by its NumWorkers workers |
| Sdk.SDK.StartWithStoreQueuesFlag | rabbitmqsdk.go:348-410 | all configurations are checked first; with store the queues are remembered if and only if the checks passed, so also when the first Consume fails; the first n queues get one Consume and all their NumWorkers workers, in order; without trouble it fails only for a configuration that cannot be started, a closed channel or a queue the broker does not have |
| Sdk.SDK.ConsumeAll | rabbitmqsdk.go:374-407 | exactly the consumers of the first n queues, each with its NumWorkers workers, have been started on the channel; all of them if the queues are on the broker and the channel is open, but for trouble, and only then |
| Sdk.SDK.PublishAMQP | rabbitmqsdk.go:605-667 | success only after a positive confirm; without trouble it fails only for want of a pool or of a channel in it; on every path the pool has lent what it had lent before; a failure sent the message once or not at all |
| Sdk.SDK.Publish | rabbitmqsdk.go:567-603 | a message that could not be built is not sent |
| Sdk.SDK.BatchPublish | rabbitmqsdk.go:672-682 | failing at n, the messages before n are confirmed in order and none after n was attempted |
| Sdk.Confirmed | rabbitmqsdk.go:676-681 | what a batch has become when all of it was confirmed: message by message, in order, to that exchange with that routing key |
| Sdk.SDK.PublishWithDelayDLXTTL | rabbitmqsdk.go:687-697 | success means a positive confirm for the message at `<queueName>.delay` through the default exchange |
| Sdk.SDK.DropOld | reconnect.go:72-91 | no connection is left open |
| Sdk.SDK.DialAndStore | reconnect.go:93-124 | a new connection and channel are stored, or what was dialled is closed |
| Sdk.SDK.RestoreQos | reconnect.go:126-143 | the last successful SetQos is in force on the new channel, or nothing is left open |
| Sdk.SDK.RestoreTopology | reconnect.go:145-158 | everything declared is on the broker and nothing is gone, or no connection is left open |
| Sdk.SDK.RestorePool | reconnect.go:162-183 | a new pool of the configured size on the new connection, or nothing is left open |
| Sdk.SDK.RestoreConsumers | reconnect.go:189-202 | one Consume per stored queue with all its workers, in order; without trouble it succeeds if the queues are startable and on the broker |
| Sdk.SDK.Attempt | reconnect.go:66-206 | one round of the loop keeps that only `s.conn` is open and the pool belongs to it; when it hands over the session is restored, and without trouble it does, unless declared topology contradicts the broker or a stored queue cannot be started or is nowhere |
| Sdk.SDK.Reconnect | reconnect.go:59-211 | at every exit only `s.conn` may be open and earlier consumers are on closed connections; at the hand-over the session is restored: QoS, topology, pool, consumers with all their workers, and every stored queue is on the broker; with a stored queue that is neither there nor declared no number of rounds gets through; without one, with startable queues, topology that fits the broker and no trouble, the first round does |
| Sdk.SDK.CloseResources | rabbitmqsdk.go:722-743 | no connection and no channel is left open |
| Sdk.NewSDK | rabbitmqsdk.go:28-175 | an SDK with the configured pool sizes or the defaults (5, and twice the size), or nothing and no connection left open; an unacceptable configuration dials nothing, and an acceptable one fails only for trouble |
| Sdk.AcceptableExactly | rabbitmqsdk.go:29-58 | exactly which configurations NewSDK accepts |
| Sdk.NewSDKOn | rabbitmqsdk.go:117-175 | the part after the dial, with its three error paths: nothing stays open on any of them |
| Lifecycle.StepKeeps | reconnect.go:11-211 | every step keeps the counts of batons, of recovering goroutines and of the wait group, and takes the baton away exactly in the four ways |
| Lifecycle.FailedSwapIsInWindow | reconnect.go:50-60 | a swap fails if and only if a reconnect goroutine has handed over and not yet cleared the flag |
| Lifecycle.RecoveryEndsExactly | reconnect.go:11-60 | there is at most one goroutine with the baton, and none if and only if the context ended recovery, both notify channels closed, a nil error came, or an error came in the window |
| Lifecycle.FlagMeansRecovering | reconnect.go:50-60 | `reconnecting` is set if and only if a goroutine is between its swap and its store, and there is at most one |
| Lifecycle.WindowIsReachable | reconnect.go:204-208 | two errors in a row end recovery without any cancellation or graceful close |
| Lifecycle.ListensExactly | reconnect.go:16-35 | in every run a monitor listens to each of its two notify channels exactly until it has seen that one closed, and to one of them at least |
| Lifecycle.ErrorsAreHeardExactly | reconnect.go:20-33 | so an error is received and goes to handleCloseError exactly while its channel has not been closed, whatever became of the other; a closing ends the monitor iff it is the second |
| Lifecycle.ClosedAtMostOnce | rabbitmqsdk.go:722-743 | however many Shutdown calls race, resources are closed at most once |
| Lifecycle.ClosesOnNobodyExactly | rabbitmqsdk.go:699-745 | for every run: whenever the resources are being closed or have been closed no counted goroutine is left, if and only if no worker was started after a Shutdown had seen the wait group empty |
| Lifecycle.NoStartAfterShutdownSuffices | rabbitmqsdk.go:699-745 | it is enough that no worker is started after the first Shutdown call has begun |
| Lifecycle.LateStartIsClosedUnder | rabbitmqsdk.go:398-407 | a late Start does have its worker's resources closed under it |
| Lifecycle.PublisherIsClosedUnder | rabbitmqsdk.go:605-667 | a publisher under way may have its pool closed under it without any late Start |
| StartRace.StepKeeps | rabbitmqsdk.go:364-407 | every step keeps that a stored queue is still to be consumed by at most one Start |
| StartRace.ConsumesExactly | rabbitmqsdk.go:364-407 | for any number of Starts, breakdowns and reconnects in any order: the Consume calls in force for a stored queue are one from the last reconnect if it was stored by then, even by a Start that failed, and one from its own Start if that came after |
| StartRace.ConsumedOnceExactly | rabbitmqsdk.go:364-407 | while the channel works a stored queue is consumed once, never or twice, exactly as one, none or both of the last reconnect and its own Start since then have consumed it |
| StartRace.DuplicatedExactly | reconnect.go:189-202 | a queue whose Start got through is consumed twice if and only if the last reconnect came between storing and consuming it, and once otherwise |
| StartRace.UnconsumedIsReachable | rabbitmqsdk.go:371-382 | between storing and consuming a queue is not consumed |
| StartRace.FailedStartIsReplayed | rabbitmqsdk.go:393-401 | a queue whose Start failed is consumed by the next reconnect |
| StartRace.DuplicateIsReachable | rabbitmqsdk.go:371-382 | that interleaving exists |
| DialRace.StepKeeps | rabbitmqsdk.go:811-833 | every step of reconnect, of its dial and of Shutdown keeps mutual exclusion on both mutexes and that, once Shutdown has interrupted, an open stored connection is about to be looked at |
| DialRace.RunStaysTidy | reconnect.go:59-211 | every step of reconnect keeps that only its own connection, or else the one under s.conn, can be open, and that an open one is the stored one |
| DialRace.OneDialAtATime | reconnect.go:62-98 | at most one goroutine is in the reconnect loop, so at most one dial is under way |
| DialRace.OneConnectionAtMost | reconnect.go:66-206 | there is never more than one open connection |
| DialRace.StoredConnectionIsClosed | rabbitmqsdk.go:699-709 | for any number of reconnects and Shutdowns in any interleaving, when all have finished the stored connection is closed |
| DialRace.NothingEscapes | rabbitmqsdk.go:96-110 | and so is every connection ever dialled |
| DialRace.FailedRoundCloses | reconnect.go:86-158 | closing the old connection, giving up a dialled one and closing a stored one after a failed restore each leave no connection open |
| DialRace.OneMoreDialAtMost | reconnect.go:66-71 | once the context has ended all goroutines together dial at most one more connection, and none if nobody was past the look at it |
| DialRace.NothingIsKeptAfterwards | reconnect.go:103-124 | and `s.conn` is not replaced any more, unless its goroutine had already looked at the context after its dial |
| DialRace.ReconnectSucceeds | reconnect.go:59-211 | a reconnect without trouble ends with the new connection open, stored and kept and the old one closed |
| Locks.SourceIsDisciplined | rabbitmqsdk.go:186-743 | every path takes s.mu before publisherMu before a pool's mutex before connectionState.mu, and gives all back |
| Locks.ReconnectIsNeutral | reconnect.go:62-202 | so does reconnect, for any number of rounds that get any distance |
| Locks.ShutdownIsNeutral | rabbitmqsdk.go:704-743 | so does Shutdown, which waits for the group holding nothing |
| Locks.StuckExactly | rabbitmqsdk.go:186-743 | with any number of goroutines on any of the paths, a reachable state is stuck if and only if a goroutine of the wait group waits for the group and all unfinished ones wait for it |
| Locks.NeverDeadlocked | rabbitmqsdk.go:186-743 | so while nobody calls Shutdown from inside the wait group, and one goroutine is unfinished, one can go on |
| Locks.WaitsForItselfForEver | rabbitmqsdk.go:711-720 | Shutdown called from inside the wait group gets past its wait only by the end of its own context |
| Locks.LocksExclude | types.go:25-54 | an exclusive holder is alone, and a finished goroutine holds nothing |
| Locks.NoDataRace | types.go:15-54 | no two goroutines are ever at an access to the fields of one lock unless both only read |
| Locks.StartUses | rabbitmqsdk.go:364-391 | Start goes to the fields of s.mu once per queue and once more to store |
| Locks.RoundUses | reconnect.go:73-202 | a round of reconnect writes `publisherPool` once, or twice if it publishes a new one, and then consumes each stored queue |
| Locks.ReconnectFlagsExactly | reconnect.go:190 | reconnect can block itself if and only if it stores queues or does not declare the lock taken |
| Guarantees.RunIsRouted | rabbitmqsdk.go:513-548 | while the connection breaks, the broker loses topology and reconnects replay it, every republish of a message that came by an SDK route is routed back to its queue |
| Guarantees.Project | rabbitmqsdk.go:513-548 | so what happens to the message is a run of the retry protocol with a route that leads back |
| Guarantees.DeclaredQueuesLoseNothing | rabbitmqsdk.go:208-548 | over that whole life, a queue DeclareQueues reported as declared loses no message that does not look like a heartbeat to its workers, the copies are conserved and the handler calls bounded |
| Guarantees.DeclaredQueuesAreWired | rabbitmqsdk.go:241-330 | whenever the channel works, its dead letters arrive and its delayed messages come to it by an SDK route |

## Left out

- Pool.PublisherChannelPool.Get: as a class method it runs alone, so its wait ends only with a channel in the buffer or the context; the interleavings are in `PoolMachine`.
- Sdk.SDK.PublishAMQP: a reconnect or Shutdown may close the pool at three points of a publish; the finer interleavings are in `PoolMachine`.
- Sdk.SDK.Reconnect: the number of rounds until the context ends is a parameter, since a method must terminate; the contract holds for every number.
- Sdk.SDK.StartWithStoreQueuesFlag: it runs as one piece; a reconnect in its gaps is the subject of `StartRace`.
- RetryMachine.HandlerCallsAreBounded: needs MaxRedelivery different from 0, where retries are unbounded by design.
- Lifecycle.ClosesOnNobodyExactly: Shutdown is called from outside the wait group there; called from inside it waits for itself (`Locks.WaitsForItselfForEver`).
- Guarantees.DeclaredQueuesLoseNothing: the queue itself is never deleted in these runs; what a broker does with the messages of a queue it loses is outside.
- Locks.NeverDeadlocked: calls to the broker count as returning; a broker that never answers is outside.
- The wire protocol, TCP, TLS, URLs, deadlines and timers: replaced by arbitrary outcomes and by steps that may happen at any time.
- Metrics, tracing and logging: only the received, acked and nacked counters are kept.
- Building messages (`message.go`), JSON, header injection and the connection settings of `NewSDK`: they would add easy members only.
- Delivery limits and length limits of the broker, such as the one quorum queues have.
- NoWait, the effect of auto-delete and exclusive queues, per-message expiration, `x-death` headers and reserved `amq.` names.
- Copies that expire or are purged in the queue, other clients consuming from it or changing its topology, and one exchange and routing key bound to several queues.
- Whether the broker keeps the messages of a queue it keeps over a restart.
