# Verification of psrpc

psrpc builds RPCs and streams over an unordered publish/subscribe bus. What makes it hard is a handful of
lock-protected state machines and one small distributed protocol. This project models them in Dafny and proves what
holds over every interleaving, every run and every input.

The project needs no other file: `dafny verify dfyconfig.toml` checks it.

## How the model is built

The concurrent parts come in three layers.

* **Sections.** The effect of one lock region, one channel operation or one broker call is a function on a datatype
  that holds the fields it may touch (`RedisBus`, `Stream`, `LocalList`, the `Next` functions of `ClaimCore`,
  `ClaimedRpc` and `StreamOpen`).
* **Classes.** The objects of the source are classes with the same fields (`RedisMessageBus`, `StreamBase`,
  `LocalSubList`, `LocalMessageBus`, `ClaimHandlers`, `StreamHandlers`, `Registration`, `Retry`, `Interceptors`). Each
  method is one section, with the loops the source has, and its contract equates the new state with the section function
  or with a step of the protocol.
* **Transition systems.** Any number of goroutines, servers and requests take such steps in any order (`RedisSystem`,
  `StreamEndpoint`, `StreamTheorems`, `ClaimCore`, `ClaimedRpc`, `StreamOpen`, `LocalBus`, `RegistrationRaces`). `Enabled` says when a step
  can be taken, `Next` what it does; a run is a sequence of states with the labels between them. Histories record what
  was pushed, handed over, sent, acked, delivered and run. Theorems speak of every state of every run, and many of them read what
should hold off the labels alone: who is subscribed, which close came first, what a handler returned.

References are indexes into an arena or identifiers. Timeouts and deadlines are steps that may happen at any time. Broker
and bus calls succeed or fail as they like, and a failed call may have taken effect in part. The network of the claim
protocol and of streams loses, delays, duplicates and reorders.

| Modules | Subject |
|---|---|
| `RedisBus`, `RedisMessageBus`, `RedisSystem`, `RedisOwnership`, `RedisOrder`, `RedisReconcile`, `RedisProgress`, `RedisTheorems`, `RedisTorn`, `RedisRoster` | publish queues, the write worker, the reconciler and the subscribers of the Redis bus |
| `Stream`, `StreamBase`, `StreamEndpoint`, `StreamInvariant`, `StreamTheorems`, `StreamProgress`, `StreamRoundTrip`, `StreamCause` | acknowledged streams: one endpoint, and two endpoints joined by a network |
| `ClaimCore`, `ClaimedRpc`, `ClaimHandlers`, `ClaimOrigin`, `ClaimSuccess`, `ClaimDuplicates` | the claim protocol and unary requests over it, where results come from, that requests and opens can succeed, and what duplicate deliveries can do |
| `StreamOpen`, `StreamOpenHistory`, `StreamHandlers` | the open handshake of streams |
| `LocalList`, `LocalDispatch`, `LocalSubList`, `LocalMessageBus`, `LocalFairness`, `LocalBus`, `LocalTheorems`, `LocalDelivery` | the local bus, round-robin dispatch and who gets a message |
| `ChannelNames`, `ChannelFormat`, `ChannelBuffer`, `ChannelTheorems`, `ChannelServer`, `ChannelLiterals` | channel names and handler keys |
| `Selection` | choosing among claims |
| `Interceptors` | chained interceptors |
| `Registration`, `RegistrationRaces` | handlers and groups of handlers, and registrations that overlap |
| `Retry` | retries |

## What the code does not promise

Each of these is a property one might expect, with a concrete run or input that breaks it and the exact condition under
which it holds.

* The queue dispatch of the local bus loops for ever on a list without a live slot whose index is 0
  (`LocalDispatch.HaltsIff`), and a run reaches such a call: the only subscriber of a queue leaves between a publisher's
  lookup and its first dispatch (`LocalTheorems.HangReachable`).
* A `Send` that stops waiting for its ack returns success exactly when its context is done and the stream is not closed
  (`StreamTheorems.GivingUpSucceeds`), which a run reaches (`StreamTheorems.UnackedSuccess`).
* The Redis bus can come to rest with a subscriber whose channel the broker does not deliver, after a broker call that
  reported a failure although it took effect (`RedisTorn.TornReachable`). At rest the broker delivers what is desired
  exactly on the channels whose last broker call that took effect was not reported as failed
  (`RedisTheorems.RestAgreesIff`).
* A stream whose open request was delivered twice can be closed by one goroutine while the other still serves it, and
  then messages that arrive are dropped (`ClaimDuplicates.StreamCanBeLost`). A delivered message is handled exactly when
  some step has registered the stream at that server and no step has closed it there since
  (`StreamOpen.RegistryIff`, `StreamOpen.HandledIff`).
* A request that is delivered twice to a server can run twice there (`ClaimDuplicates.RequestCanRunTwice`).
* A server whose affinity is zero can be selected when the first available one is accepted without a minimum
  (`Selection.WinnersAvailable`). The project's documentation says that such a server is not available (README.md:271-273);
  the model follows the code.
* The chain of server interceptors is their composition only while no interceptor but the last is entered twice
  (`Interceptors.ChainEqualsFold`); one that retries in front of two others skips the second
  (`Interceptors.RetrySkips`).
* Retries are bounded only when MaxAttempts is at least one; zero means no bound (`Retry.BoundedIff`).
* Names with empty parts can coincide (`ChannelTheorems.EmptyPartsCollide`), a client whose id is the name of a method
  shares that method's channel (`ChannelTheorems.ClientMeetsServer`), a queue shares its `Server` name with the topic that
  ends in `Q` (`ChannelServer.QueueIsTopic`), and a service with a dot can share it with another service and a topic
  (`ChannelLiterals.ServicesCollide`, `ChannelLiterals.ServicesApart`).
* Two registrations of one key that both look before either inserts leave the handler count too high
  (`RegistrationRaces.CountTooHigh`). In every run the count is too high by the inserts that met their key, less the
  removals that missed theirs (`RegistrationRaces.Balance`, `RegistrationRaces.CountIff`); it is right while no insert
  has met its key, and only then unless a close was overtaken by another registration (`RegistrationRaces.CountExact`,
  `RegistrationRaces.CountRecovers`).

## Model

| member | source | states |
|---|---|---|
| `RedisMessageBus.MessageBus.PublishLocked` | internal/bus/bus_redis.go:84-91 | the region of Publish that looks up or creates the queue of the channel and pushes the message at its end |
| `RedisMessageBus.MessageBus.PopMessage` | internal/bus/bus_redis.go:252-263 | drain takes the oldest message and leaves the others in order |
| `RedisMessageBus.MessageBus.ExecCheckLocked` | internal/bus/bus_redis.go:298-307 | exec detaches the queue exactly when it is empty, in the same region |
| `RedisMessageBus.MessageBus.PushWriteOp` | internal/bus/bus_redis.go:245-249 | a write op goes to the end of the write queue |
| `RedisMessageBus.MessageBus.NotifyWorker` | internal/bus/bus_redis.go:215-218 | the one-slot wakeup channel holds a token afterwards, whether or not it did before |
| `RedisMessageBus.MessageBus.SubscribeLocked` | internal/bus/bus_redis.go:121-129 | a first subscriber maps an empty list and marks the channel dirty; a later one does neither |
| `RedisMessageBus.MessageBus.AppendLocked` | internal/bus/bus_redis.go:130 | the subscriber joins the end of its list |
| `RedisMessageBus.MessageBus.Index` | internal/bus/bus_redis.go:150 | the first position of the subscriber, or -1 when it is absent |
| `RedisMessageBus.MessageBus.UnsubscribeLocked` | internal/bus/bus_redis.go:135-161 | only the first occurrence of the subscriber leaves, and the channel becomes unmapped and dirty exactly when it was the only one |
| `RedisMessageBus.MessageBus.ReceiveLocked` | internal/bus/bus_redis.go:190-199 | every plain subscriber and one queue subscriber, if there is any, get a message, and the index moves past the chosen one |
| `RedisMessageBus.MessageBus.PlanLocked` | internal/bus/bus_redis.go:318-333 | the dirty channels are partitioned by what is current and what is desired, and none stays dirty |
| `RedisMessageBus.MessageBus.CommitLocked` | internal/bus/bus_redis.go:349-363 | each broker call is recorded when it succeeded and its channels become dirty again when it failed |
| `RedisOwnership.OwnersStep` | internal/bus/bus_redis.go:78-98 | only a Publish that creates a queue adds an owner and only the exec that detaches it removes one; handing over keeps the number |
| `RedisOwnership.OwnedKept` | internal/bus/bus_redis.go:78-307 | every step keeps exactly one owner for each attached queue and none for any other |
| `RedisOrder.SoleOwner` | internal/bus/bus_redis.go:252-307 | two goroutines never work on the same queue or channel |
| `RedisOrder.OrderedKept` | internal/bus/bus_redis.go:252-307 | every step keeps pushed equal to handed over, then the message in hand, then the queue |
| `RedisTheorems.ExactlyOneOwner` | internal/bus/bus_redis.go:78-307 | in every reachable state an attached queue has exactly one owner among enqueuers, queued exec ops and running execs, and a detached queue has none |
| `RedisTheorems.PublishOrder` | internal/bus/bus_redis.go:78-98 | in every reachable state the messages handed to the broker on a channel are a prefix of those pushed, each once and in push order |
| `RedisReconcile.ReconciledKept` | internal/bus/bus_redis.go:110-366 | every step keeps the relation between current, desired, dirty and in flight, including subscribers that change during the unlocked broker calls |
| `RedisReconcile.BrokerKept` | internal/bus/bus_redis.go:336-363 | every step keeps that the broker and the worker's belief disagree about a channel exactly when it is torn |
| `RedisReconcile.RequestKept` | internal/bus/bus_redis.go:207-210 | while some channel is dirty a reconcile op is about to be pushed, queued or running |
| `RedisReconcile.WokenKept` | internal/bus/bus_redis.go:213-227 | while the write queue is not empty there is a token, a draining worker, or somebody about to signal |
| `RedisReconcile.FilledKept` | internal/bus/bus_redis.go:121-161 | a mapped list has a subscriber, except the one being opened under the lock |
| `RedisTheorems.Reconciled` | internal/bus/bus_redis.go:317-366 | in every reachable state a channel neither dirty nor in flight is current exactly when it has a plain or queue subscriber |
| `RedisTheorems.NothingOutOfRange` | internal/bus/bus_redis.go:166-202 | in every reachable state publishing finds its queue and a received message finds a subscriber list that is not empty |
| `RedisTheorems.EveryStep` | internal/bus/bus_redis.go:78-366 | every step of every goroutine keeps the whole invariant |
| `RedisTheorems.StuckIsIdle` | internal/bus/bus_redis.go:213-227 | no goroutine is left behind: where nothing can move, nobody is half-way, the lock is free and no token waits |
| `RedisTheorems.StuckIsDone` | internal/bus/bus_redis.go:78-366 | no lost wakeup: where nothing can move, every published message has been handed over in order, current equals desired, and the broker differs from desired exactly on the torn channels |
| `RedisTheorems.TornReads` | internal/bus/bus_redis.go:335-346 | a channel is torn exactly when the last broker call of the run that took effect on it was reported as failed |
| `RedisTheorems.RestAgreesIff` | internal/bus/bus_redis.go:317-366 | where a run comes to rest, the broker delivers a channel exactly as desired if and only if that last call was not reported as failed |
| `RedisProgress.RunBounded` | internal/bus/bus_redis.go:223-366 | undisturbed, with broker calls that succeed, the bus takes no more steps than the work it starts with |
| `RedisTheorems.DrainsWithin` | internal/bus/bus_redis.go:78-366 | undisturbed, the bus stops within a bound, and then every message is handed over, every subscription recorded, and the broker right exactly on the channels that are not torn |
| `RedisTheorems.NothingTorn` | internal/bus/bus_redis.go:336-346 | when failed broker calls have no effect, no channel is ever torn |
| `RedisTorn.TornReachable` | internal/bus/bus_redis.go:336-363 | a reachable state at rest where a desired channel is not at the broker, after a call that failed although it took effect |
| `RedisOrder.WritesInOrder` | internal/bus/bus_redis.go:245-263 | the write worker takes every write op once, in the order in which they were pushed |
| `RedisRoster.RosterCounts` | internal/bus/bus_redis.go:110-161 | the roster read off the labels holds every subscriber as often as it has subscribed and not unsubscribed |
| `RedisRoster.ListsAreRosters` | internal/bus/bus_redis.go:110-161 | in every run the lists hold the subscribers in the order in which they came, less those that left, up to the one being added |
| `RedisRoster.ListsHoldMembers` | internal/bus/bus_redis.go:110-161 | whenever the lock is free a list holds a subscriber exactly as often as it has subscribed and not unsubscribed |
| `RedisRoster.ReceiversAreMembers` | internal/bus/bus_redis.go:190-199 | a message that arrives goes to every plain subscriber that has subscribed and not unsubscribed, and to one queue subscriber whenever there is one |
| `RedisRoster.IndexMoves` | internal/bus/bus_redis.go:376-382 | only a message that arrives moves the index of a queue that stays mapped |
| `RedisRoster.IndexAdvances` | internal/bus/bus_redis.go:376-382 | a message goes to the subscriber at the index, or the first one past the end, and leaves the index behind it |
| `StreamBase.StreamBase.AddPending` | internal/stream/stream.go:351-358 | a step of Send or HandleStream: the caller is counted, and goes on, exactly when it gets no error; otherwise it returns the error of the stream |
| `StreamBase.StreamBase.SetClosed` | internal/stream/stream.go:360-370 | a step of Close or HandleStream: the first caller tears down; later ones get the error of the stream, which `StreamCause.ErrorIsFirstCause` identifies as the cause of the first close |
| `StreamBase.StreamBase.Recv` | internal/stream/stream.go:217-224 | a step of HandleStream on an open channel: the message is acknowledged exactly when the channel took it, otherwise the consumer is slow |
| `StreamBase.StreamBase.TakeAck` | internal/stream/stream.go:136-143 | a step of Send or HandleStream: the handler closes an ack channel exactly when it took it from the map |
| `StreamBase.StreamBase.RegisterAck` | internal/stream/stream.go:248-250 | a step of Send: its ack channel is registered under its request id |
| `StreamBase.StreamBase.Clean` | internal/stream/stream.go:342-345 | each action of the teardown is a step of Close or HandleStream, and finds its channel open |
| `StreamTheorems.EveryStep` | internal/stream/stream.go:133-370 | every step of Send, Close and HandleStream keeps the invariant of an endpoint |
| `StreamTheorems.TornDownOnce` | internal/stream/stream.go:177-348 | however closes race, adapter close, cancel and close of the receive channel run in this order and at most once, and closed holds exactly when err is set |
| `StreamTheorems.NoPanic` | internal/stream/stream.go:133-224 | nothing is written to the receive channel after it is closed, and no channel is closed and no count released twice |
| `StreamTheorems.DrainedForEver` | internal/stream/stream.go:342-345 | once a local close has waited, the pending count stays zero in every later state |
| `StreamTheorems.SuccessIsAcked` | internal/stream/stream.go:279-291 | Send returns nil only for a request whose ack arrived, unless the context was done before the close |
| `StreamTheorems.GivingUpSucceeds` | internal/stream/stream.go:279-288 | a Send that stops waiting returns nil exactly when its context is done and the stream is not closed; after a close it returns an error |
| `StreamTheorems.UnackedSuccess` | internal/stream/stream.go:279-288 | a run in which the parent context is cancelled and Send returns nil although nothing was received |
| `StreamTheorems.PairEverywhere` | internal/stream/stream.go:133-348 | in every run of two endpoints both keep their invariants and handle nothing that the other did not send |
| `StreamTheorems.SuccessIsReceived` | internal/stream/stream.go:231-291 | end to end: when Send returns nil and no context was cancelled from outside, the peer put exactly that payload into its receive channel |
| `StreamProgress.InternalWorks` | internal/stream/stream.go:133-348 | every step an endpoint takes by itself consumes some of a finite amount of work |
| `StreamProgress.StuckIsDone` | internal/stream/stream.go:133-348 | no deadlock: where an endpoint cannot move, every Send has returned, nobody is counted, and a closed stream is torn down to the end |
| `StreamProgress.FinishesWithin` | internal/stream/stream.go:133-348 | left alone, an endpoint stops within a bound, and then all its calls are finished |
| `StreamRoundTrip.SendCanSucceed` | internal/stream/stream.go:231-291 | from every reachable state with both ends open a message can go through: the peer has it after all it had before, and Send returns nil |
| `StreamRoundTrip.CloseCanReach` | internal/stream/stream.go:312-348 | from every reachable state with both ends open a local close can reach the peer, and both ends then have the caller's cause as their error |
| `StreamCause.ErrorIsFirstCause` | internal/stream/stream.go:360-376 | in every run the error of a stream is the cause of the first close, local or received, and it is closed exactly when there was one |
| `StreamCause.RefusedWithCause` | internal/stream/stream.go:232-234 | a Send on a closed stream is refused with the cause of the first close |
| `StreamCause.SentCause` | internal/stream/stream.go:321-340 | every close message that goes out carries the cause with which the stream was first closed |
| `StreamCause.ClosedByPeer` | internal/stream/stream.go:176-185 | in every run of two endpoints one that was closed by its peer has the error of its peer |
| `StreamCause.ResultIsSettled` | internal/stream/stream.go:231-291 | what Send returned was settled by one of its steps: the error of a closed stream, a malformed message, a failed publication, an ack, or the end of its wait |
| `StreamCause.OutcomeIff` | internal/stream/stream.go:231-291 | a Send has an outcome exactly when some step made it return |
| `StreamCause.NoAckLost` | internal/stream/stream.go:245-281 | while a Send waits its ack channel is registered until an ack has taken it |
| `StreamCause.NoAckLeaks` | internal/stream/stream.go:252-256 | when every Send has returned no ack channel is registered but those the stream began with |
| `StreamCause.EndIff` | internal/stream/stream.go:176-185 | a stream is orphaned exactly when its parent context was cancelled while it was open, and closed by the peer exactly when a close message came while it was open |
| `ClaimCore.EveryStep` | pkg/server/rpc.go:123-253 | every step of every server and client keeps that grants are choices, that winners were granted and that bids come from servers that got the request |
| `ClaimCore.WonStays` | pkg/server/rpc.go:242-248 | a goroutine that has won stays a winner of the same request |
| `ClaimCore.OneWinningServer` | pkg/server/rpc.go:242-248 | two goroutines that win one request run on the same server |
| `ClaimedRpc.Everywhere` | pkg/client/rpc.go:103-169 | the invariant of requests, bids, grants, replies and results holds in every state of every run |
| `ClaimedRpc.AtMostOneServer` | pkg/server/rpc.go:185-198 | at most one server runs the handler for a request, the one the client granted it to, which had bid unless a custom function chose |
| `ClaimedRpc.AtMostOnce` | pkg/server/rpc.go:161-199 | unless the bus delivers the request twice to one server its handler runs at most once, over all servers |
| `ClaimedRpc.NothingSwallowed` | pkg/client/rpc.go:238-242 | while the client is selecting, and so discards replies without an error, none exists on the bus or in its channel |
| `ClaimedRpc.SuccessFromChosen` | pkg/client/rpc.go:150-158 | a success comes from the selected server, which has run the handler |
| `ClaimOrigin.SuccessIsReturned` | pkg/server/rpc.go:196-198 | a success is what the handler returned: some step ran it for this request at this server without an error and with this body |
| `ClaimOrigin.TakenIsGiven` | pkg/client/rpc.go:150-158 | a reply that the caller takes was given by a server for this request; its error reaches the caller as that error, its body as that body |
| `ClaimOrigin.ResultIsSettled` | pkg/client/rpc.go:150-169 | a result is settled by one step and does not change any more |
| `ClaimOrigin.AbandonReports` | pkg/client/rpc.go:202-213 | a client that gives up selecting reports the last error it has read, or else its own |
| `ClaimOrigin.TakenAfterGrant` | pkg/client/rpc.go:140-147 | a reply is taken only after the grant was published; when that fails the request fails |
| `ClaimOrigin.ReadOnce` | pkg/client/rpc.go:150-152 | the client reads each reply that reached it once |
| `ClaimOrigin.OnceEach` | pkg/server/rpc.go:196-198 | a goroutine runs its handler at most once and sends one reply for it at most |
| `ClaimOrigin.WinnersHaveBid` | pkg/server/rpc.go:228-237 | only a goroutine whose bid was published waits for a grant or wins |
| `ClaimOrigin.NoClaimLeaks` | pkg/server/rpc.go:223-227 | a registered claim channel belongs to a goroutine that still waits for its grant |
| `ClaimSuccess.ClaimPhase` | pkg/server/rpc.go:202-253 | a published request can be won by any server |
| `ClaimSuccess.RequestCanSucceed` | pkg/client/rpc.go:79-172 | from every reachable state a new request can be claimed by any server, which runs the handler, and the caller gets what it returned: its result or its error |
| `ClaimSuccess.RejectionCanReach` | pkg/server/rpc.go:177-183 | from every reachable state a request that a server cannot decode can be reported to its caller although nobody bids |
| `ClaimSuccess.StreamCanOpen` | pkg/client/stream.go:35-130 | from every reachable state a new stream can be opened at any server, and a message on it is handled there |
| `ClaimDuplicates.RequestCanRunTwice` | pkg/server/rpc.go:161-199 | from every reachable state a new request that is delivered twice can run twice, at any server |
| `ClaimDuplicates.StreamCanBeLost` | pkg/server/stream.go:199-217 | from every reachable state a new stream whose open request is delivered twice can be registered by two goroutines, closed by one, and lost to the other |
| `ClaimHandlers.RpcHandler.BeginClaim` | pkg/server/rpc.go:217-221 | registering a claim channel is the protocol's step |
| `ClaimHandlers.RpcHandler.EndClaim` | pkg/server/rpc.go:223-252 | the deferred removal after a failed publication or a timeout is the protocol's step |
| `ClaimHandlers.RpcHandler.ReadClaim` | pkg/server/rpc.go:242-248 | the request is claimed exactly when the grant names this server, and then it was granted to it |
| `ClaimHandlers.RpcHandler.RouteClaim` | pkg/server/rpc.go:145-154 | a grant is dropped exactly when no claim channel is registered for it, and otherwise goes to that channel when it has room |
| `ClaimHandlers.RpcClient.Begin` | pkg/client/rpc.go:106-112 | a request starts with empty channels of its own |
| `ClaimHandlers.RpcClient.End` | pkg/client/rpc.go:114-121 | a request that returns leaves both maps, whether its publication failed, selection gave up, a reply was taken or it failed later |
| `ClaimHandlers.RpcClient.DispatchClaim` | pkg/client/client.go:111-121 | a bid reaches the claim channel of its own request exactly while that request is served, and no other |
| `ClaimHandlers.RpcClient.DispatchResponse` | pkg/client/client.go:123-133 | a response reaches the channel of its own request exactly while that request is served and the channel has room |
| `StreamOpen.Everywhere` | pkg/server/stream.go:164-217 | the invariant of claims, registry, acknowledgements and handled messages holds in every state of every run |
| `StreamOpen.OneServer` | pkg/server/stream.go:177-201 | at most one server ever registers a given stream |
| `StreamOpen.ExactlyOneServer` | pkg/client/stream.go:93-129 | when OpenStream succeeds, the chosen server, and no other, has registered the stream |
| `StreamOpen.RegisteredBeforeAck` | pkg/server/stream.go:199-207 | as soon as an acknowledgement of the open request exists, the chosen server has registered the stream |
| `StreamOpen.HandledThere` | pkg/server/stream.go:152-158 | a message on the stream is handled only by the one server that registered it |
| `StreamOpen.DeliveredIsHandled` | pkg/server/stream.go:152-158 | a message that reaches a server which registered the stream and has not closed it is handled, also when requests are delivered twice |
| `StreamOpen.ReadyIsHandled` | pkg/client/stream.go:114-129 | once OpenStream has succeeded, every message on the stream that reaches the chosen server is handled unless that server has closed the stream |
| `StreamOpen.RegistryIff` | pkg/server/stream.go:199-201 | a stream is registered at a server exactly when some step of the run registered it there and no step closed it there since |
| `StreamOpen.HandledIff` | pkg/server/stream.go:151-158 | a delivered message is handled exactly then, or it had been handled before |
| `StreamOpenHistory.SentIff` | pkg/server/stream.go:203-207 | what is on the network was sent by some step, and nothing sent is forgotten |
| `StreamOpenHistory.MarksIff` | pkg/client/stream.go:114-129 | an open request is acknowledged, and OpenStream has succeeded, exactly when a step did so |
| `StreamOpenHistory.HandledRead` | pkg/server/stream.go:151-158 | a message was handled at a server exactly when some step delivered it there while the stream was registered |
| `StreamHandlers.StreamHandler.Register` | pkg/server/stream.go:199-201 | registering a stream is the protocol's step |
| `StreamHandlers.StreamHandler.Deliver` | pkg/server/stream.go:151-158 | a message is handled when its stream is registered here and dropped otherwise |
| `StreamHandlers.StreamHandler.Close` | pkg/server/stream.go:315-319 | closing removes that stream and no other |
| `StreamHandlers.OthersUntouched` | pkg/server/stream.go:199-201 | what a server does to its registry leaves the registries of others alone |
| `LocalSubList.LocalSubList.Create` | internal/bus/bus_local.go:117-156 | the subscriber takes the first empty slot or a new one, the count grows, and the callback captures its slot |
| `LocalSubList.LocalSubList.Vacate` | internal/bus/bus_local.go:90-91 | the slot is emptied and the count shrinks |
| `LocalSubList.LocalSubList.DispatchQueue` | internal/bus/bus_local.go:159-189 | the loop ends at the first live slot in cyclic order, never before a full turn, and leaves the index behind the slot |
| `LocalSubList.LocalSubList.DispatchAll` | internal/bus/bus_local.go:190-200 | every live slot gets the message once, in slot order, and no other |
| `LocalMessageBus.LocalMessageBus.Subscribe` | internal/bus/bus_local.go:76-104 | the subscriber joins the list in the map or a new one that is mapped, and only that list changes |
| `LocalMessageBus.LocalMessageBus.OnUnsubscribe` | internal/bus/bus_local.go:84-100 | the slot is vacated, and the channel is unmapped exactly when the count reaches zero |
| `LocalMessageBus.LocalMessageBus.Lookup` | internal/bus/bus_local.go:48-51 | a publisher gets the plain and the queue list of its channel, which are different lists |
| `LocalDispatch.ChoosesFirstLive` | internal/bus/bus_local.go:173-189 | with `d` empty slots ahead the loop takes `d + 1` iterations and chooses the live slot behind them |
| `LocalDispatch.DispatchChooses` | internal/bus/bus_local.go:173-189 | a loop over a list with a live slot never gives up and chooses the first live slot from its start |
| `LocalDispatch.FirstLiveUnique` | internal/bus/bus_local.go:173-189 | there is one first live slot |
| `LocalDispatch.HaltsIff` | internal/bus/bus_local.go:172-189 | the loop ends exactly when some slot is live or the start index is from 1 to the length of the list |
| `LocalBus.EveryStep` | internal/bus/bus_local.go:40-232 | every step of subscribers, closers and publishers with stale lists keeps the representation invariant |
| `LocalTheorems.ListsRepresent` | internal/bus/bus_local.go:76-104 | in every reachable state a list is in its map exactly when it has a live slot, and its count is the number of live slots |
| `LocalTheorems.SlotsOwned` | internal/bus/bus_local.go:150-153 | a slot holds a subscription exactly while it is open and in the slot its callback captured, so a live slot never holds a closed channel, even for a stale list |
| `LocalTheorems.DispatchEnds` | internal/bus/bus_local.go:159-189 | in every reachable state a queue dispatch ends exactly when its list has a live slot or has dispatched before, and it ends while the list is mapped |
| `LocalTheorems.HangReachable` | internal/bus/bus_local.go:172-189 | a run in which a publisher loops for ever |
| `LocalDelivery.HeldIffJoined` | internal/bus/bus_local.go:76-104 | in every run the subscriptions held in the lists of a channel are exactly those made on it that have not unsubscribed |
| `LocalDelivery.PlainDelivery` | internal/bus/bus_local.go:40-60 | a publisher reaches every plain subscription that was there when it looked up and is there when it dispatches, once each, and no other |
| `LocalDelivery.QueueDelivery` | internal/bus/bus_local.go:40-60 | a publisher reaches one queue subscription of its channel whenever one was there when it looked up and still is |
| `LocalDelivery.ClosedIff` | internal/bus/bus_local.go:227-232 | the message channel of a subscription is closed exactly when a step has closed it, and never twice |
| `LocalDelivery.IndexMoves` | internal/bus/bus_local.go:159-189 | only a queue dispatch moves the index of a list, and a new list starts at its first slot |
| `LocalFairness.CountIsMet` | internal/bus/bus_local.go:172-189 | how often a slot is chosen is how often a counter modulo the number of live slots meets its rank |
| `LocalFairness.Fair` | internal/bus/bus_local.go:172-189 | of `n` dispatches to `m` live slots, holes or not, each live slot gets the quotient, or one more when `m` does not divide `n` |
| `LocalFairness.RedisFair` | internal/bus/bus_redis.go:376-382 | the same for the dense list of the Redis bus |
| `ChannelNames.SanitizeRoundTrip` | pkg/info/channels.go:166-183 | a decoder recovers every rune sequence from its sanitized form |
| `ChannelNames.SanitizeInjective` | pkg/info/channels.go:166-183 | different names stay different |
| `ChannelNames.SanitizeFree` | pkg/info/channels.go:166-183 | a sanitized name contains no delimiter |
| `ChannelBuffer.AppendHex` | pkg/info/channels.go:172-179 | the shift loops append the digits of the rune, padded, from the most significant one |
| `ChannelBuffer.AppendSanitizedChannelPart` | pkg/info/channels.go:166-183 | the loop appends the sanitized name |
| `ChannelBuffer.AppendNames` | pkg/info/channels.go:144-160 | the loop over a string list appends its names with a delimiter behind each one that has output |
| `ChannelBuffer.AppendParts` | pkg/info/channels.go:144-160 | the same for strings and lists of strings |
| `ChannelBuffer.FormatChannel` | pkg/info/channels.go:137-141 | the whole name, from an empty buffer |
| `ChannelFormat.SplitJoin` | pkg/info/channels.go:144-160 | cutting a delimited list gives its tokens back |
| `ChannelFormat.NamesJoin` | pkg/info/channels.go:144-160 | the text of any list of names, empty ones included, is a delimited list of tokens |
| `ChannelTheorems.CanonMeaning` | pkg/info/channels.go:144-160 | the tokens of a topic are its names that are not empty, and an empty token when the last name is empty and another is not |
| `ChannelTheorems.ServerChannelsEqual` | pkg/info/channels.go:58-87 | two Legacy server channels are equal exactly when kinds and tokens agree, for all parts |
| `ChannelTheorems.ServerChannelDetermines` | pkg/info/channels.go:58-87 | without empty parts a Legacy server channel determines service, method, topic list and kind |
| `ChannelTheorems.ClientMeetsServer` | pkg/info/channels.go:36-87 | without empty parts a client's channel is a server channel exactly when the method has the client's id as its name, no topic, and the same service and kind |
| `ChannelTheorems.HandlerKeysEqual` | pkg/info/channels.go:69-71 | two handler keys are equal exactly when their tokens are, for all parts |
| `ChannelTheorems.HandlerKeyDetermines` | pkg/info/channels.go:69-71 | without empty parts a handler key determines method and topic list |
| `ChannelTheorems.EmptyPartsCollide` | pkg/info/channels.go:144-160 | with an empty topic part different requests share a channel |
| `ChannelServer.FormatServerChannel` | pkg/info/channels.go:119-134 | the loop appends the topic names that are not empty and the queue suffix |
| `ChannelServer.ServerNamesEqual` | pkg/info/channels.go:119-134 | within a service two Server names are equal exactly when topics and queue suffixes spell the same list |
| `ChannelServer.QueueIsTopic` | pkg/info/channels.go:130-132 | a queue shares its Server name with the topic that ends in Q |
| `ChannelLiterals.LiteralIff` | pkg/info/channels.go:166-183 | a name is its own sanitized form exactly when it consists of digits, letters and underscores |
| `ChannelLiterals.EscapeSpelling` | pkg/info/channels.go:168-181 | any other rune is spelled u+ and four hexadecimal digits, or U+ and eight, given digit by digit |
| `ChannelLiterals.PlainServerChannel` | pkg/info/channels.go:58-87 | without characters to escape a Legacy server channel is service, method, topic names and kind with bars between them |
| `ChannelLiterals.PlainClientChannel` | pkg/info/channels.go:36-56 | and a client channel is service, client and kind |
| `ChannelLiterals.PlainHandlerKey` | pkg/info/channels.go:69-71 | and a handler key is method and topic names with dots between them |
| `ChannelLiterals.PlainServerName` | pkg/info/channels.go:119-134 | and a Server name is SRV, service, topic names and Q for a queue, with dots between them |
| `ChannelLiterals.ServicesApart` | pkg/info/channels.go:119-134 | for services without a dot Server names are equal exactly when the services are and the suffixes spell the same list |
| `ChannelLiterals.ServicesCollide` | pkg/info/channels.go:119-134 | a service with a dot can share its name with another service and a topic |
| `Selection.SelectServer` | pkg/client/rpc.go:175-245 | the first claim that meets the early-accept rule wins at once; otherwise a selection function gets exactly the eligible claims in the order of their arrival, or the earliest greatest affinity decides, or the exact error is reported; the timer starts at most once, at the first eligible claim not accepted |
| `Selection.LeaderLeads` | pkg/client/rpc.go:217-229 | the running leader is the earliest eligible claim of greatest positive affinity |
| `Selection.StartedOnce` | pkg/client/rpc.go:231-235 | the short-circuit timer starts at most once, at the first eligible claim not accepted at once, whenever there is one |
| `Selection.BestExists` | pkg/client/rpc.go:217-229 | a best claim exists exactly when an eligible one has positive affinity |
| `Selection.BestUnique` | pkg/client/rpc.go:224-229 | the best claim is unique |
| `Selection.FailsIff` | pkg/client/rpc.go:202-213 | selection by affinity fails exactly when no claim is a candidate, and reports no response exactly when nothing but empty responses came |
| `Selection.WinnersAvailable` | pkg/client/rpc.go:217-220 | only servers with positive affinity are selected exactly when the first one is not accepted without a minimum |
| `Selection.SelectsIff` | pkg/client/rpc.go:215-229 | a server is selected exactly when some claim meets the minimum and has a positive affinity, or any affinity when the first one is accepted |
| `Selection.FirstAvailable` | pkg/client/rpc.go:217-220 | when the first available server is accepted the earliest claim that meets the minimum wins, and only it |
| `Selection.MaximumReached` | pkg/client/rpc.go:217-220 | otherwise the earliest claim that meets the minimum and reaches the maximum wins, and only it, if there is one |
| `Selection.GreatestWins` | pkg/client/rpc.go:224-229 | and otherwise the earliest claim of greatest positive affinity that meets the minimum wins, and only it |
| `Selection.ClaimsArrive` | pkg/client/rpc.go:222-223 | the claims collected are those eligible and not accepted, each once, in the order of their arrival |
| `Selection.FailureMeans` | pkg/client/rpc.go:207-212 | a failure reports the last error response, or else how many claims there were, or else that nobody responded |
| `Interceptors.ServerChain.Next` | internal/interceptors/interceptor.go:60-66 | a call of the closure with its counter: result, counter and everything that happens |
| `Interceptors.ChainServerInterceptors` | internal/interceptors/interceptor.go:40-69 | none for the empty list; otherwise the counter chain, which is the composition when interceptors before the last two call their handler at most once |
| `Interceptors.SameCall` | internal/interceptors/interceptor.go:60-66 | where nothing is entered twice, a call through the counter is a call of the fold from that position |
| `Interceptors.CallEnters` | internal/interceptors/interceptor.go:60-66 | the counter never goes back: only the interceptors it passes are entered, each once |
| `Interceptors.ChainEqualsFold` | internal/interceptors/interceptor.go:40-69 | chain and right fold agree in result and log exactly when the fold enters no interceptor but the last twice |
| `Interceptors.OnceComposes` | internal/interceptors/interceptor.go:40-69 | interceptors that call their handler at most once are composed, and the last two may call it more often |
| `Interceptors.RetrySkips` | internal/interceptors/interceptor.go:60-66 | a retrying interceptor in front of two others skips the second one |
| `Interceptors.ChainClientInterceptors` | internal/interceptors/interceptor.go:27-36 | the backward loop goes through stages from the handler on, each made by one interceptor of the next, and returns the first; it is the right fold |
| `Interceptors.RightFoldAppend` | internal/interceptors/interceptor.go:27-36 | chaining two lists in turn is chaining their concatenation |
| `Interceptors.RightFoldOne` | internal/interceptors/interceptor.go:32-34 | one interceptor is applied to the handler |
| `Interceptors.StagesFold` | internal/interceptors/interceptor.go:32-34 | the stages are determined by the interceptors, and the first one is the right fold |
| `Interceptors.ChainRelays` | internal/interceptors/interceptor.go:40-69 | through interceptors that change request and response the caller gets the composition of what they do around the handler, and everything happens in order |
| `Registration.RPCServer.NewHandler` | pkg/server/rpc.go:63-92 | a handler holds a new subscription for requests, and another one for claims exactly when its method uses them; none is left open when one of them fails |
| `Registration.RPCServer.RegisterHandler` | pkg/server/server.go:65-108 | a handler is added with its count and subscriptions, or nothing changes and the error says exactly why |
| `Registration.RPCServer.DeregisterHandler` | pkg/server/server.go:155-164 | the handler, its count and its subscriptions go, and nothing else |
| `Registration.RPCServer.Deregister` | pkg/server/registration.go:56-61 | exactly the members' handlers go |
| `Registration.RPCServer.Register` | pkg/server/registration.go:43-53 | every member is registered exactly when the keys are new and different and the bus refuses none; otherwise handlers, count and open subscriptions are as before, and the error is that of the first member that cannot be registered |
| `Registration.RPCServer.Close` | pkg/server/server.go:176-197 | the first close leaves no handler and no subscription, later ones change nothing |
| `Registration.InsertValid` | pkg/server/server.go:94-105 | registering keeps the count equal to the number of handlers and exactly their subscriptions open |
| `Registration.RemoveValid` | pkg/server/server.go:95-100 | so does deregistering |
| `Registration.Undone` | pkg/server/registration.go:45-51 | rolling back the members registered so far restores handlers, count and open subscriptions |
| `Registration.CheckedTwice` | pkg/server/server.go:80-105 | inserting a key twice after one look breaks the count |
| `Registration.InsertValidIff` | pkg/server/server.go:94-105 | inserting a handler keeps the count right exactly when its key is not taken |
| `RegistrationRaces.Balance` | pkg/server/server.go:80-105 | in every run of overlapping registrations and closes the count exceeds the handlers by the inserts that met their key, less the removals that missed theirs, allowing for goroutines between two steps |
| `RegistrationRaces.CountIff` | pkg/server/server.go:94-105 | where nobody is half-way the count is the number of handlers exactly when those two numbers agree |
| `RegistrationRaces.CountExact` | pkg/server/server.go:94-105 | where nobody is half-way the count is right if no insert met its key, and only then when every removal found its key |
| `RegistrationRaces.CountTooHigh` | pkg/server/server.go:80-105 | a run from the empty server in which two registrations of one key overlap and the count ends too high |
| `RegistrationRaces.CountRecovers` | pkg/server/server.go:95-100 | a run in which an insert met its key and the count is right again, since a close removed the handler that displaced its own |
| `RegistrationRaces.ShutRefuses` | pkg/server/server.go:72-75 | once the server is shut no registration begins any more |
| `Retry.Backoff.Parameters` | pkg/middleware/retry.go:66-78 | the default parameters stop at MaxAttempts or an error that cannot be recovered from, and otherwise add the backoff |
| `Retry.Retry` | pkg/middleware/retry.go:80-112 | the loop ends with the first call that stops it and gives each call its timeout; it returns nil exactly when that call succeeded, the cancellation when its error was to be retried, and else its error; with default parameters and MaxAttempts at least one it ends within MaxAttempts calls |
| `Retry.Schedule` | pkg/middleware/retry.go:66-78 | with the default parameters call `n` gets Timeout plus `n - 1` times Backoff |
| `Retry.SuccessIffLast` | pkg/middleware/retry.go:91-111 | the result is nil exactly when the last call succeeded, and otherwise that call's error or the cancellation |
| `Retry.RetriedByDefault` | pkg/middleware/retry.go:58-78 | by default an error is retried exactly when it carries no code, or says deadline exceeded or unavailable, and MaxAttempts calls have not been made |
| `Retry.RetriedByChoice` | pkg/middleware/retry.go:66-99 | with functions of the caller's own an error is retried exactly when they say so |
| `Retry.ScheduleByChoice` | pkg/middleware/retry.go:97-99 | with parameters of the caller's own every later call gets the timeout they gave after the error before |
| `Retry.StopsIff` | pkg/middleware/retry.go:90-111 | the loop goes on exactly when the call failed, its error is retried and the caller has not given up |
| `Retry.BoundedIff` | pkg/middleware/retry.go:70-72 | a number of calls bounds every run exactly when it is at least MaxAttempts and MaxAttempts is at least one, or no error can be recovered from |

## Left out

- The NATS bus (internal/bus/bus_nats.go), which rests on its client library, and with it the `Local` names and the client's `Server` names.
- Real time: expiries, deadlines, timers and sleeps are steps that may happen at any moment, so nothing is said about how long something takes.
- Floating point: affinities are reals, without NaN; durations in `Retry` are unbounded integers.
- Message contents on the buses, serialization and protobuf: payloads are opaque, and a failure to decode is one of the outcomes.
- Bytes that are not valid UTF-8: channel names are built from runes, and Go reads each such byte as U+FFFD, so names that differ only there coincide.
- Deduplication of queue messages with SetNX, which depends on hashes and lock expiry.
- Blocking on full Go channels: a plain dispatch is one step, a full stream channel reports a slow consumer, and a full claim or response channel only delays the step that writes to it.
- Fresh request, stream and subscription ids, distinct server ids, and one Close for each bus subscription are assumed.
- HandleStream calls on one endpoint run one at a time, as the loops in pkg/client/stream.go and pkg/server/stream.go make them.
- The conversion of an error to code and text in a close message or a reply, and the default cause of a close without one: errors are opaque and arrive as they were sent.
- Stream interceptors, hijacking, and the loss of the error of the close message.
- Multi requests, queue requests and requests that need no claim: they do not use the claim protocol.
- A handler error with an empty text, which the client takes for a success: `ClaimedRpc` treats every reply without text as a success, as the code does.
- The drain of streams when a stream handler closes, and Close waiting for handlers in flight.
- The read worker's retries with growing delay, and the shutdown of the Redis bus.
- The code generator, error tables, logging, metrics and panic recovery, which would only add easy members.
- ClaimedRpc.AtMostOnce: requires that no server got the request twice, which `ClaimDuplicates.RequestCanRunTwice` shows to be needed.
- RedisTheorems.DrainsWithin: bounds the steps taken while no broker call fails, since a failing broker keeps the reconciler busy.
- Registration.RPCServer.Register: is stated without concurrent registrations, which `RegistrationRaces.CountTooHigh` shows to be needed.
- Retry.Retry: follows the loop for at most `limit` calls, since without the default parameters or a positive MaxAttempts it need not end (`Retry.BoundedIff`).
- LocalSubList.LocalSubList.DispatchQueue: requires a list that is empty, has a live slot, or has an index from 1 to its length, because otherwise the loop does not end, as `LocalDispatch.HaltsIff` proves.
- Interceptors.ServerChain.Next: an interceptor decides by its request, its number of calls and everything that happened in this call of the chain, and makes finitely many calls; values captured from elsewhere and calls from several goroutines are not modelled.
