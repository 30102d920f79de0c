# Verified model of the vinculum MQTT client

The repository is the client side of MQTT 5.0: a router that hands each inbound
message to its recipients, a client that owns the connection's life, a WebSocket
adapter, and a publisher and a subscriber whose encodings have to agree. This
project models those parts and proves what they promise, one module per part:

- `Recipients`, `GoSlices`, `Router`: the copy-on-write router. `Router` has the
  methods over Go slices (real arrays with length and capacity), run by one
  goroutine while the handlers they call do what they like to the router.
  `RouterMachine` is the same router under any interleaving, over an explicit
  memory of backing arrays; `RouterRuns` says what follows for whole executions.
  `RouterCalls` puts that router behind its read-write lock, with handlers that
  call the router and wait for it; `RouterProgress` shows that they cannot
  deadlock it, and would if Route kept its read lock while it dispatches, and
  `RouterTermination` that every schedule brings what has begun to its end.
- `Limiter`, `Lifecycle`, `LifecycleRuns`, `Callbacks`, `AtomicRuns`, `Client`: the
  reconnect limiter and the client's life. `Lifecycle` interleaves Start, Stop,
  OnEvent and the connection callbacks statement by statement, and `LifecycleRuns`
  says what follows. `Callbacks` shows what a whole callback comes to when nothing
  interferes: the methods in `Client` are proved to do just that, and `AtomicRuns`
  takes callbacks and Stops as single events. `Sessions` runs the lifecycle and the
  router side by side, with the connections of one manager as sessions.
- `WebSocket`: framing and reassembly.
- `Topics`, `UserProperties`, `Carrier`, `Publisher`, `Subscriber`: patterns and
  broker filters, user properties, and the two ends of the transport.
- `Delivery`: the parts put together, from packet to bus and from publisher to
  subscriber.

An execution is any sequence of actions; an action that is not enabled does
nothing. So a statement about every action sequence is one about every
interleaving of any number of goroutines.

External code is a parameter: `topicmatch.Matches`, `topicmatch.Extract`, the wire
formats and the topic functions are arbitrary functions. Only the agreement with
the broker fixes a matching rule, section 4.7 of MQTT Version 5.0 with `+name`
read as `+`. Of the connection manager it is assumed that it runs its own
callbacks one at a time; of the propagator, that it sets trace keys only; of the
sockets, that a reader reports the end of a message only when it is at its end.

Some promises hold only under a condition, or not at all, and the model says so:

- Aliases resolve within their session, whatever packets come, exactly when the
  table is reset between the resolves of different sessions
  (`AliasesStayFreshExactlyWhen`). For that it is enough that Down runs between two
  connections, once the Routes of the first have resolved (`DownKeepsAliasesFresh`).
  Without Down, or with a Route still to resolve when Down runs, a stale topic is
  used (`WithoutDownAnAliasIsStale`, `LateRouteLeavesAStaleAlias`); and the reset in
  Up may forget an alias the new session has just assigned
  (`ResetInUpMayForgetANewAlias`).
- Starts exclude each other exactly from the first assignment of `cm` on. Two that
  overlap before it can both return nil, and no later Stop reaches the manager of the
  one that was overtaken.
- With callbacks and Stops as atomic steps the connected flag and the gauge are what
  their documentation says. Stop leaves the gauge as it was, so they differ exactly
  when a Stop came after an Up that no Down has followed. Statement by statement, an
  Up that has not come to its flag when Stop clears it sets it again, and nothing
  else can without a further Up; and two managers can part flag and gauge without
  any Stop.
- IsConnected is not always false before a Start returns nil: then it says whether an
  Up of some manager stands, a Start that gave up after its Up included, and no Stop
  has a part in it.
- A subscription keeps its topics exactly when its pattern is well formed and either
  there is no share group and the filter does not start with `$share/`, or the group
  is a legal share name (not empty, without `/`, `+` and `#`), or such a name followed
  by `/+` before the catch-all (`BrokerAgreesExactlyWhen`). Nothing in the code checks
  the group, and a broker that refuses a subscription sends nothing for it.
- An empty vinculum topic is dropped under the verbatim default too, not only under
  the ignore default (`EmptyTopicResolvedToNothing`).
- The comment in `client/ws.go` asks for exactly one message per packet; section 6
  of MQTT Version 5.0 asks receivers not to rely on it. The writer is proved to do
  the former, the reader to need only the latter.

## Model

| member | source | states |
|---|---|---|
| Router.SubscriberRouter.AddRecipient | client/router.go:106-111 | appends the recipient; only the header field changes and it points to a fresh array, so no array an earlier header refers to is written |
| Router.SubscriberRouter.UnregisterHandler | client/router.go:136-149 | drops exactly the single-pattern entries under the topic, into a fresh array, writing no existing one |
| Router.SubscriberRouter.ResolveTopic | client/router.go:212-228 | answers with the packet's topic, or with the alias's, and registers an alias given with a topic |
| Router.SubscriberRouter.Route | client/router.go:153-191 | the calls are those for the list as it was when the header was taken, though handlers register, unregister and touch aliases in between; an unresolved topic calls nobody |
| Recipients.Positions | client/router.go:79-86 | the recipients of a topic are exactly the entries with a matching pattern, once each and in order |
| Recipients.CallsAreThePositions | client/router.go:186-190 | a message's calls are one per recipient position, in registration order |
| Recipients.UnregisterSilencesNoOtherTopic | client/router.go:136-149 | unregistering a pattern leaves the calls of every message it does not match unchanged |
| Recipients.UnregisterUndoesRegister | client/router.go:125-149 | unregistering removes what registering under the same pattern added, and repeating it changes nothing |
| RouterMachine.ReferencedArraysAreNeverWritten | client/router.go:98-111 | no step of any goroutine writes an array that a published or snapshotted header refers to, not even in its spare capacity |
| RouterMachine.StepKeepsInv | client/router.go:106-238 | every step keeps the published list equal to the committed history, every route correct so far, and the mutator's array private |
| RouterRuns.SnapshotNeverChanges | client/router.go:167-191 | a route's header and the array behind it stay as they were to the end of any execution |
| RouterRuns.RouteLinearizes | client/router.go:153-191 | in every interleaving a completed route makes exactly the calls for the list committed when it took its header, and until then a prefix of them |
| RouterCalls.StepKeepsInv | client/router.go:106-191 | every step keeps readers and writer apart and every waiting handler known to the lock or to the Route it waits for |
| RouterCalls.LockedRouterIsTheRouter | client/router.go:98-105 | from any state, with locks and waiting handlers the router does nothing it does not do in some execution of the lock-free machine |
| RouterCalls.EveryRouteLinearizes | client/router.go:153-191 | every Route, one called from a handler included, makes the calls for the list committed when its snapshot step ran, and until it is done a prefix of them |
| RouterProgress.EveryRouteCanReturn | client/router.go:103-105 | from every reachable state, whatever handlers add, remove or route and however deeply they nest, steps of what has begun bring every Route to its end |
| RouterProgress.EveryWriterCanCommit | client/router.go:103-111 | so does every mutation that holds or waits for the lock get committed |
| RouterTermination.EveryStepFalls | client/router.go:103-105 | every step of a call or mutation that has begun lowers a measure |
| RouterTermination.EveryScheduleEnds | client/router.go:103-105 | any schedule that takes such steps as long as there are any ends, with every Route returned, every mutation committed and no lock held |
| RouterProgress.KeepingTheLockDeadlocks | client/router.go:103-105 | if Route kept its read lock, a handler waiting to mutate the router and its Route would never end, in any execution |
| RouterProgress.KeepingTheLockGetsStuck | client/router.go:103-105 | and a message for any recipient, whose handler mutates the router, would get there |
| RouterRuns.LockIsAlwaysReleased | client/router.go:106-149 | a mutator that holds the lock releases it by its own steps alone |
| RouterRuns.CommittedAsAsked | client/router.go:106-149 | in every execution the mutations committed are those that got the lock, with the entries and topics asked for, in that order |
| RouterCalls.CallsAreConserved | client/router.go:106-149 | every AddRecipient and UnregisterHandler called is waiting, under way or committed, once and with its arguments, and nothing else is |
| RouterCalls.RouteKeepsItsPacket | client/router.go:153-191 | a call of Route is for the packet it was made with to the end of any execution |
| RouterMachine.MeaningIsLatest | client/router.go:212-238 | what an alias stands for is the registration nothing later replaced or reset, and nothing when there is none |
| RouterRuns.AliasAnswers | client/router.go:212-228 | in every interleaving an alias-only packet gets the latest registration since the last reset, or nothing |
| RouterRuns.DoneUnderItsTopic | client/router.go:173-182 | a packet is routed under the topic it carries, and an alias-only one under what its alias means when it is resolved |
| RouterRuns.AliasesStayFreshExactlyWhen | client/client.go:305-312 | over all packets of a history, no alias-only one is answered from another session's registration if and only if a reset falls between the resolves of different sessions |
| RouterRuns.NoStaleAlias | client/client.go:305-312 | in every execution with such resets an alias-only packet is delivered under the topic current for its alias when it resolved, registered by a packet of its own session |
| RouterRuns.NoStaleAliasAfterHandover | client/client.go:344-346 | so it is when each session's Routes begin after a reset at which none of another session was left to resolve |
| Sessions.DownKeepsAliasesFresh | client/client.go:302-349 | lifecycle and router together: so it is in every execution in which Down runs between two connections once the Routes of the first have resolved |
| Sessions.UpClosesTheWindow | client/client.go:305-312 | without any Down, after a reset in Up with no Route of another connection left to resolve, every alias resolved until the next connection is fresh |
| RouterRuns.WithoutDownAnAliasIsStale | client/client.go:305-312 | without that reset a packet is routed under the dead session's topic |
| RouterRuns.LateRouteLeavesAStaleAlias | client/client.go:305-312 | a Route that resolves after Down has reset leaves its topic to the next session |
| RouterRuns.ResetInUpMayForgetANewAlias | client/client.go:305-312 | a reset after the new session's registration drops its next alias-only packet |
| Limiter.ReconnectLimiter.Connected | client/client.go:66-74 | arms the limiter and starts a new outage count |
| Limiter.ReconnectLimiter.Failed | client/client.go:78-100 | stops exactly when this failure is at least the max-th in a row after some success |
| Limiter.CounterIsTheOutage | client/client.go:66-99 | under any interleaving the counter is the length of the trailing run of failures once there was a success |
| Limiter.StopsAreTheExhaustedSections | client/client.go:83-99 | stop is called only for sections that saw max failures in a row, once each, and for all of them when none is between its unlock and its stop |
| Limiter.PendingStaysUntilItStops | client/client.go:83-99 | a section that reached the limit keeps its stop call to come whatever happens in between |
| Limiter.GivesUpExactlyOnALongOutage | client/client.go:49-53 | the limiter acts exactly when some outage after a first success reaches max; never before a success, with max not positive, or for shorter outages |
| Lifecycle.StepKeepsInv | client/client.go:163-354 | every statement of every callback, Start and Stop keeps the lifecycle invariant |
| LifecycleRuns.ReadyMeansSubscribedAndWired | client/client.go:302-342 | startReady is closed at most once, only after a subscribe attempt with all filters and after every publisher has its function; Start returns nil only then |
| LifecycleRuns.AfterStartNoEventIsRefused | client/client.go:196-213 | after a Start that returned nil no OnEvent is refused as not yet connected |
| LifecycleRuns.ReconnectsAndSubscriptions | client/client.go:315-327 | the counter is the number of Ups beyond the first of each Start, and every Up attempts the same filter list |
| AtomicRuns.ConnectedIsTheLastEvent | client/client.go:136-158 | over whole callbacks and Stops, IsConnected says there was an Up with neither a Down nor a completed Stop of the started client since, and the gauge one without a Down since |
| AtomicRuns.ReconnectsAreTheLaterUps | client/client.go:314-327 | the counter is the number of Ups that were not the first of their Start, max(0, Ups - 1) for one, and each Up made one attempt with the same filters |
| LifecycleRuns.ConnectedWithoutAnotherUpExactlyWhen | client/client.go:235-241 | a disconnected client can report a connection without a further Up exactly when an Up is under way short of its flag statement |
| LifecycleRuns.OnlyAStartedClientIsCleared | client/client.go:231-239 | a Stop clears the flag only if it found a Start that had returned nil |
| AtomicRuns.ConnectedBeforeAnyStart | client/client.go:144-158 | before any Start has returned nil IsConnected says whether an Up stands, whatever Stops were called |
| AtomicRuns.AbandonedStartStaysConnected | client/client.go:196-206 | a run in which a Start gives up after its Up, leaving the flag set with nothing for Stop to stop |
| LifecycleRuns.ClearedBeforeAnyStartExactlyWhen | client/client.go:218-242 | such a flag can be cleared without a further Down or a returning Start exactly when a Down is short of its flag statement |
| LifecycleRuns.GivingUpIsTheLimiters | client/client.go:297-303 | a run is cancelled by its limiter exactly when its own errors after its own first Up reach the limit |
| LifecycleRuns.StartIsAdmittedExactlyBeforeAnAssign | client/client.go:164-169 | in every execution a Start passes its check exactly when none has assigned cm before |
| LifecycleRuns.StartedForGood | client/client.go:208-211 | after an assignment no Start is admitted again, through any Stops |
| AtomicRuns.ConcurrentStartsMayBothReturn | client/client.go:164-214 | two Starts that check before either assigns can both return nil |
| LifecycleRuns.OvertakenIsOnlyStoppedByAnEarlierStop | client/client.go:218-242 | the manager of an overtaken Start is cancelled by a Stop exactly if one begun before it was overtaken finishes |
| LifecycleRuns.FlagMirrorsTheGaugeExactlyUnless | client/client.go:35-37 | with one Start and no callback between the two statements, flag and gauge differ exactly when a Stop wrote the flag last, over an Up |
| AtomicRuns.StopLeavesTheGauge | client/client.go:235-241 | a run of Start, Up and Stop that ends with the flag cleared and the gauge set |
| AtomicRuns.TwoManagersPartFlagAndGauge | client/client.go:322-349 | a run of two Starts and no Stop that ends, with no callback under way, with the flag cleared and the gauge set |
| AtomicRuns.UpMayOvertakeStop | client/client.go:235-241 | a run in which Stop is over and the next statement of an Up sets the flag |
| Callbacks.UninterruptedUp | client/client.go:302-342 | run without interference, the statements of Up amount to its whole effect |
| Callbacks.UninterruptedDown | client/client.go:344-354 | so do those of Down |
| Callbacks.UninterruptedError | client/client.go:297-300 | and so do those of OnConnectError, the stop call included |
| Client.ConnectionCallbacks.OnConnectionUp | client/client.go:302-342 | the method has that effect on the client, the limiter, the router's aliases and every publisher |
| Client.ConnectionCallbacks.OnConnectionDown | client/client.go:344-354 | forgets aliases, clears flag and gauge, and always asks to reconnect |
| Client.ConnectionCallbacks.OnConnectError | client/client.go:297-300 | counts the failure and gives up exactly at the limit |
| Client.MQTTClient.Start | client/client.go:163-214 | given what the connection manager does, nil is returned exactly to a client not started before whose first Up has run: then cm is set, every publisher wired and all filters attempted; the callbacks get the router of buildRouter and a limiter with the configured maximum |
| Client.MQTTClient.BuildSubscribeOptions | client/client.go:263-269 | one option for each subscription of each subscriber, at its place in order: its broker topic behind the share prefix, and its QoS |
| Client.FiltersAreSentInOrder | client/client.go:263-269 | the concatenated filters hold every subscription's at the offset of its subscriber, and nothing else |
| Client.BrokerCoversExactlyTheRouted | client/client.go:248-269 | for the whole client, the broker covers a topic with the filters sent exactly when the router has a recipient for it |
| Client.MQTTClient.BuildRouter | client/client.go:248-260 | one recipient per subscriber, behind all of its patterns |
| WebSocket.WsConn.Unlock | client/ws.go:70-77 | hands over the buffered packet as one message, or none when empty, and frees the lock with an empty buffer |
| WebSocket.OneMessagePerPacket | client/ws.go:61-93 | under any interleaving of writers the messages are the finished non-empty packets in lock order, and the buffer is empty when the lock is free |
| WebSocket.MessagesAreWholePackets | client/ws.go:68-77 | a message is the bytes of one packet, and every packet with any bytes has its message |
| WebSocket.UnlockedWriteIsAPacketExactlyWhen | client/ws.go:79-93 | a write outside the lock sends what a packet of that one buffer would, exactly when it is not empty |
| WebSocket.WsConn.Read | client/ws.go:97-118 | a Read goes by the socket's answers: it returns when they make one return, with the next unread bytes, the rest unread still, and an error exactly when they fail; the loop terminates |
| WebSocket.ReadsReturnTheStream | client/ws.go:97-118 | for any messages and any legal reader successive Reads return a prefix of the stream, all of it at the end |
| WebSocket.EveryAnswerIsProgress | client/ws.go:100-117 | every answer of the socket ends the Read or brings its loop nearer to its end |
| WebSocket.PacketsComeBackInOrder | client/ws.go:61-118 | writers, network and reader interleaved, what is read is always a prefix of the finished packets' bytes in lock order, and all of it once everything sent has been read |
| Topics.StripFieldNames | subscriber/subscriber.go:247-255 | the in-place loop computes the stripped filter |
| Topics.StrippingPreservesMatching | subscriber/subscriber.go:244-255 | the broker covers with the stripped filter exactly the topics the named pattern matches, dollar topics included |
| Topics.StrippedIsValidFilter | subscriber/subscriber.go:37-39 | the stripped filter is legal under section 4.7.1 exactly when the pattern is well formed |
| Topics.BrokerAgreesExactlyWhen | subscriber/subscriber.go:203-215 | for every group and pattern a broker that refuses what sections 4.7.1 and 4.8.2 forbid covers exactly the topics the pattern matches if and only if a condition on their spelling holds |
| Subscriber.RoutedIffFound | subscriber/subscriber.go:218-242 | a subscriber is routed to exactly when its dispatch finds a subscription, for every matching rule |
| Subscriber.BrokerRouterAndDispatchAgree | subscriber/subscriber.go:203-242 | broker filters, router patterns and dispatch select the same topics wherever each subscription keeps its own |
| Subscriber.FieldPrecedence | subscriber/subscriber.go:129-147 | each key is the retained mark, else the extracted value, else the last non-trace property; no keys, no map |
| Subscriber.FieldsAreUnique | subscriber/subscriber.go:129-147 | that precedence, with no map for no keys, determines the fields |
| Subscriber.VerdictOfFirstMatch | subscriber/subscriber.go:68-198 | for the first subscription that matches, exactly when each verdict falls and what a delivered event holds |
| Subscriber.Conservation | subscriber/subscriber.go:68-198 | over any calls received plus errors plus drops are the calls, and durations are the events |
| Subscriber.MQTTSubscriber.HandleMessage | subscriber/subscriber.go:68-198 | under the first subscription that matches, an event is made exactly when the message is not a refused retained one, decodes and can be named, with the decoded payload, that subscription's topic and the fields of the precedence; each other outcome has its own error and count; the shared message and others' maps are not written |
| Subscriber.MQTTSubscriber.UserPropertiesToFields | subscriber/subscriber.go:270-284 | a fresh map of the last value of each non-trace key, or nil |
| Subscriber.WithSubscription | subscriber/builder.go:38-44 | the broker topic is the stripped pattern unless given |
| UserProperties.DecodeIsLastWins | subscriber/subscriber.go:266-284 | decoding takes the last property under each key but the trace keys |
| UserProperties.SetKeepsKeys | carrier/carrier.go:31-41 | Set keeps keys unique and in order, a new one last |
| UserProperties.GetReturnsTheLastSet | carrier/carrier.go:20-41 | Get returns the last value set, else the original, for any list |
| UserProperties.GetAgreesWithDecode | carrier/carrier.go:20-29 | with unique keys first-wins Get and last-wins decoding agree on every non-trace key |
| UserProperties.RoundTrip | publisher/publisher.go:127-134 | a map listed in any order and patched with any trace keys decodes to itself without its trace keys |
| Carrier.PropertyCarrier.Set | carrier/carrier.go:33-41 | overwrites the first property under the key in the shared array, or appends |
| Carrier.PropertyCarrier.Get | carrier/carrier.go:22-29 | the first value under the key, or empty |
| Publisher.FieldsToUserProperties | publisher/publisher.go:218-227 | lists the map with unique keys, in whatever order it is iterated |
| Publisher.FirstMatch | publisher/publisher.go:172-175 | the lowest mapping that matches, if any does |
| Publisher.LaterMappingsDoNotMatter | publisher/publisher.go:169-202 | mappings after the first match cannot change topic, QoS or retain |
| Publisher.ResolvedToNothing | publisher/publisher.go:204-208 | for a non-empty topic nothing is resolved exactly when no mapping matches and the default is ignore |
| Publisher.EmptyTopicResolvedToNothing | publisher/publisher.go:110-112 | exactly when an empty topic resolves to nothing |
| Publisher.ResolutionMeans | publisher/publisher.go:169-214 | what is resolved, from the first matching mapping or the default alone |
| Publisher.PublishingMeans | publisher/publisher.go:96-167 | what one call publishes or reports, from the first matching mapping or the default alone |
| Publisher.MQTTPublisher.ResolveMapping | publisher/publisher.go:172-214 | the first mapping that matches gives QoS and retain flag, its function over the event's fields with the extracted ones laid over them the topic or the failure; without one the default does; the caller's map is not written |
| Publisher.MQTTPublisher.OnEvent | publisher/publisher.go:96-167 | publishes once, with topic, QoS and retain flag as that mapping or the default says, the serialized payload and properties that decode to the event's fields; or reports which step failed, or drops silently when the topic resolves to nothing |
| Delivery.EachRecipientOnce | client/client.go:248-260 | on the list Start builds each subscriber a topic is for is called once, in order, and no other |
| Delivery.EndToEnd | client/router.go:186-190 | the same in every concurrent execution without later registrations, under the packet's own topic or its alias's, and no such call fails as unmatched |
| Delivery.RunHandlers | subscriber/subscriber.go:64-68 | recipients sharing one message each get what they would have got alone, whatever earlier ones do to their maps |
| Delivery.OneTurnEach | client/client.go:248-260 | with each subscriber added once, the handlers of a routed message give one turn to each subscriber they name and none to the others |
| Delivery.RoutePacket | client/router.go:153-191 | through router and handlers each subscriber's events grow by its own verdict on the message, once for each time it was added, if a pattern of it matches the resolved topic, and not at all otherwise |
| Delivery.StartAndRoute | client/client.go:187-214 | with the router Start built, a packet with a topic of its own reaches exactly the subscribers with a pattern for it |
| Delivery.FieldsArrive | publisher/publisher.go:127-134 | published fields arrive less the trace keys, beneath what the subscriber adds |

## Left out

- Wire formats, autopaho, paho, gorilla, OTel, TLS, dialling and addresses: foreign code and I/O.
- Log lines, error texts, spans, baggage and the decode-error hook: observational.
- Builders other than the broker-topic rule, the will message, the debug logger and the keep-alive conversion: plain assignments and conversions.
- The nil limiter, which is inert, and wrap-around of the failure counter and other integers.
- Whether Subscribe succeeds: the code only logs a failure, so the claims are about attempts.
- The select of Start does not block in the method: what the connection manager does, and whether its end or the context's comes first, is given. Its waiting is a step of `Lifecycle`.
- Publishers and subscribers added after Start, against the documented use.
- Writes outside the lock while another goroutine holds it, and write errors that Unlock swallows: outside the discipline the code assumes. A message counts as sent once handed to the socket.
- RouterTermination.EveryScheduleEnds: a handler's own code is taken to return, and handlers to call the router no more from some moment on. Go lets a waiting writer keep readers out, so no step that would pass one is counted on.
- `RouterMachine` and the other machines are on values: update in place is explicit there as writes to addressed arrays and fields of a state.
- MQTTSubscriber.HandleMessage: the pattern slice, the message payload and the decoded value are values, so aliasing between them is not captured.
- Duplicate deliveries by the broker for overlapping subscriptions: they are separate packets, and deliveries are counted per packet.
