# Verified model of the Foxglove bridge

This project models the parts of foxglove_bridge whose correctness depends on several pieces of
state staying in agreement, and proves what they promise.

**The registry.** The WebSocket server and the ROS bridge each keep tables of channels and
subscriptions, under two different mutexes and on two threads. The WebSocket thread opens and
closes connections and handles messages; the graph thread runs `updateAdvertisedTopics`. Nothing in
the code relates the tables; they agree because of the order of the updates, the nesting of the
locks, and channel ids that are not reused.

- `Registry` gives the effect of each critical section on both sides as functions, and the batch
  loops as folds over them. `Publications` does the same for channels advertised by clients.
- `Interleaving` is the two-thread system. Each thread has a program counter; a step is one
  critical section, and the sections that nest locks are split between the locks. A client's
  outgoing messages are part of the state. `Runs` relates two states by a list of steps.
- `Invariant`, `ClientView` and `Safety` hold the inductive invariant and its proof for every step
  of either thread; `Theorems` states what follows in every reachable state.
- `Scenarios` constructs runs that show where the promises end: reuse of an id after 2^32
  additions, a circular wait, and a close and a removal in flight for one subscription.
- `Messages` and `Refinement` show that a whole message, a disconnect or a whole update, without
  interference, is a run of the two-thread system.
- `Components` has the classes `FoxgloveBridge` and `Server` with the source's fields, methods and
  loops. Each method's new state is the one that `Registry`, `Publications` or `Messages` specifies.
- `PublicationEffects`, `AdvertiseEffects`, `SubscriptionEffects` and `MessageEffects` state what each
  message does, and what it leaves alone, in terms of the tables and independently of the functions
  that specify the handlers. `Outboxes` does so for what clients are sent.
- `FrameOrigin` follows every data frame from the lookup of its subscription id to the client.
- `PublicationSafety` and `AdvertiseAgreement` cover client channels: which tables contain which
  ids, and when a publisher matches the advertisement that the server stored.

**The message definition bundler.** `Definitions` describes `get_full_text` over a partial function
from (format, name) to a text and its dependencies, with two kinds of failure. `WalkOrder` defines
depth-first preorder without a stack or a visited set: the next name is the first unlisted
dependency of the latest listed name that has one. It proves that this order is unique and lists
exactly the reachable names, and that the recursive walk produces it. `Bundles` and `Sections`
derive exact success and failure conditions, the text, and the way back from the text to sections.
`LoadOutcomes` says which names are valid and which failure leads where.
`Text` is `split_string`. `DefinitionCache` is the class with its memo table and loops.
`SchemaDelivery` joins this with the registry: which schema a client's view holds after an update.

**Frames and QoS.** `Frames` covers the binary frames of the Foxglove WebSocket protocol v1
("Message Data" and "Client Message Data") on hosts of both byte orders. `Qos` covers the choice of
the subscription profile.

## Reading the model

- Sections under a single mutex are single steps. Advertise and unadvertise messages, and the part
  of a disconnect that concerns client channels, are single steps as well: only the WebSocket
  thread touches that state.
- Outcomes decided by ROS are inputs: whether a subscription is created (`created`), whether a
  publisher is created, refused or throws (`creation`), whether a schema is found, missing or fails
  (`SchemaLookup`), and the set of visible topics. In `Components` the schema comes from the
  definition cache, against a fixed index of files.
- An `advertise` message of the server carries a map from ids to channels, since the order of an
  `unordered_map` is not specified. Orders in which such containers are walked are arbitrary:
  sequences that enumerate a set.
- A malformed item, one on which the source throws, ends its batch at that position and is answered
  with an error status.
- Messages are values that have been parsed; sends append to the client's outbox, in order.
- `ghost` state records facts for the statements: ids issued so far, whether a live id was issued
  again (`collided`), channels not yet announced, creations that failed, and the start of the
  current update with what its lookups gave (`pass`). No step consults it, except that a subscription callback (`RosLookup`)
  belongs to a channel that was once created (`history`).

## Where the code and its description differ

- The comment above `get_full_text` says that it throws `DefinitionNotFoundError` when a
  definition is missing. Other exceptions escape too, without an attempt in IDL: an invalid name
  or a missing package. `Bundles.FallbackIsFresh` has both cases.
- A subscription that the bridge holds and the server does not can be in flight for a close and a
  removal at once, so the in-flight cases do not exclude each other
  (`Scenarios.CloseAndRemovalOverlap`); `Theorems.BridgeSubscriptionsAccountedFor` says which do.
- The agreement of the bridge's maps needs ids that are not reused. After 2^32 additions it can be
  lost (`Scenarios.WrapBreaksRegistry`); `Theorems.AdditionKeepsMapsIff` gives the condition.
- The two threads take the two mutexes in opposite orders. A circular wait is reachable
  (`Scenarios.CircularWaitReachable`) and permanent (`Theorems.CircularWaitIsForever`), so nothing
  here claims progress.
- The first advertise message of a client may name an id twice, and the handler runs for the repeat
  too. On ROS 1, where a creation can be refused without an exception, the publisher may then differ
  from the stored advertisement; on ROS 2 it never does. `AdvertiseAgreement.AdvertiseMatchesIff`
  says when they agree, given ROS's answers, and `AdvertiseAgreement.MatchesWhateverRosAnswers` for
  which messages they agree in any case.
- `handleBinaryMessage` reads the channel id natively while the frame is little-endian, so on a
  big-endian host it is right exactly for ids with palindromic bytes.
- The sum of depths in the QoS loop can wrap around `size_t` before it is clamped; `Qos.DepthExactIff`
  says for which limits and depths it cannot lose depth.

## Model

| member | source | states |
|---|---|---|
| `Theorems.BridgeSubscriptionsAccountedFor` | foxglove_bridge_base/include/foxglove_bridge/websocket_server.hpp:343-383 | in every reachable state without id reuse, each bridge subscription is either a server subscription with nothing in flight, or gone from the server and waiting either for the unsubscribe handler alone, or for a close or a removal |
| `Theorems.IdleSidesAgree` | ros2_foxglove_bridge/src/ros2_foxglove_bridge.cpp:362-517 | with both threads idle, the bridge holds a subscription if and only if the server does and its last ROS creation did not fail |
| `Theorems.HandlerKnowsAcceptedChannel` | ros2_foxglove_bridge/src/ros2_foxglove_bridge.cpp:362-378 | the subscribe handler never takes its early returns for a channel that the server has just accepted, even if the channel was being added or removed, and leaves an entry or a recorded failure |
| `Theorems.RegistryMirrors` | ros2_foxglove_bridge/src/ros2_foxglove_bridge.cpp:268-331 | outside the graph thread's critical section the bridge's two maps are inverse to each other, the server's channels are exactly the bridge's with equal contents, and subscriptions are keyed by live channels |
| `Theorems.SubscriptionsInjective` | foxglove_bridge_base/include/foxglove_bridge/websocket_server.hpp:603-655 | in every run, also with batches cut short and reused ids, a client's subscriptions have distinct ids and live channels |
| `Theorems.UnsubscribeUndoesSubscribe` | foxglove_bridge_base/include/foxglove_bridge/websocket_server.hpp:616-655 | unsubscribing restores the subscriptions from before an accepted subscribe with the same id; the search finds that channel, or nothing if the channel was subscribed under another id |
| `Theorems.ViewNeverStale` | foxglove_bridge_base/include/foxglove_bridge/websocket_server.hpp:765-805 | replaying the messages sent to a client gives only live channels with their current contents, and lacks only channels not announced yet |
| `Theorems.ViewCompleteAfterUpdate` | foxglove_bridge_base/include/foxglove_bridge/websocket_server.hpp:317-340 | between updates every connected client, whenever it connected, knows exactly the live channels |
| `Theorems.UpdateReconciles` | ros2_foxglove_bridge/src/ros2_foxglove_bridge.cpp:221-336 | after an update, however interleaved, the topics are the old ones still visible, on their old channels, and the new ones whose lookup did not fail, each with the encoding and schema that its lookup gave; before the counter wraps, new ids exceed all earlier ones |
| `Theorems.UpdateReachesClients` | ros2_foxglove_bridge/src/ros2_foxglove_bridge.cpp:288-335 | after an update every connected client knows each new topic, under its id and with what its lookup gave |
| `SchemaDelivery.SchemaReachesClients` | ros2_foxglove_bridge/src/ros2_foxglove_bridge.cpp:288-335 | on ROS 2 the schema in every connected client's view of a new topic is the bundle of its type in MSG, or in IDL if MSG is missing, and splits back into the definitions if and only if none has a line of 80 equals signs |
| `SchemaDelivery.UndescribedTopics` | ros2_foxglove_bridge/src/ros2_foxglove_bridge.cpp:294-316 | a new topic without a definition reaches every connected client without encoding and schema |
| `SchemaDelivery.StaysBackIff` | ros2_foxglove_bridge/src/ros2_foxglove_bridge.cpp:294-320 | a new topic is not advertised if and only if another exception than a missing definition escapes |
| `SchemaDelivery.Ros1TopicReachesClients` | ros1_foxglove_bridge/src/ros1_foxglove_bridge_nodelet.cpp:406-434 | on ROS 1 a new topic reaches every connected client with encoding ros1 and the definition that was found, if any, and stays back if and only if the lookup throws |
| `Theorems.DeliveryIsExact` | foxglove_bridge_base/include/foxglove_bridge/websocket_server.hpp:808-844 | the subscription id looked up for a data frame belongs to the callback's own channel and no other, the channel is live, and the client's view of it, if any, is right |
| `FrameOrigin.FramesConserved` | foxglove_bridge_base/include/foxglove_bridge/websocket_server.hpp:808-844 | in every run each data frame sent was looked up, and each successful lookup is sent at most once: sent and in flight are together what was looked up |
| `FrameOrigin.ReceivedWasSent` | foxglove_bridge_base/include/foxglove_bridge/websocket_server.hpp:808-844 | no step but a send of that frame puts a data frame among the messages of a client |
| `FrameOrigin.ReceivedBelongs` | foxglove_bridge_base/include/foxglove_bridge/websocket_server.hpp:808-844 | for every data frame a client received there is an earlier state of the run in which a callback looked its id up, and in which that id belonged to the callback's own live channel alone |
| `FrameOrigin.SubscriberIsServed` | foxglove_bridge_base/include/foxglove_bridge/websocket_server.hpp:823-843 | a callback for a live channel looks up every client subscribed to it, however many other subscriptions the client has, and the send appends exactly the frame with that client's id |
| `FrameOrigin.OthersAreNotServed` | foxglove_bridge_base/include/foxglove_bridge/websocket_server.hpp:825-834 | a client without a subscription to the channel is not served |
| `Outboxes.RunGrows` | foxglove_bridge_base/include/foxglove_bridge/websocket_server.hpp:317-340 | until its connection closes, a client keeps everything it was sent, in order, in every run |
| `Outboxes.GraphTells` | foxglove_bridge_base/include/foxglove_bridge/websocket_server.hpp:774-805 | removing a channel sends each connected client one unadvertise and takes that channel alone from it; a broadcast sends each one advertise and changes nothing else |
| `Theorems.RemovedStaysRemoved` | foxglove_bridge_base/include/foxglove_bridge/websocket_server.hpp:774-784 | before the counter wraps, a removed channel is never live again in the rest of any run and no lookup for it succeeds |
| `Theorems.ClosedStaysClosed` | foxglove_bridge_base/include/foxglove_bridge/websocket_server.hpp:343-363 | no lookup for a closed client succeeds in the rest of any run in which its handle does not connect again |
| `Theorems.NoReuseBeforeWrap` | foxglove_bridge_base/include/foxglove_bridge/websocket_server.hpp:765-771 | with fewer than 2^32 additions no live id is issued again |
| `Theorems.AdditionKeepsMapsIff` | ros2_foxglove_bridge/src/ros2_foxglove_bridge.cpp:322-330 | adding a topic keeps the bridge's maps inverse if and only if the id it receives is not live |
| `Theorems.PublicationsNested` | foxglove_bridge_base/include/foxglove_bridge/websocket_server.hpp:365-374 | in every reachable state a client's publishers are among its server channels, these among the ids it advertised, and a disconnected client has neither |
| `Theorems.CircularWaitIsForever` | ros2_foxglove_bridge/src/ros2_foxglove_bridge.cpp:270-276 | once each thread holds one mutex and waits for the other's, neither moves again in any run |
| `Scenarios.WrapBreaksRegistry` | ros2_foxglove_bridge/src/ros2_foxglove_bridge.cpp:322-330 | a reachable state, both threads idle, in which a reused id leaves two topics on channel 1 and the bridge's maps in disagreement |
| `Scenarios.CircularWaitReachable` | foxglove_bridge_base/include/foxglove_bridge/websocket_server.hpp:600-637 | a run in which a subscribe request and a removal block each other |
| `Scenarios.CloseAndRemovalOverlap` | foxglove_bridge_base/include/foxglove_bridge/websocket_server.hpp:376-382 | a run in which a close and a removal are both pending for one subscription |
| `Safety.InvStep` | foxglove_bridge_base/include/foxglove_bridge/websocket_server.hpp:596-706 | the invariant of both sides, the clients' views, the ids and the publications survives every step of either thread |
| `Safety.RunKeeps` | foxglove_bridge_base/include/foxglove_bridge/websocket_server.hpp:596-706 | the invariant holds after every run |
| `Invariant.SubscribeHandlerEntries` | ros2_foxglove_bridge/src/ros2_foxglove_bridge.cpp:379-470 | the handler adds exactly the entry for this client and channel if ROS creates the subscription, records the failure otherwise, and changes no other |
| `Invariant.UnsubscribeHandlerEntries` | ros2_foxglove_bridge/src/ros2_foxglove_bridge.cpp:472-517 | the handler removes exactly this entry and drops a channel together with its last client |
| `Refinement.MessageRuns` | foxglove_bridge_base/include/foxglove_bridge/websocket_server.hpp:596-706 | the whole effect of a text message is that of a run of the WebSocket thread that starts by taking up this message |
| `Refinement.CloseRuns` | foxglove_bridge_base/include/foxglove_bridge/websocket_server.hpp:343-383 | the whole effect of a disconnect is that of a run that starts with the close and continues with the unsubscribe loop |
| `Refinement.UpdateRuns` | ros2_foxglove_bridge/src/ros2_foxglove_bridge.cpp:221-336 | the whole effect of an update is that of a run of the graph thread that starts with the diff |
| `MessageEffects.OthersUntouched` | foxglove_bridge_base/include/foxglove_bridge/websocket_server.hpp:596-706 | a text message changes nothing about other clients in any table of either component, and neither channels nor topics |
| `MessageEffects.RejectedMessage` | foxglove_bridge_base/include/foxglove_bridge/websocket_server.hpp:588-601 | a message that does not parse, has an unknown operation or an unknown sender is answered with one error and does nothing else |
| `MessageEffects.SubscribeMessageEffect` | foxglove_bridge_base/include/foxglove_bridge/websocket_server.hpp:617-637 | a used id is an error and an unknown channel a warning without further effect; otherwise the channel is recorded under the id unless it has one, and the bridge asks ROS exactly if it serves the client none yet; publications stay |
| `MessageEffects.SubscribeMessageSplits` | foxglove_bridge_base/include/foxglove_bridge/websocket_server.hpp:616-638 | the items of a subscribe message take effect one after the other, after rejected ones too, up to the first malformed one, which is an error |
| `MessageEffects.UnsubscribeMessageEffect` | foxglove_bridge_base/include/foxglove_bridge/websocket_server.hpp:639-655 | exactly the channels subscribed under an id named before the first malformed item are gone on both sides; the publications stay |
| `MessageEffects.UnsubscribeMessageReplies` | foxglove_bridge_base/include/foxglove_bridge/websocket_server.hpp:641-648 | an unknown id is a warning, a malformed one an error that ends the message, a known one is not answered |
| `MessageEffects.AdvertiseMessageEffect` | foxglove_bridge_base/include/foxglove_bridge/websocket_server.hpp:656-680 | `AdvertiseEffects.AdvertiseExact` on the whole state, with the replies, and without effect on the registry |
| `MessageEffects.UnadvertiseMessageEffect` | foxglove_bridge_base/include/foxglove_bridge/websocket_server.hpp:681-701 | `PublicationEffects.UnadvertiseExact` on the whole state, with the replies, and without effect on the registry |
| `Components.Server.HandleConnectionOpened` | foxglove_bridge_base/include/foxglove_bridge/websocket_server.hpp:317-340 | a new client gets empty tables, server info and all live channels; the other clients keep theirs |
| `Components.Server.HandleConnectionClosed` | foxglove_bridge_base/include/foxglove_bridge/websocket_server.hpp:343-383 | the client leaves all tables, its publishers are destroyed, and each of its subscriptions is unsubscribed once, in some order; every other client keeps its tables, publishers and subscriptions |
| `Components.Server.AddChannel` | foxglove_bridge_base/include/foxglove_bridge/websocket_server.hpp:765-771 | issues the next 32-bit id and lists the channel unless the id is taken |
| `Components.Server.RemoveChannel` | foxglove_bridge_base/include/foxglove_bridge/websocket_server.hpp:774-784 | the loop removes the channel from the list and from every client, tells every client once, and changes nothing else |
| `Components.Server.BroadcastChannels` | foxglove_bridge_base/include/foxglove_bridge/websocket_server.hpp:787-805 | the loop sends every connected client all live channels |
| `Components.Server.FindSubscriptionBySubId` | foxglove_bridge_base/include/foxglove_bridge/websocket_server.hpp:603-608 | the linear search returns the channel subscribed under an id, if any |
| `Components.Server.HandleTextMessage` | foxglove_bridge_base/include/foxglove_bridge/websocket_server.hpp:575-706 | all tables of both components and all replies after a text message are those of its specification |
| `Components.Server.HandleSubscribe` | foxglove_bridge_base/include/foxglove_bridge/websocket_server.hpp:616-638 | the loop with its continues and exceptions is the fold over the items, on both sides |
| `Components.Server.HandleUnsubscribe` | foxglove_bridge_base/include/foxglove_bridge/websocket_server.hpp:639-655 | the same for unsubscribing |
| `Components.Server.HandleAdvertise` | foxglove_bridge_base/include/foxglove_bridge/websocket_server.hpp:656-680 | the loop over advertised channels with its replies, including a handler that throws |
| `Components.Server.HandleUnadvertise` | foxglove_bridge_base/include/foxglove_bridge/websocket_server.hpp:681-701 | the loop over channels to unadvertise with its replies |
| `Components.Server.HandleBinaryMessage` | foxglove_bridge_base/include/foxglove_bridge/websocket_server.hpp:709-762 | a binary message is rejected, dropped or published as its bytes and the tables say |
| `Components.Server.SendMessage` | foxglove_bridge_base/include/foxglove_bridge/websocket_server.hpp:808-844 | a frame is sent if and only if the client is subscribed to the channel, and decodes to the client's id for that channel, the time and the payload |
| `Components.FoxgloveBridge.UpdateAdvertisedTopics` | ros2_foxglove_bridge/src/ros2_foxglove_bridge.cpp:221-336 | the diff, the removals, the additions and the broadcast together, on both components, with schemas from the definition cache |
| `Components.FoxgloveBridge.SubscribeHandler` | ros2_foxglove_bridge/src/ros2_foxglove_bridge.cpp:362-470 | the bridge's tables after the subscribe handler; a subscription is requested exactly for a known channel the client has none on, with the strongest profile that all publishers of the topic satisfy and the clamped depth |
| `Components.FoxgloveBridge.UnsubscribeHandler` | ros2_foxglove_bridge/src/ros2_foxglove_bridge.cpp:472-517 | the bridge's tables after the unsubscribe handler |
| `Components.FoxgloveBridge.ClientAdvertiseHandler` | ros2_foxglove_bridge/src/ros2_foxglove_bridge.cpp:519-551 | the publishers after the handler, and whether it throws |
| `Components.FoxgloveBridge.ClientUnadvertiseHandler` | ros2_foxglove_bridge/src/ros2_foxglove_bridge.cpp:553-585 | the publishers after the handler |
| `PublicationSafety.AdvertiseKeeps` | foxglove_bridge_base/include/foxglove_bridge/websocket_server.hpp:656-680 | an advertise message keeps publishers within server channels within advertised ids for every client, also if creations fail or throw |
| `PublicationSafety.UnadvertiseKeeps` | foxglove_bridge_base/include/foxglove_bridge/websocket_server.hpp:681-701 | so does an unadvertise message, which never shrinks the advertised ids |
| `PublicationSafety.CloseKeeps` | foxglove_bridge_base/include/foxglove_bridge/websocket_server.hpp:365-374 | so does a disconnect, after which no publisher of the client remains |
| `PublicationEffects.CloseExact` | foxglove_bridge_base/include/foxglove_bridge/websocket_server.hpp:343-374 | a disconnect takes its client out of all three tables and leaves every other client's channels and publishers alone |
| `PublicationEffects.OpenExact` | foxglove_bridge_base/include/foxglove_bridge/websocket_server.hpp:317-340 | a connect gives a new client empty tables and changes no other client's |
| `PublicationEffects.AdvertiseFrame` | foxglove_bridge_base/include/foxglove_bridge/websocket_server.hpp:656-680 | an advertise message changes no other client's tables |
| `PublicationEffects.UnadvertiseFrame` | foxglove_bridge_base/include/foxglove_bridge/websocket_server.hpp:681-701 | nor does an unadvertise message |
| `PublicationEffects.UnadvertiseExact` | foxglove_bridge_base/include/foxglove_bridge/websocket_server.hpp:690-700 | exactly the ids named before the first malformed item, unknown ones in between notwithstanding, are gone from the server's channels and the bridge's publishers |
| `PublicationEffects.UnadvertiseReplies` | foxglove_bridge_base/include/foxglove_bridge/websocket_server.hpp:682-686 | one error for a client without channels or a malformed item, and no other reply |
| `AdvertiseEffects.AdvertiseExact` | foxglove_bridge_base/include/foxglove_bridge/websocket_server.hpp:656-680 | for first and later messages: the items up to the first that does not parse or whose creation throws are handled; the server then has exactly the channels from before and theirs, as the first item for each says, the bridge exactly the publishers from before and those ROS created, and each item turned away, throwing or malformed is one error |
| `AdvertiseEffects.HandlesUnique` | foxglove_bridge_base/include/foxglove_bridge/websocket_server.hpp:656-680 | how many items a message handles is determined |
| `PublicationSafety.MuteStaysMute` | foxglove_bridge_base/include/foxglove_bridge/websocket_server.hpp:664-671 | a channel whose publisher could not be created stays without one under every later advertise message |
| `PublicationSafety.UnadvertiseRecovers` | ros2_foxglove_bridge/src/ros2_foxglove_bridge.cpp:519-585 | unadvertising such a channel and advertising it again gives it the publisher it asks for |
| `AdvertiseAgreement.AdvertiseMatchesIff` | ros1_foxglove_bridge/src/ros1_foxglove_bridge_nodelet.cpp:218-267 | publishers keep matching the stored advertisements if and only if the client has advertised before or, in its first message, each item that creates a publisher says what the first item for its channel says |
| `AdvertiseAgreement.NeverRefusedMatches` | ros2_foxglove_bridge/src/ros2_foxglove_bridge.cpp:519-551 | on ROS 2, where a creation succeeds or throws, every advertise message keeps the match |
| `AdvertiseAgreement.MatchesWhateverRosAnswers` | ros1_foxglove_bridge/src/ros1_foxglove_bridge_nodelet.cpp:218-267 | a first message keeps the match whatever ROS answers if and only if, before its first malformed item, each supported repeat of a channel says what the first item for the channel says |
| `AdvertiseAgreement.RefusedRepeatMismatches` | ros1_foxglove_bridge/src/ros1_foxglove_bridge_nodelet.cpp:218-267 | a first message, repeating an id after a refusal, that leaves a publisher on another topic than the stored advertisement |
| `WalkOrder.PreorderUnique` | ros2_foxglove_bridge/src/message_definition_cache.cpp:183-197 | on every graph, cyclic ones included, there is one depth-first order below a root |
| `WalkOrder.ListedIffReachable` | ros2_foxglove_bridge/src/message_definition_cache.cpp:183-197 | it lists, after the root, exactly the names reachable over one or more dependencies, so the root again if and only if it is on a cycle |
| `Bundles.WalkExact` | ros2_foxglove_bridge/src/message_definition_cache.cpp:183-197 | one attempt succeeds if and only if the root and everything reachable loads, and then visits each reachable name once in depth-first order |
| `Bundles.WalkOutcome` | ros2_foxglove_bridge/src/message_definition_cache.cpp:183-202 | an attempt lists the complete preorder, or stops with the error of the first name in preorder that does not load |
| `Bundles.FirstFailureUnique` | ros2_foxglove_bridge/src/message_definition_cache.cpp:201-203 | the graph determines at which name and with which error an attempt fails |
| `Bundles.LoadsBounded` | ros2_foxglove_bridge/src/message_definition_cache.cpp:183-197 | below its root, an attempt loads no more often than there are reachable names |
| `Bundles.FallbackIsFresh` | ros2_foxglove_bridge/src/message_definition_cache.cpp:199-212 | the IDL attempt is exactly a fresh one although the seen names of the MSG attempt remain, and happens only after a missing definition |
| `LoadOutcomes.FallsBack` | ros2_foxglove_bridge/src/message_definition_cache.cpp:146-164 | a type without a definition in MSG and one without dependencies in IDL is delivered as the IDL text behind its header |
| `LoadOutcomes.NeitherDefined` | ros2_foxglove_bridge/src/message_definition_cache.cpp:203-209 | without a definition in either format the exception is a missing definition |
| `LoadOutcomes.UnknownEscapes` | ros2_foxglove_bridge/src/message_definition_cache.cpp:132-142 | for an invalid name or a missing package another exception escapes, whatever there is in IDL |
| `LoadOutcomes.OneDependency` | ros2_foxglove_bridge/src/message_definition_cache.cpp:187-194 | a dependency follows the text behind a rule and the header "MSG: " with its name |
| `LoadOutcomes.ValidNameIff` | ros2_foxglove_bridge/src/message_definition_cache.cpp:20 | exactly `pkg/Type` and `pkg/msg/Type` with words of letters, digits and underscores are valid names |
| `Bundles.VisitText` | ros2_foxglove_bridge/src/message_definition_cache.cpp:186-196 | the nested appends give the root's text followed by one section for each visited name |
| `Sections.FullTextExact` | ros2_foxglove_bridge/src/message_definition_cache.cpp:179-212 | result or error of `get_full_text` for every graph, from the independent preorder specification alone |
| `Sections.RoundTrip` | ros2_foxglove_bridge/src/message_definition_cache.cpp:85-101 | splitting a bundle at lines of 80 equals signs gives back its sections, formats, names and texts in order, if and only if no bundled text has such a line; for both formats |
| `Sections.ValidNameHasNoNewline` | ros2_foxglove_bridge/src/message_definition_cache.cpp:132-137 | a name that can be loaded cannot break a header line |
| `Text.SplitString` | ros2_foxglove_bridge/src/message_definition_cache.cpp:103-118 | the search loop ends and gives the pieces between consecutive delimiters |
| `Text.JoinSplit` | ros2_foxglove_bridge/src/message_definition_cache.cpp:103-118 | joining the pieces gives back the string, for every delimiter that is not empty |
| `Text.PiecesAvoidDelimiter` | ros2_foxglove_bridge/src/message_definition_cache.cpp:103-118 | no piece contains the delimiter |
| `Text.SplitAppend` | ros2_foxglove_bridge/src/message_definition_cache.cpp:103-118 | splitting two texts joined by a one-character delimiter gives the pieces of both |
| `DefinitionCache.MessageDefinitionCache.LoadMessageSpec` | ros2_foxglove_bridge/src/message_definition_cache.cpp:126-177 | a load succeeds, with the installed definition, if and only if the name is valid, its package present and its file installed, and says which of these failed, with and without the memo table, which afterwards holds successful loads only |
| `DefinitionCache.MessageDefinitionCache.AppendRecursive` | ros2_foxglove_bridge/src/message_definition_cache.cpp:183-197 | the recursion ends on every graph and does what the walk says: text, seen names, number of loads |
| `DefinitionCache.MessageDefinitionCache.GetFullText` | ros2_foxglove_bridge/src/message_definition_cache.cpp:179-212 | the same result or error from every cache that any history of calls leaves |
| `Frames.WriteUint32LE` | foxglove_bridge_base/include/foxglove_bridge/serialization.hpp:22-31 | shifts and masks, or the native store, both write the little-endian bytes and nothing else |
| `Frames.WriteUint64LE` | foxglove_bridge_base/include/foxglove_bridge/serialization.hpp:7-20 | the same for 64 bits |
| `Frames.ShiftAndMask` | foxglove_bridge_base/include/foxglove_bridge/serialization.hpp:7-31 | each byte of the little-endian form is the value shifted and masked |
| `Frames.Publish` | foxglove_bridge_base/include/foxglove_bridge/websocket_client.hpp:170-176 | the client's frame: opcode, little-endian channel id, payload |
| `Frames.DataFrameRoundTrip` | foxglove_bridge_base/include/foxglove_bridge/websocket_server.hpp:838-842 | a data frame decodes to its subscription id, time and payload, for all of them |
| `Frames.FrameLayout` | foxglove_bridge_base/include/foxglove_bridge/websocket_server.hpp:838-842 | both frames byte by byte: opcode 1, ids and time with their lowest byte first, payload |
| `Frames.PublishedIdRoundTrip` | foxglove_bridge_base/include/foxglove_bridge/websocket_server.hpp:733-754 | the payload is read back on every host, and the channel id if and only if the host is little-endian or the four bytes are a palindrome |
| `Frames.PublishReachesPublisher` | foxglove_bridge_base/include/foxglove_bridge/websocket_server.hpp:709-762 | on a little-endian host a published payload reaches exactly its channel's publisher; without one it is dropped, and rejected for an unknown channel |
| `Frames.BinaryExact` | foxglove_bridge_base/include/foxglove_bridge/websocket_server.hpp:709-762 | a binary message is accepted if and only if it has opcode 1 and names a channel of its sender, and then everything from the sixth byte on reaches that channel's publisher, if any |
| `Frames.ChannelIdBytes` | foxglove_bridge_base/include/foxglove_bridge/websocket_server.hpp:737 | the channel id in terms of the message's bytes on either host |
| `Qos.SelectQos` | ros2_foxglove_bridge/src/ros2_foxglove_bridge.cpp:405-449 | the profile is reliable, or transient local, exactly if every publisher is; so it is compatible with every publisher and at least as strong as every profile that is; its depth is the clamped one, at least 1 |
| `Qos.ClampedIsSum` | ros2_foxglove_bridge/src/ros2_foxglove_bridge.cpp:410-419 | without a wrap-around, clamping at every step is clamping the sum |
| `Qos.DepthExactIff` | ros2_foxglove_bridge/src/ros2_foxglove_bridge.cpp:410-421 | for depths up to a bound the loop always gives max(1, min(limit, sum)) if and only if the limit is at most 1 or limit and bound together fit in `size_t` |
| `Qos.DepthIgnoresOrder` | ros2_foxglove_bridge/src/ros2_foxglove_bridge.cpp:410-419 | the depth does not depend on the order of the publishers |
| `Qos.SumConcat` | ros2_foxglove_bridge/src/ros2_foxglove_bridge.cpp:410-419 | `Sum` is the sum: of one depth that depth, of two lists both sums |

## Left out

- Sockets, TLS, asio, JSON text and logging: messages are parsed values and sends always succeed in order.
- Progress: a circular wait is reachable, so only safety is claimed.
- `stop()`, destruction and the polling thread: one WebSocket thread and a running server are assumed.
- Locks inside the classes: the methods of `Components` run without interference; the interleaving of critical sections is modelled on values in `Interleaving`, and `Refinement` connects the two.
- Theorems.DeliveryIsExact: speaks of the moment of the lookup, because the frame is sent after the lock is released and the client may reuse the id meanwhile; so does `FrameOrigin.ReceivedBelongs`.
- Components.Server.HandleBinaryMessage: reports the publication as its result instead of calling into ROS.
- Components.FoxgloveBridge.SubscribeHandler: takes the outcome of creating the subscription as an input, because ROS decides it; what ROS reports about publishers is a field that nothing here changes.
- The classes follow the ROS 2 bridge; ROS 1 differs in `NewChannel` and `AdvertiseHandler`, which take the ROS version as a parameter, so the system and its theorems cover both.
- The ROS 1 timer backoff: small arithmetic on its own counter.
- The send buffer limit, `broadcastTime` and time frames: they touch none of the modelled tables.
- Collisions of hashed operation names: operations are dispatched values.
- The regular expressions that find dependencies, the ament index and file reading: loading is a fixed partial function; dependencies are a sequence in the order of the source's `std::set`.
- The whitelist of topics, client names, parameters, launch files and packaging: easy members or plumbing.
