/**
 The state that the WebSocket server and the ROS bridge keep about channels and
 subscriptions, and the effect of each of their critical sections on it.

 The server side lives under `_clientsChannelMutex`, the bridge side under
 `_subscriptionsMutex`.  Nothing in this module relates the two sides.
 */
module Registry {
  import opened Common

  /** A (topic name, data type) pair, the key of `_advertisedTopics`. */
  datatype Topic = Topic(name: string, datatypeName: string)

  datatype ChannelWithoutId =
    ChannelWithoutId(topic: string, encoding: string, schemaName: string, schema: string)

  datatype Channel = Channel(id: u32, info: ChannelWithoutId)

  datatype StatusLevel = Info | Warning | Error

  /** What the server sends to a client; JSON text and payload bytes are left out. */
  datatype ServerMessage =
    | ServerInfo
    | Advertise(channels: map<u32, Channel>)
    | Unadvertise(id: u32)
    | Status(level: StatusLevel)
    | MessageData(subscriptionId: u32)

  // ------------------------------------------------------------------ server side

  /** `subs[h]` is `_clients[h].subscriptionsByChannel`; `outbox[h]` is what `h` was sent. */
  datatype ServerSide = ServerSide(
    nextId: u32,
    subs: map<Handle, map<u32, u32>>,
    channels: map<u32, Channel>,
    outbox: map<Handle, seq<ServerMessage>>)

  const NoServer := ServerSide(0, map[], map[], map[])

  predicate Subscribed(srv: ServerSide, h: Handle, c: u32) {
    h in srv.subs && c in srv.subs[h]
  }

  /** Sending to a handle without an open connection has no effect. */
  function Send(srv: ServerSide, h: Handle, msgs: seq<ServerMessage>): ServerSide {
    if h in srv.outbox then srv.(outbox := srv.outbox[h := srv.outbox[h] + msgs]) else srv
  }

  function Replies(levels: seq<StatusLevel>): seq<ServerMessage> {
    seq(|levels|, i requires 0 <= i < |levels| => Status(levels[i]))
  }

  function SendAll(srv: ServerSide, msg: ServerMessage): ServerSide {
    srv.(outbox := map h | h in srv.outbox ::
      if h in srv.subs then srv.outbox[h] + [msg] else srv.outbox[h])
  }

  function OpenConnection(srv: ServerSide, h: Handle): ServerSide {
    var greeting := [ServerInfo, Advertise(srv.channels)];
    srv.(subs := if h in srv.subs then srv.subs else srv.subs[h := map[]],
         outbox := srv.outbox[h := (if h in srv.outbox then srv.outbox[h] else []) + greeting])
  }

  function EraseClient(srv: ServerSide, h: Handle): ServerSide {
    srv.(subs := srv.subs - {h}, outbox := srv.outbox - {h})
  }

  /** The 32-bit counter wraps around. */
  function NextId(srv: ServerSide): u32 {
    (srv.nextId + 1) % ID_SPACE
  }

  /** `emplace` keeps an entry that already has the id. */
  function AddChannel(srv: ServerSide, info: ChannelWithoutId): ServerSide {
    var id := NextId(srv);
    srv.(nextId := id,
         channels := if id in srv.channels then srv.channels
                     else srv.channels[id := Channel(id, info)])
  }

  function RemoveChannel(srv: ServerSide, id: u32): ServerSide {
    SendAll(srv.(channels := srv.channels - {id},
                 subs := map h | h in srv.subs :: srv.subs[h] - {id}),
            Unadvertise(id))
  }

  function BroadcastChannels(srv: ServerSide): ServerSide {
    SendAll(srv, Advertise(srv.channels))
  }

  predicate UsesSubscriptionId(m: map<u32, u32>, subId: u32) {
    exists c :: c in m && m[c] == subId
  }

  /** The linear search by subscription id. */
  ghost function FindBySubscriptionId(m: map<u32, u32>, subId: u32): (c: Option<u32>)
    ensures c.None? <==> !UsesSubscriptionId(m, subId)
    ensures c.Some? ==> c.value in m && m[c.value] == subId
  {
    if UsesSubscriptionId(m, subId) then
      var c :| c in m && m[c] == subId;
      Some(c)
    else None
  }

  /** One item of a subscribe batch, up to the call of the subscribe handler. */
  function SubscribeServer(srv: ServerSide, h: Handle, subId: u32, c: u32): ServerSide
    requires h in srv.subs
  {
    if UsesSubscriptionId(srv.subs[h], subId) then Send(srv, h, [Status(Error)])
    else if c !in srv.channels then Send(srv, h, [Status(Warning)])
    else if c in srv.subs[h] then srv
    else
      var added: map<u32, u32> := map[c := subId];
      srv.(subs := srv.subs[h := srv.subs[h] + added])
  }

  predicate SubscribeAccepted(srv: ServerSide, h: Handle, subId: u32, c: u32)
    requires h in srv.subs
  {
    !UsesSubscriptionId(srv.subs[h], subId) && c in srv.channels
  }

  /** One item of an unsubscribe batch, up to the call of the unsubscribe handler. */
  ghost function UnsubscribeServer(srv: ServerSide, h: Handle, subId: u32): ServerSide
    requires h in srv.subs
  {
    match FindBySubscriptionId(srv.subs[h], subId)
    case None => Send(srv, h, [Status(Warning)])
    case Some(c) => srv.(subs := srv.subs[h := srv.subs[h] - {c}])
  }

  /** The locked lookup of `sendMessage`. */
  function LookupSubscription(srv: ServerSide, h: Handle, c: u32): Option<u32> {
    if h in srv.subs && c in srv.subs[h] then Some(srv.subs[h][c]) else None
  }

  // ------------------------------------------------------------------ bridge side

  /** A ROS subscription together with the arguments bound into its callback. */
  datatype Subscriber = Subscriber(channel: Channel, client: Handle)

  /** `failed` records the (channel, client) pairs whose last creation attempt failed. */
  datatype BridgeSide = BridgeSide(
    advertised: map<Topic, Channel>,
    channelTopic: map<u32, Topic>,
    subscriptions: map<u32, map<Handle, Subscriber>>,
    failed: set<(u32, Handle)>)

  const NoBridge := BridgeSide(map[], map[], map[], {})

  predicate Entry(br: BridgeSide, c: u32, h: Handle) {
    c in br.subscriptions && h in br.subscriptions[c]
  }

  /** The two early returns for a channel the bridge does not know. */
  predicate HandlerFindsChannel(br: BridgeSide, c: u32) {
    c in br.channelTopic && br.channelTopic[c] in br.advertised
  }

  function ClientsOf(br: BridgeSide, c: u32): map<Handle, Subscriber> {
    if c in br.subscriptions then br.subscriptions[c] else map[]
  }

  /** `created` says whether ROS manages to create the subscription. */
  function SubscribeHandler(br: BridgeSide, c: u32, h: Handle, created: bool): BridgeSide {
    if !HandlerFindsChannel(br, c) then br
    else
      var clients := ClientsOf(br, c);
      if h in clients then br
      else if created then
        var subscriber := Subscriber(br.advertised[br.channelTopic[c]], h);
        br.(subscriptions := br.subscriptions[c := clients[h := subscriber]],
            failed := br.failed - {(c, h)})
      else
        br.(subscriptions := br.subscriptions[c := clients], failed := br.failed + {(c, h)})
  }

  function UnsubscribeHandler(br: BridgeSide, c: u32, h: Handle): BridgeSide {
    if !Entry(br, c, h) then br
    else
      var clients := br.subscriptions[c] - {h};
      br.(subscriptions := if clients == map[] then br.subscriptions - {c}
                           else br.subscriptions[c := clients])
  }

  /** The bridge's part of removing a topic. */
  function EraseTopic(br: BridgeSide, t: Topic): BridgeSide
    requires t in br.advertised
  {
    var id := br.advertised[t].id;
    br.(subscriptions := br.subscriptions - {id},
        channelTopic := br.channelTopic - {id},
        advertised := br.advertised - {t})
  }

  /** The bridge's part of adding a topic: two `emplace` calls. */
  function InsertTopic(br: BridgeSide, t: Topic, ch: Channel): BridgeSide {
    br.(advertised := if t in br.advertised then br.advertised else br.advertised[t := ch],
        channelTopic := if ch.id in br.channelTopic then br.channelTopic
                        else br.channelTopic[ch.id := t])
  }

  // ------------------------------------------------------------------ schema lookup

  datatype Ros = Ros1 | Ros2

  /** Outcome of looking up the definition of a data type: found, not found, or an exception. */
  datatype SchemaLookup = Found(schema: string) | Missing | Failed

  /** The channel to advertise for a topic; `None` when the topic is skipped. */
  function NewChannel(ros: Ros, t: Topic, lookup: SchemaLookup): Option<ChannelWithoutId> {
    var encoding := if ros.Ros1? then "ros1" else "cdr";
    match lookup
    case Found(schema) => Some(ChannelWithoutId(t.name, encoding, t.datatypeName, schema))
    case Missing =>
      Some(ChannelWithoutId(t.name, if ros.Ros1? then "ros1" else "", t.datatypeName, ""))
    case Failed => None
  }

  function TopicsOf(added: seq<(Topic, SchemaLookup)>): seq<Topic> {
    seq(|added|, i requires 0 <= i < |added| => added[i].0)
  }

  // ------------------------------------------------------------------ batches

  /** Both sides of the registry. */
  datatype Sides = Sides(server: ServerSide, bridge: BridgeSide)

  /** An item that does not parse throws; `created` is what ROS would answer for this item. */
  datatype SubscribeItem = BadSubscribe | Subscribe(subId: u32, channelId: u32, created: bool)

  /** A subscribe batch, run without interference.  An exception ends it with an error status. */
  function SubscribeBatch(s: Sides, h: Handle, items: seq<SubscribeItem>): Sides
    requires h in s.server.subs
    decreases |items|
  {
    if items == [] then s
    else match items[0]
      case BadSubscribe => s.(server := Send(s.server, h, [Status(Error)]))
      case Subscribe(subId, c, created) =>
        SubscribeBatch(
          Sides(SubscribeServer(s.server, h, subId, c),
                if SubscribeAccepted(s.server, h, subId, c)
                then SubscribeHandler(s.bridge, c, h, created) else s.bridge),
          h, items[1..])
  }

  /** An unsubscribe batch; `None` is an item that does not parse. */
  ghost function UnsubscribeBatch(s: Sides, h: Handle, items: seq<Option<u32>>): Sides
    requires h in s.server.subs
    decreases |items|
  {
    if items == [] then s
    else match items[0]
      case None => s.(server := Send(s.server, h, [Status(Error)]))
      case Some(subId) =>
        UnsubscribeBatch(
          Sides(UnsubscribeServer(s.server, h, subId),
                match FindBySubscriptionId(s.server.subs[h], subId)
                case None => s.bridge
                case Some(c) => UnsubscribeHandler(s.bridge, c, h)),
          h, items[1..])
  }

  /** The unsubscribe loop of a closed connection. */
  function UnsubscribeAll(br: BridgeSide, h: Handle, cs: seq<u32>): BridgeSide
    decreases |cs|
  {
    if cs == [] then br else UnsubscribeAll(UnsubscribeHandler(br, cs[0], h), h, cs[1..])
  }

  /** The removal loop of `updateAdvertisedTopics`. */
  function RemoveTopics(s: Sides, removed: seq<Topic>): Sides
    decreases |removed|
  {
    if removed == [] then s
    else if removed[0] !in s.bridge.advertised then s   // `at` would throw
    else
      var id := s.bridge.advertised[removed[0]].id;
      RemoveTopics(Sides(RemoveChannel(s.server, id), EraseTopic(s.bridge, removed[0])),
                   removed[1..])
  }

  /** The advertising loop of `updateAdvertisedTopics`. */
  function AddTopics(ros: Ros, s: Sides, added: seq<(Topic, SchemaLookup)>): Sides
    decreases |added|
  {
    if added == [] then s
    else match NewChannel(ros, added[0].0, added[0].1)
      case None => AddTopics(ros, s, added[1..])
      case Some(info) =>
        AddTopics(ros,
                  Sides(AddChannel(s.server, info),
                        InsertTopic(s.bridge, added[0].0, Channel(NextId(s.server), info))),
                  added[1..])
  }

  /** One whole `updateAdvertisedTopics`, run without interference. */
  function UpdateTopics(ros: Ros, s: Sides, removed: seq<Topic>,
                        added: seq<(Topic, SchemaLookup)>): Sides
  {
    var done := AddTopics(ros, RemoveTopics(s, removed), added);
    if added == [] then done else done.(server := BroadcastChannels(done.server))
  }
}
