/** What every step of either thread keeps, as long as no live channel id is issued again. */
module Invariant {
  import opened Common
  import opened Registry
  import opened ClientView
  import opened Interleaving

  ghost predicate Names(ch: Channel, t: Topic) {
    ch.info.topic == t.name && ch.info.schemaName == t.datatypeName
  }

  /** `_advertisedTopics` and `_channelToTopicAndDatatype` are inverse to each other. */
  ghost predicate MapsOk(br: BridgeSide) {
    && (forall t | t in br.advertised ::
          && Names(br.advertised[t], t)
          && br.advertised[t].id in br.channelTopic
          && br.channelTopic[br.advertised[t].id] == t)
    && (forall c | c in br.channelTopic ::
          && br.channelTopic[c] in br.advertised
          && br.advertised[br.channelTopic[c]].id == c)
  }

  /** The bridge's channels by id. */
  function Announced(br: BridgeSide): map<u32, Channel> {
    map c | c in br.channelTopic && br.channelTopic[c] in br.advertised ::
      br.advertised[br.channelTopic[c]]
  }

  /** The server lists the bridge's channels, but for the one the graph thread is moving. */
  ghost predicate AgreeOk(channels: map<u32, Channel>, br: BridgeSide, g: GraphPc) {
    match g
    case Erasing(t, _, _) => t in br.advertised && channels == Announced(br) - {br.advertised[t].id}
    case Inserting(t, ch, _, _) =>
      && t !in br.advertised && Names(ch, t) && ch.id !in br.channelTopic
      && channels == Announced(br)[ch.id := ch]
    case _ => channels == Announced(br)
  }

  /** The bridge subscribes to its own channels, each callback bound to its channel and client. */
  ghost predicate EntriesOk(br: BridgeSide) {
    && br.subscriptions.Keys <= Announced(br).Keys
    && (forall c: u32, h: Handle | Entry(br, c, h) ::
          br.subscriptions[c][h] == Subscriber(Announced(br)[c], h) && (c, h) !in br.failed)
  }

  // The three cases in which the bridge may hold a subscription that the server does not.

  predicate UnsubscribePending(ws: WsPc, c: u32, h: Handle) {
    ws.UnsubscribeCall? && ws.h == h && ws.c == c
  }

  predicate ClosePending(ws: WsPc, c: u32, h: Handle) {
    ws.Closing? && ws.h == h && c in ws.pending
  }

  predicate RemovalPending(br: BridgeSide, g: GraphPc, c: u32) {
    g.Erasing? && g.t in br.advertised && br.advertised[g.t].id == c
  }

  /** The server has accepted a subscription that the bridge has not heard of. */
  predicate SubscribePending(ws: WsPc, c: u32, h: Handle) {
    ws.SubscribeCall? && ws.h == h && ws.c == c
  }

  ghost predicate ForwardOk(srv: ServerSide, br: BridgeSide, ws: WsPc, g: GraphPc) {
    forall c: u32, h: Handle | Entry(br, c, h) ::
      || Subscribed(srv, h, c)
      || UnsubscribePending(ws, c, h)
      || ClosePending(ws, c, h)
      || RemovalPending(br, g, c)
  }

  ghost predicate BackwardOk(srv: ServerSide, br: BridgeSide, ws: WsPc) {
    forall h: Handle, c: u32 | Subscribed(srv, h, c) ::
      Entry(br, c, h) || (c, h) in br.failed || SubscribePending(ws, c, h)
  }

  ghost predicate WsOk(srv: ServerSide, ws: WsPc) {
    match ws
    case WsIdle => true
    case Subscribing(h, _) => h in srv.subs
    case SubscribeCall(h, c, _, _) => Subscribed(srv, h, c) && c in srv.channels
    case Unsubscribing(h, _) => h in srv.subs
    case UnsubscribeCall(h, c, _) => h in srv.subs && !Subscribed(srv, h, c) && c in srv.channels
    case Closing(h, _) => h !in srv.subs
  }

  // ------------------------------------------------------------------ progress of one update

  function Kept(p: Pass): set<Topic> {
    p.before.Keys * p.latest
  }

  function Gained(p: Pass): set<Topic> {
    (p.latest - p.before.Keys) * p.described.Keys
  }

  /** `described` holds what the topic's lookup gives, if anything. */
  predicate LookedUp(ros: Ros, topic: (Topic, SchemaLookup),
                     described: map<Topic, ChannelWithoutId>)
  {
    NewChannel(ros, topic.0, topic.1)
    == if topic.0 in described then Some(described[topic.0]) else None
  }

  ghost predicate AddedOk(ros: Ros, p: Pass, added: seq<(Topic, SchemaLookup)>) {
    && Distinct(TopicsOf(added))
    && Elements(TopicsOf(added)) <= p.latest - p.before.Keys
    && (forall i | 0 <= i < |added| :: LookedUp(ros, added[i], p.described))
  }

  ghost predicate RemovedOk(p: Pass, removed: seq<Topic>) {
    Distinct(removed) && Elements(removed) <= p.before.Keys - p.latest
  }

  ghost predicate AllAdded(p: Pass, added: seq<(Topic, SchemaLookup)>) {
    Elements(TopicsOf(added)) == p.latest - p.before.Keys
  }

  /** The topics advertised at each point of an update. */
  ghost predicate PassOk(ros: Ros, topics: set<Topic>, g: GraphPc, p: Pass) {
    match g
    case GraphIdle => topics == Kept(p) + Gained(p)
    case Broadcasting => topics == Kept(p) + Gained(p)
    case Diffed(removed, added) =>
      && RemovedOk(p, removed) && AddedOk(ros, p, added) && AllAdded(p, added)
      && topics == Kept(p) + Elements(removed)
    case Removing(removed, added) =>
      && RemovedOk(p, removed) && AddedOk(ros, p, added) && AllAdded(p, added)
      && topics == Kept(p) + Elements(removed)
    case Erasing(t, removed, added) =>
      && RemovedOk(p, [t] + removed) && AddedOk(ros, p, added) && AllAdded(p, added)
      && topics == Kept(p) + Elements([t] + removed)
    case Adding(added, _) =>
      && AddedOk(ros, p, added)
      && topics == Kept(p) + (Gained(p) - Elements(TopicsOf(added)))
    case Inserting(t, _, added, _) =>
      && AddedOk(ros, p, added) && t in Gained(p) && t !in TopicsOf(added)
      && topics == Kept(p) + (Gained(p) - Elements(TopicsOf(added)) - {t})
  }

  /** A topic that an update keeps also keeps its channel. */
  ghost predicate SurvivorsOk(advertised: map<Topic, Channel>, p: Pass) {
    forall t | t in advertised && t in p.before :: advertised[t] == p.before[t]
  }

  /** A topic that an update adds says what its lookup gave. */
  ghost predicate DescribedOk(advertised: map<Topic, Channel>, g: GraphPc, p: Pass) {
    && (forall t | t in advertised && t !in p.before ::
          t in p.described && advertised[t].info == p.described[t])
    && (g.Inserting? ==> g.t in p.described && g.ch.info == p.described[g.t])
  }

  /** Channels wait for a broadcast only while one is due. */
  ghost predicate UnannouncedOk(g: GraphPc, unannounced: set<u32>) {
    match g
    case Adding(added, announce) => announce || (added == [] && unannounced == {})
    case Inserting(_, _, _, announce) => announce
    case Broadcasting => true
    case _ => unannounced == {}
  }

  // ------------------------------------------------------------------ the invariant

  /** The subscriptions of the two sides match, up to what is in flight. */
  ghost predicate LinksOk(srv: ServerSide, br: BridgeSide, ws: WsPc, g: GraphPc) {
    ForwardOk(srv, br, ws, g) && BackwardOk(srv, br, ws) && WsOk(srv, ws)
  }

  /** How the two sides of the registry fit together. */
  ghost predicate RegistryOk(srv: ServerSide, br: BridgeSide, ws: WsPc, g: GraphPc) {
    && MapsOk(br)
    && AgreeOk(srv.channels, br, g)
    && EntriesOk(br)
    && LinksOk(srv, br, ws, g)
  }

  ghost predicate AnnouncementsOk(srv: ServerSide, g: GraphPc, unannounced: set<u32>) {
    ServerOk(srv, unannounced) && UnannouncedOk(g, unannounced)
  }

  ghost predicate UpdateOk(ros: Ros, advertised: map<Topic, Channel>, g: GraphPc, p: Pass) {
    PassOk(ros, advertised.Keys, g, p) && SurvivorsOk(advertised, p) && DescribedOk(advertised, g, p)
  }

  ghost predicate Core(s: System) {
    && RegistryOk(s.server, s.bridge, s.ws, s.graph)
    && UpdateOk(s.ros, s.bridge.advertised, s.graph, s.pass)
  }

  // ------------------------------------------------------------------ registry, WebSocket thread

  lemma OpenRegistry(srv: ServerSide, br: BridgeSide, g: GraphPc, h: Handle)
    requires RegistryOk(srv, br, WsIdle, g)
    ensures RegistryOk(OpenConnection(srv, h), br, WsIdle, g)
  {
    var srv' := OpenConnection(srv, h);
    assert forall h': Handle, c: u32 :: Subscribed(srv', h', c) <==> Subscribed(srv, h', c);
  }

  lemma CloseRegistry(srv: ServerSide, br: BridgeSide, g: GraphPc, h: Handle, order: seq<u32>)
    requires RegistryOk(srv, br, WsIdle, g)
    requires h in srv.subs && Elements(order) == srv.subs[h].Keys
    ensures RegistryOk(EraseClient(srv, h), br, Closing(h, order), g)
  {
    var srv' := EraseClient(srv, h);
    forall h': Handle, c: u32 ensures Subscribed(srv', h', c) <==> Subscribed(srv, h', c) && h' != h {}
    forall c: u32 ensures Subscribed(srv, h, c) <==> c in order {
      assert c in Elements(order) <==> c in order;
    }
  }

  /** Messages change nothing in the registry. */
  lemma SendRegistry(srv: ServerSide, br: BridgeSide, ws: WsPc, g: GraphPc, h: Handle,
                     msgs: seq<ServerMessage>)
    requires RegistryOk(srv, br, ws, g)
    ensures RegistryOk(Send(srv, h, msgs), br, ws, g)
  {
    var srv' := Send(srv, h, msgs);
    assert forall h': Handle, c: u32 :: Subscribed(srv', h', c) <==> Subscribed(srv, h', c);
  }

  lemma SubscribeItemEntries(srv: ServerSide, h: Handle, subId: u32, c: u32)
    requires h in srv.subs
    ensures var srv' := SubscribeServer(srv, h, subId, c);
      && srv'.channels == srv.channels && srv'.subs.Keys == srv.subs.Keys
      && (SubscribeAccepted(srv, h, subId, c) ==> c in srv.channels)
      && forall h': Handle, c': u32 ::
           Subscribed(srv', h', c') <==>
           Subscribed(srv, h', c') || (SubscribeAccepted(srv, h, subId, c) && h' == h && c' == c)
  {}

  lemma SubscribeItemLinks(srv: ServerSide, br: BridgeSide, g: GraphPc, h: Handle,
                           items: seq<SubscribeItem>, subId: u32, c: u32, created: bool)
    requires LinksOk(srv, br, Subscribing(h, items), g) && items != []
    ensures var srv' := SubscribeServer(srv, h, subId, c);
      LinksOk(srv', br,
              if SubscribeAccepted(srv, h, subId, c) then SubscribeCall(h, c, created, items[1..])
              else Subscribing(h, items[1..]), g)
  {
    SubscribeItemEntries(srv, h, subId, c);
  }

  lemma SubscribeItemRegistry(srv: ServerSide, br: BridgeSide, g: GraphPc, h: Handle,
                              items: seq<SubscribeItem>, subId: u32, c: u32, created: bool)
    requires RegistryOk(srv, br, Subscribing(h, items), g) && items != []
    ensures var srv' := SubscribeServer(srv, h, subId, c);
      RegistryOk(srv', br,
                 if SubscribeAccepted(srv, h, subId, c) then SubscribeCall(h, c, created, items[1..])
                 else Subscribing(h, items[1..]), g)
  {
    SubscribeItemLinks(srv, br, g, h, items, subId, c, created);
  }

  /** The channel of an accepted subscription is known to the bridge when its handler runs. */
  lemma SubscribeCallFindsChannel(srv: ServerSide, br: BridgeSide, ws: WsPc, g: GraphPc)
    requires RegistryOk(srv, br, ws, g) && ws.SubscribeCall? && !HoldsSubscriptionsMutex(g)
    ensures HandlerFindsChannel(br, ws.c)
  {
    assert ws.c in Announced(br);
  }

  /** The subscribe handler leaves exactly one more entry or failure. */
  lemma SubscribeHandlerEntries(br: BridgeSide, c: u32, h: Handle, created: bool)
    requires HandlerFindsChannel(br, c) && EntriesOk(br)
    ensures var br' := SubscribeHandler(br, c, h, created);
      && br'.advertised == br.advertised && br'.channelTopic == br.channelTopic
      && EntriesOk(br')
      && (Entry(br', c, h) || (c, h) in br'.failed)
      && (!Entry(br, c, h) ==>
            && (Entry(br', c, h) <==> created)
            && ((c, h) in br'.failed <==> !created))
      && (forall c': u32, h': Handle | !(c' == c && h' == h) ::
            && (Entry(br', c', h') <==> Entry(br, c', h'))
            && ((c', h') in br'.failed <==> (c', h') in br.failed))
  {
    var br' := SubscribeHandler(br, c, h, created);
    assert Announced(br') == Announced(br);
  }

  lemma SameMaps(channels: map<u32, Channel>, br: BridgeSide, br': BridgeSide, g: GraphPc)
    requires br'.advertised == br.advertised && br'.channelTopic == br.channelTopic
    requires MapsOk(br) && AgreeOk(channels, br, g)
    ensures MapsOk(br') && AgreeOk(channels, br', g)
  {
    assert Announced(br') == Announced(br);
  }

  lemma SubscribeCallRegistry(srv: ServerSide, br: BridgeSide, ws: WsPc, g: GraphPc)
    requires RegistryOk(srv, br, ws, g) && ws.SubscribeCall? && !HoldsSubscriptionsMutex(g)
    ensures RegistryOk(srv, SubscribeHandler(br, ws.c, ws.h, ws.created),
                       Subscribing(ws.h, ws.items), g)
  {
    SubscribeCallFindsChannel(srv, br, ws, g);
    SubscribeHandlerEntries(br, ws.c, ws.h, ws.created);
    var br' := SubscribeHandler(br, ws.c, ws.h, ws.created);
    SameMaps(srv.channels, br, br', g);
    SubscribeCallLinks(srv, br, br', ws, g);
  }

  lemma SubscribeCallLinks(srv: ServerSide, br: BridgeSide, br': BridgeSide, ws: WsPc, g: GraphPc)
    requires ws.SubscribeCall? && LinksOk(srv, br, ws, g) && br'.advertised == br.advertised
    requires Entry(br', ws.c, ws.h) || (ws.c, ws.h) in br'.failed
    requires forall c: u32, h: Handle | !(c == ws.c && h == ws.h) ::
               && (Entry(br', c, h) <==> Entry(br, c, h))
               && ((c, h) in br'.failed <==> (c, h) in br.failed)
    ensures LinksOk(srv, br', Subscribing(ws.h, ws.items), g)
  {}

  lemma UnsubscribeItemEntries(srv: ServerSide, h: Handle, subId: u32)
    requires h in srv.subs
    ensures var srv' := UnsubscribeServer(srv, h, subId);
      && srv'.channels == srv.channels && srv'.subs.Keys == srv.subs.Keys
      && forall h': Handle, c': u32 ::
           Subscribed(srv', h', c') <==>
           Subscribed(srv, h', c') && !(h' == h && FindBySubscriptionId(srv.subs[h], subId) == Some(c'))
  {}

  lemma UnsubscribeItemLinks(srv: ServerSide, br: BridgeSide, g: GraphPc, h: Handle,
                             ids: seq<Option<u32>>, subId: u32)
    requires LinksOk(srv, br, Unsubscribing(h, ids), g) && ids != []
    requires SubscriptionsOk(srv.subs[h], srv.channels)
    ensures LinksOk(UnsubscribeServer(srv, h, subId), br,
                    match FindBySubscriptionId(srv.subs[h], subId)
                    case None => Unsubscribing(h, ids[1..])
                    case Some(c) => UnsubscribeCall(h, c, ids[1..]), g)
  {
    UnsubscribeItemEntries(srv, h, subId);
  }

  lemma UnsubscribeItemRegistry(srv: ServerSide, br: BridgeSide, g: GraphPc, h: Handle,
                                ids: seq<Option<u32>>, subId: u32)
    requires RegistryOk(srv, br, Unsubscribing(h, ids), g) && ids != []
    requires SubscriptionsOk(srv.subs[h], srv.channels)
    ensures RegistryOk(UnsubscribeServer(srv, h, subId), br,
                       match FindBySubscriptionId(srv.subs[h], subId)
                       case None => Unsubscribing(h, ids[1..])
                       case Some(c) => UnsubscribeCall(h, c, ids[1..]), g)
  {
    UnsubscribeItemLinks(srv, br, g, h, ids, subId);
  }

  /** The unsubscribe handler removes exactly one entry, and a channel with its last client. */
  lemma UnsubscribeHandlerEntries(br: BridgeSide, c: u32, h: Handle)
    requires EntriesOk(br)
    ensures var br' := UnsubscribeHandler(br, c, h);
      && br'.advertised == br.advertised && br'.channelTopic == br.channelTopic
      && br'.failed == br.failed
      && EntriesOk(br')
      && (forall c': u32, h': Handle ::
            Entry(br', c', h') <==> Entry(br, c', h') && !(c' == c && h' == h))
      && (Entry(br, c, h) && c in br'.subscriptions ==> exists h' :: Entry(br', c, h'))
  {
    var br' := UnsubscribeHandler(br, c, h);
    assert Announced(br') == Announced(br);
    if Entry(br, c, h) && c in br'.subscriptions {
      var h' :| h' in br'.subscriptions[c];
      assert Entry(br', c, h');
    }
    if Entry(br, c, h) {
      var clients := br.subscriptions[c] - {h};
      forall h': Handle | h' in br.subscriptions[c] && h' != h ensures clients != map[] {
        assert h' in clients;
      }
    }
  }

  lemma UnsubscribeCallRegistry(srv: ServerSide, br: BridgeSide, ws: WsPc, g: GraphPc)
    requires RegistryOk(srv, br, ws, g) && ws.UnsubscribeCall? && !HoldsSubscriptionsMutex(g)
    ensures RegistryOk(srv, UnsubscribeHandler(br, ws.c, ws.h), Unsubscribing(ws.h, ws.ids), g)
  {
    UnsubscribeHandlerEntries(br, ws.c, ws.h);
    SameMaps(srv.channels, br, UnsubscribeHandler(br, ws.c, ws.h), g);
  }

  lemma ClosingLinks(srv: ServerSide, br: BridgeSide, br': BridgeSide, ws: WsPc, g: GraphPc)
    requires ws.Closing? && ws.pending != [] && LinksOk(srv, br, ws, g)
    requires br'.advertised == br.advertised && br'.failed == br.failed
    requires forall c: u32, h: Handle ::
               Entry(br', c, h) <==> Entry(br, c, h) && !(c == ws.pending[0] && h == ws.h)
    ensures LinksOk(srv, br', Closing(ws.h, ws.pending[1..]), g)
  {
    assert forall c | c in ws.pending :: c == ws.pending[0] || c in ws.pending[1..];
  }

  lemma ClosingRegistry(srv: ServerSide, br: BridgeSide, ws: WsPc, g: GraphPc)
    requires RegistryOk(srv, br, ws, g) && ws.Closing? && ws.pending != []
    requires !HoldsSubscriptionsMutex(g)
    ensures RegistryOk(srv, UnsubscribeHandler(br, ws.pending[0], ws.h),
                       Closing(ws.h, ws.pending[1..]), g)
  {
    var br' := UnsubscribeHandler(br, ws.pending[0], ws.h);
    UnsubscribeHandlerEntries(br, ws.pending[0], ws.h);
    SameMaps(srv.channels, br, br', g);
    ClosingLinks(srv, br, br', ws, g);
  }

  // ------------------------------------------------------------------ registry, graph thread

  lemma RemoveRegistry(srv: ServerSide, br: BridgeSide, ws: WsPc, g: GraphPc)
    requires RegistryOk(srv, br, ws, g) && g.Removing? && g.removed != []
    requires g.removed[0] in br.advertised && !HoldsServerMutex(ws)
    ensures RegistryOk(RemoveChannel(srv, br.advertised[g.removed[0]].id), br, ws,
                       Erasing(g.removed[0], g.removed[1..], g.added))
  {
    var id := br.advertised[g.removed[0]].id;
    var srv' := RemoveChannel(srv, id);
    forall h: Handle, c: u32 ensures Subscribed(srv', h, c) <==> Subscribed(srv, h, c) && c != id {}
  }

  lemma EraseMaps(channels: map<u32, Channel>, br: BridgeSide, g: GraphPc)
    requires g.Erasing? && MapsOk(br) && AgreeOk(channels, br, g) && EntriesOk(br)
    ensures var br' := EraseTopic(br, g.t);
      && MapsOk(br') && AgreeOk(channels, br', Removing(g.removed, g.added)) && EntriesOk(br')
      && br'.failed == br.failed && channels.Keys == Announced(br').Keys
      && (forall c: u32, h: Handle ::
            Entry(br', c, h) <==> Entry(br, c, h) && c != br.advertised[g.t].id)
  {
    var br' := EraseTopic(br, g.t);
    assert Announced(br') == Announced(br) - {br.advertised[g.t].id};
  }

  lemma EraseRegistry(srv: ServerSide, br: BridgeSide, ws: WsPc, g: GraphPc)
    requires RegistryOk(srv, br, ws, g) && g.Erasing?
    requires forall h: Handle, c: u32 | Subscribed(srv, h, c) :: c in srv.channels
    ensures RegistryOk(srv, EraseTopic(br, g.t), ws, Removing(g.removed, g.added))
  {
    EraseMaps(srv.channels, br, g);
  }

  lemma AddRegistry(srv: ServerSide, br: BridgeSide, ws: WsPc, g: GraphPc, info: ChannelWithoutId)
    requires RegistryOk(srv, br, ws, g) && g.Adding? && g.added != [] && !HoldsServerMutex(ws)
    requires NextId(srv) !in srv.channels
    requires g.added[0].0 !in br.advertised
    requires Names(Channel(NextId(srv), info), g.added[0].0)
    ensures RegistryOk(AddChannel(srv, info), br, ws,
                       Inserting(g.added[0].0, Channel(NextId(srv), info), g.added[1..], g.announce))
  {
    var srv' := AddChannel(srv, info);
    assert Announced(br).Keys == br.channelTopic.Keys;
    assert forall h': Handle, c: u32 :: Subscribed(srv', h', c) <==> Subscribed(srv, h', c);
  }

  lemma InsertAnnounced(br: BridgeSide, t: Topic, ch: Channel)
    requires MapsOk(br) && t !in br.advertised && ch.id !in br.channelTopic && Names(ch, t)
    ensures MapsOk(InsertTopic(br, t, ch))
    ensures Announced(InsertTopic(br, t, ch)) == Announced(br)[ch.id := ch]
  {}

  lemma InsertMaps(channels: map<u32, Channel>, br: BridgeSide, g: GraphPc)
    requires g.Inserting? && MapsOk(br) && AgreeOk(channels, br, g) && EntriesOk(br)
    ensures var br' := InsertTopic(br, g.t, g.ch);
      && MapsOk(br') && AgreeOk(channels, br', Adding(g.added, g.announce)) && EntriesOk(br')
      && br'.failed == br.failed
      && (forall c: u32, h: Handle :: Entry(br', c, h) <==> Entry(br, c, h))
  {
    InsertAnnounced(br, g.t, g.ch);
    assert g.ch.id !in Announced(br);
  }

  lemma InsertRegistry(srv: ServerSide, br: BridgeSide, ws: WsPc, g: GraphPc)
    requires RegistryOk(srv, br, ws, g) && g.Inserting?
    ensures RegistryOk(srv, InsertTopic(br, g.t, g.ch), ws, Adding(g.added, g.announce))
  {
    InsertMaps(srv.channels, br, g);
  }
}
