/**
 The two objects that keep the registry, with the loops of their handlers.  Each method is
 specified by the function of the same critical section or batch on the abstract state.
 */
module Components {
  import opened Common
  import opened Registry
  import opened Messages
  import P = Publications
  import D = Definitions
  import C = DefinitionCache
  import F = Frames
  import Q = Qos
  import T = PublicationSafety
  import SE = SubscriptionEffects

  // ------------------------------------------------------------------ folding from the other end

  lemma SendTwice(srv: ServerSide, h: Handle, a: seq<StatusLevel>, b: seq<StatusLevel>)
    ensures Send(Send(srv, h, Replies(a)), h, Replies(b)) == Send(srv, h, Replies(a + b))
  {
    assert Replies(a + b) == Replies(a) + Replies(b);
    if h in srv.outbox {
      assert srv.outbox[h] + Replies(a) + Replies(b) == srv.outbox[h] + (Replies(a) + Replies(b));
    }
  }

  lemma SendNothing(srv: ServerSide, h: Handle)
    ensures Send(srv, h, Replies([])) == srv
  {
    assert h in srv.outbox ==> srv.outbox[h] + Replies([]) == srv.outbox[h];
  }

  /** After `sent`, a message still does `rest`; all of it together is `whole`. */
  ghost predicate Sending(sent: seq<StatusLevel>, rest: P.Outcome, whole: P.Outcome) {
    whole == P.Outcome(rest.tables, sent + rest.replies)
  }

  /** One step of the loop over the items of an advertise message. */
  lemma AdvertiseItemsStep(p: P.Tables, h: Handle, first: bool, items: seq<P.AdvertiseItem>, i: nat,
                           sent: seq<StatusLevel>, whole: P.Outcome)
    requires h in p.advertised && i < |items|
    requires Sending(sent, P.AdvertiseItems(Ros2, p, h, first, items[i..]), whole)
    ensures var one := P.AdvertiseOne(Ros2, p, h, first, items[i]);
      if one.stop then whole == P.Outcome(one.tables, sent + one.replies)
      else Sending(sent + one.replies, P.AdvertiseItems(Ros2, one.tables, h, first, items[i + 1..]), whole)
  {
    assert items[i..][1..] == items[i + 1..];
    var one := P.AdvertiseOne(Ros2, p, h, first, items[i]);
    if !one.stop {
      var rest := P.AdvertiseItems(Ros2, one.tables, h, first, items[i + 1..]);
      assert sent + (one.replies + rest.replies) == (sent + one.replies) + rest.replies;
    }
  }

  /** One step of the topic loop. */
  lemma AddTopicsStep(ros: Ros, s: Sides, added: seq<(Topic, SchemaLookup)>, i: nat)
    requires i < |added|
    ensures Registry.AddTopics(ros, s, added[i..])
            == match NewChannel(ros, added[i].0, added[i].1)
               case None => Registry.AddTopics(ros, s, added[i + 1..])
               case Some(info) =>
                 Registry.AddTopics(
                   ros,
                   Sides(AddChannel(s.server, info),
                         InsertTopic(s.bridge, added[i].0, Channel(NextId(s.server), info))),
                   added[i + 1..])
  {
    assert added[i..][1..] == added[i + 1..];
  }

  lemma {:induction false} UnsubscribeAllSnoc(br: BridgeSide, h: Handle, cs: seq<u32>, c: u32)
    ensures UnsubscribeAll(br, h, cs + [c]) == UnsubscribeHandler(UnsubscribeAll(br, h, cs), c, h)
    decreases |cs|
  {
    if cs == [] {
      assert [c][1..] == [];
    } else {
      UnsubscribeAllSnoc(UnsubscribeHandler(br, cs[0], h), h, cs[1..], c);
      assert (cs + [c])[1..] == cs[1..] + [c];
    }
  }

  lemma UnadvertiseAllStep(publishers: P.PublisherTable, h: Handle, done: set<u32>, id: u32)
    ensures P.UnadvertiseHandler(P.UnadvertiseAll(publishers, h, done), h, id)
            == P.UnadvertiseAll(publishers, h, done + {id})
  {
    var mine := P.PublishersOf(publishers, h);
    var before := P.UnadvertiseAll(publishers, h, done);
    assert P.PublishersOf(before, h) == mine - done;
    assert mine - (done + {id}) == (mine - done) - {id};
    if id !in mine - done {
      assert mine - (done + {id}) == mine - done;
    } else {
      assert (mine - done) - {id} != mine;
    }
  }

  lemma EnumeratesSnoc<T(!new)>(order: seq<T>, s: set<T>, x: T)
    requires Enumerates(order, s) && x !in s
    ensures Enumerates(order + [x], s + {x})
  {
    assert x !in Elements(order);
    assert Elements(order + [x]) == Elements(order) + {x};
  }

  // ------------------------------------------------------------------ the bridge

  /** What `get_full_text` means for an advertisement. */
  ghost function LookupOf(files: D.Files, t: Topic): SchemaLookup {
    match D.FullText(files, t.datatypeName)
    case Ok((_, schema)) => Found(schema)
    case Err(NotFound) => Missing
    case Err(Other) => Failed
  }

  ghost function WithLookup(files: D.Files, topics: seq<Topic>): seq<(Topic, SchemaLookup)> {
    seq(|topics|, i requires 0 <= i < |topics| => (topics[i], LookupOf(files, topics[i])))
  }

  /** The ROS 2 bridge. */
  class FoxgloveBridge {
    var advertisedTopics: map<Topic, Channel>
    var channelToTopicAndDatatype: map<u32, Topic>
    var subscriptions: map<u32, map<Handle, Subscriber>>
    var clientAdvertisedTopics: P.PublisherTable
    const messageDefinitionCache: C.MessageDefinitionCache
    const maxQosDepth: nat
    /** What ROS answers about the publishers of each topic. */
    var publisherInfo: map<string, seq<Q.Offer>>
    ghost var failed: set<(u32, Handle)>

    ghost function Side(): BridgeSide
      reads this
    {
      BridgeSide(advertisedTopics, channelToTopicAndDatatype, subscriptions, failed)
    }

    constructor (cache: C.MessageDefinitionCache, maxQosDepth: nat)
      ensures Side() == NoBridge && clientAdvertisedTopics == map[]
      ensures messageDefinitionCache == cache && this.maxQosDepth == maxQosDepth
    {
      advertisedTopics, channelToTopicAndDatatype, subscriptions := map[], map[], map[];
      clientAdvertisedTopics := map[];
      messageDefinitionCache := cache;
      this.maxQosDepth := maxQosDepth;
      publisherInfo := map[];
      failed := {};
    }

    function PublishersOf(topic: string): seq<Q.Offer>
      reads this
    {
      if topic in publisherInfo then publisherInfo[topic] else []
    }

    /** `requested` is the profile for which ROS is asked to create a subscription, if it is. */
    method SubscribeHandler(channelId: u32, clientHandle: Handle, created: bool)
      returns (requested: Option<Q.Request>)
      modifies this`subscriptions, this`failed
      ensures Side() == Registry.SubscribeHandler(old(Side()), channelId, clientHandle, created)
      ensures requested.Some?
              <==> HandlerFindsChannel(old(Side()), channelId) && !Entry(old(Side()), channelId, clientHandle)
      ensures requested.Some? ==>
                var offers := PublishersOf(channelToTopicAndDatatype[channelId].name);
                && Q.Strongest(requested.value, offers)
                && requested.value.depth == Q.Max(Q.Clamped(maxQosDepth, Q.Depths(offers)), 1)
    {
      requested := None;
      if channelId !in channelToTopicAndDatatype {
        return;
      }
      var topicAndDatatype := channelToTopicAndDatatype[channelId];
      if topicAndDatatype !in advertisedTopics {
        return;
      }
      var channel := advertisedTopics[topicAndDatatype];
      var firstSubscription := channelId !in subscriptions;
      if firstSubscription {
        subscriptions := subscriptions[channelId := map[]];
      }
      if !firstSubscription && clientHandle in subscriptions[channelId] {
        return;
      }
      var qos := Q.SelectQos(PublishersOf(topicAndDatatype.name), maxQosDepth);
      requested := Some(qos);
      if created {
        var added: map<Handle, Subscriber> := map[clientHandle := Subscriber(channel, clientHandle)];
        ghost var mine := ClientsOf(old(Side()), channelId);
        assert mine[clientHandle := Subscriber(channel, clientHandle)] == mine + added;
        subscriptions := subscriptions[channelId := subscriptions[channelId] + added];
        failed := failed - {(channelId, clientHandle)};
      } else {
        failed := failed + {(channelId, clientHandle)};
      }
    }

    method UnsubscribeHandler(channelId: u32, clientHandle: Handle)
      modifies this`subscriptions
      ensures Side() == Registry.UnsubscribeHandler(old(Side()), channelId, clientHandle)
    {
      if channelId !in subscriptions || clientHandle !in subscriptions[channelId] {
        return;
      }
      subscriptions := subscriptions[channelId := subscriptions[channelId] - {clientHandle}];
      if subscriptions[channelId] == map[] {
        subscriptions := subscriptions - {channelId};
      }
    }

    /** `creation` is what ROS answers; an exception is reported to the caller. */
    method ClientAdvertiseHandler(adv: P.ClientAdvertisement, hdl: Handle, creation: P.Creation)
      returns (threw: bool)
      modifies this`clientAdvertisedTopics
      ensures clientAdvertisedTopics
              == P.AdvertiseHandler(Ros2, old(clientAdvertisedTopics), hdl, adv, creation)
      ensures threw == P.AdvertiseThrows(Ros2, old(clientAdvertisedTopics), hdl, adv, creation)
    {
      var isFirstPublication := hdl !in clientAdvertisedTopics;
      if isFirstPublication {
        clientAdvertisedTopics := clientAdvertisedTopics[hdl := map[]];
      }
      if !isFirstPublication && adv.channelId in clientAdvertisedTopics[hdl] {
        assert clientAdvertisedTopics == old(clientAdvertisedTopics);
        return false;
      }
      if creation.Created? {
        var added: map<u32, P.Publisher> := map[adv.channelId := P.Publisher(adv.topic, adv.schemaName)];
        ghost var mine := P.PublishersOf(old(clientAdvertisedTopics), hdl);
        assert mine[adv.channelId := P.Publisher(adv.topic, adv.schemaName)] == mine + added;
        clientAdvertisedTopics := clientAdvertisedTopics[hdl := clientAdvertisedTopics[hdl] + added];
      }
      return creation.Threw?;
    }

    method ClientUnadvertiseHandler(channelId: u32, hdl: Handle)
      modifies this`clientAdvertisedTopics
      ensures clientAdvertisedTopics
              == P.UnadvertiseHandler(old(clientAdvertisedTopics), hdl, channelId)
    {
      if hdl !in clientAdvertisedTopics || channelId !in clientAdvertisedTopics[hdl] {
        return;
      }
      clientAdvertisedTopics :=
        clientAdvertisedTopics[hdl := clientAdvertisedTopics[hdl] - {channelId}];
      if clientAdvertisedTopics[hdl] == map[] {
        clientAdvertisedTopics := clientAdvertisedTopics - {hdl};
      }
    }

    method ClientMessageHandler(channelId: u32, payload: seq<F.byte>, hdl: Handle)
      returns (outcome: F.BinaryOutcome)
      ensures var mine := P.PublishersOf(clientAdvertisedTopics, hdl);
        outcome == if channelId in mine then F.Published(mine[channelId], payload) else F.Dropped
    {
      if hdl !in clientAdvertisedTopics || channelId !in clientAdvertisedTopics[hdl] {
        return F.Dropped;
      }
      return F.Published(clientAdvertisedTopics[hdl][channelId], payload);
    }

    /** The difference of the visible and the advertised topics, in iteration order. */
    method DiffTopics(latestTopics: set<Topic>)
      returns (newTopics: seq<Topic>, removedTopics: seq<Topic>)
      ensures Enumerates(newTopics, latestTopics - advertisedTopics.Keys)
      ensures Enumerates(removedTopics, advertisedTopics.Keys - latestTopics)
    {
      newTopics, removedTopics := [], [];
      var rest := latestTopics;
      while rest != {}
        invariant rest <= latestTopics
        invariant Enumerates(newTopics, (latestTopics - rest) - advertisedTopics.Keys)
      {
        var topic :| topic in rest;
        ghost var listed := (latestTopics - rest) - advertisedTopics.Keys;
        rest := rest - {topic};
        if topic !in advertisedTopics {
          EnumeratesSnoc(newTopics, listed, topic);
          newTopics := newTopics + [topic];
          assert (latestTopics - rest) - advertisedTopics.Keys == listed + {topic};
        } else {
          assert (latestTopics - rest) - advertisedTopics.Keys == listed;
        }
      }
      rest := advertisedTopics.Keys;
      while rest != {}
        invariant rest <= advertisedTopics.Keys
        invariant Enumerates(removedTopics, (advertisedTopics.Keys - rest) - latestTopics)
      {
        var topic :| topic in rest;
        ghost var listed := (advertisedTopics.Keys - rest) - latestTopics;
        rest := rest - {topic};
        if topic !in latestTopics {
          EnumeratesSnoc(removedTopics, listed, topic);
          removedTopics := removedTopics + [topic];
          assert (advertisedTopics.Keys - rest) - latestTopics == listed + {topic};
        } else {
          assert (advertisedTopics.Keys - rest) - latestTopics == listed;
        }
      }
    }

    method RemoveTopics(server: Server, removedTopics: seq<Topic>)
      requires server.Valid()
      requires Distinct(removedTopics) && forall t | t in removedTopics :: t in advertisedTopics
      modifies server, this`advertisedTopics, this`channelToTopicAndDatatype, this`subscriptions
      ensures server.Valid() && server.SameTables()
      ensures Sides(server.Side(), Side())
              == Registry.RemoveTopics(old(Sides(server.Side(), Side())), removedTopics)
    {
      ghost var start := Sides(server.Side(), Side());
      var i := 0;
      assert removedTopics[0..] == removedTopics;
      while i < |removedTopics|
        invariant 0 <= i <= |removedTopics| && server.Valid() && server.SameTables()
        invariant forall k | i <= k < |removedTopics| :: removedTopics[k] in advertisedTopics
        invariant Registry.RemoveTopics(Sides(server.Side(), Side()), removedTopics[i..])
                  == Registry.RemoveTopics(start, removedTopics)
      {
        var topicAndDatatype := removedTopics[i];
        var channel := advertisedTopics[topicAndDatatype];
        server.RemoveChannel(channel.id);
        subscriptions := subscriptions - {channel.id};
        channelToTopicAndDatatype := channelToTopicAndDatatype - {channel.id};
        advertisedTopics := advertisedTopics - {topicAndDatatype};
        assert removedTopics[i..][1..] == removedTopics[i + 1..];
        i := i + 1;
      }
    }

    method AddTopics(server: Server, files: D.Files, newTopics: seq<Topic>)
      requires server.Valid() && messageDefinitionCache.Valid(files)
      modifies server, this`advertisedTopics, this`channelToTopicAndDatatype, messageDefinitionCache
      ensures server.Valid() && server.SameTables() && messageDefinitionCache.Valid(files)
      ensures Sides(server.Side(), Side())
              == Registry.AddTopics(Ros2, old(Sides(server.Side(), Side())),
                                    WithLookup(files, newTopics))
    {
      ghost var start := Sides(server.Side(), Side());
      ghost var added := WithLookup(files, newTopics);
      var i := 0;
      assert added[0..] == added;
      while i < |newTopics|
        invariant 0 <= i <= |newTopics| && server.Valid() && server.SameTables()
        invariant messageDefinitionCache.Valid(files)
        invariant Registry.AddTopics(Ros2, Sides(server.Side(), Side()), added[i..])
                  == Registry.AddTopics(Ros2, start, added)
      {
        var topicAndDatatype := newTopics[i];
        assert added[i] == (topicAndDatatype, LookupOf(files, topicAndDatatype));
        AddTopicsStep(Ros2, Sides(server.Side(), Side()), added, i);
        i := i + 1;
        var newChannel := DescribeTopic(files, topicAndDatatype);
        if newChannel.None? {
          continue;
        }
        AdvertiseTopic(server, topicAndDatatype, newChannel.value);
      }
    }

    /** A topic whose definition is missing is advertised without one; other failures skip it. */
    method DescribeTopic(files: D.Files, topicAndDatatype: Topic)
      returns (newChannel: Option<ChannelWithoutId>)
      requires messageDefinitionCache.Valid(files)
      modifies messageDefinitionCache
      ensures messageDefinitionCache.Valid(files)
      ensures newChannel == NewChannel(Ros2, topicAndDatatype, LookupOf(files, topicAndDatatype))
    {
      var text := messageDefinitionCache.GetFullText(files, topicAndDatatype.datatypeName);
      var channel := ChannelWithoutId(topicAndDatatype.name, "", topicAndDatatype.datatypeName, "");
      if text.Ok? {
        channel := channel.(encoding := "cdr", schema := text.value.1);
      } else if text.error.Other? {
        return None;
      }
      return Some(channel);
    }

    /** Registers a channel with the server and in both maps. */
    method AdvertiseTopic(server: Server, topicAndDatatype: Topic, newChannel: ChannelWithoutId)
      requires server.Valid()
      modifies server`nextChannelId, server`channels
      modifies this`advertisedTopics, this`channelToTopicAndDatatype
      ensures server.Valid() && server.SameTables()
      ensures server.Side() == Registry.AddChannel(old(server.Side()), newChannel)
      ensures Side() == InsertTopic(old(Side()), topicAndDatatype,
                                    Channel(NextId(old(server.Side())), newChannel))
    {
      var id := server.AddChannel(newChannel);
      var channel := Channel(id, newChannel);
      if topicAndDatatype !in advertisedTopics {
        advertisedTopics := advertisedTopics[topicAndDatatype := channel];
      }
      if channel.id !in channelToTopicAndDatatype {
        channelToTopicAndDatatype := channelToTopicAndDatatype[channel.id := topicAndDatatype];
      }
    }

    /** The update is the specified one for the iteration orders it happens to take. */
    method UpdateAdvertisedTopics(server: Server, files: D.Files, latestTopics: set<Topic>)
      returns (ghost removed: seq<Topic>, ghost added: seq<Topic>)
      requires server.Valid() && messageDefinitionCache.Valid(files)
      modifies server, messageDefinitionCache
      modifies this`advertisedTopics, this`channelToTopicAndDatatype, this`subscriptions
      ensures server.Valid() && server.SameTables() && messageDefinitionCache.Valid(files)
      ensures Enumerates(removed, old(advertisedTopics).Keys - latestTopics)
      ensures Enumerates(added, latestTopics - old(advertisedTopics).Keys)
      ensures Sides(server.Side(), Side())
              == UpdateTopics(Ros2, old(Sides(server.Side(), Side())), removed,
                              WithLookup(files, added))
    {
      var newTopics, removedTopics := DiffTopics(latestTopics);
      removed, added := removedTopics, newTopics;
      assert forall t | t in removedTopics :: t in Elements(removedTopics);
      RemoveTopics(server, removedTopics);
      AddTopics(server, files, newTopics);
      if |newTopics| > 0 {
        server.BroadcastChannels();
      }
    }
  }

  // ------------------------------------------------------------------ the server

  datatype ClientInfo =
    ClientInfo(subscriptionsByChannel: map<u32, u32>, advertisedChannels: set<u32>)

  function SubscriptionsOf(clients: map<Handle, ClientInfo>): map<Handle, map<u32, u32>> {
    map h | h in clients :: clients[h].subscriptionsByChannel
  }

  function AdvertisedOf(clients: map<Handle, ClientInfo>): map<Handle, set<u32>> {
    map h | h in clients :: clients[h].advertisedChannels
  }

  function WithoutSubscription(info: ClientInfo, chanId: u32): ClientInfo {
    info.(subscriptionsByChannel := info.subscriptionsByChannel - {chanId})
  }

  /** Updating one client's record. */
  lemma UpdateClient(clients: map<Handle, ClientInfo>, h: Handle, info: ClientInfo)
    ensures SubscriptionsOf(clients[h := info])
            == SubscriptionsOf(clients)[h := info.subscriptionsByChannel]
    ensures AdvertisedOf(clients[h := info]) == AdvertisedOf(clients)[h := info.advertisedChannels]
  {}

  /** All clients but those in `rest` have lost the channel. */
  function RemovedBut(clients: map<Handle, ClientInfo>, rest: set<Handle>, chanId: u32)
    : map<Handle, ClientInfo>
  {
    map h | h in clients :: if h in rest then clients[h] else WithoutSubscription(clients[h], chanId)
  }

  /** All clients but those in `rest` have been sent the message. */
  function SentBut(outbox: map<Handle, seq<ServerMessage>>, rest: set<Handle>, msg: ServerMessage)
    : map<Handle, seq<ServerMessage>>
  {
    map h | h in outbox :: if h in rest then outbox[h] else outbox[h] + [msg]
  }

  lemma RemovedStep(clients: map<Handle, ClientInfo>, rest: set<Handle>, chanId: u32, h: Handle)
    requires h in rest && h in clients
    ensures var now := RemovedBut(clients, rest, chanId);
      now[h := WithoutSubscription(now[h], chanId)] == RemovedBut(clients, rest - {h}, chanId)
  {}

  lemma SentStep(outbox: map<Handle, seq<ServerMessage>>, rest: set<Handle>, msg: ServerMessage,
                 h: Handle)
    requires h in rest && h in outbox
    ensures var now := SentBut(outbox, rest, msg);
      now[h := now[h] + [msg]] == SentBut(outbox, rest - {h}, msg)
  {}

  lemma RemovedEverywhere(clients: map<Handle, ClientInfo>, chanId: u32)
    ensures RemovedBut(clients, clients.Keys, chanId) == clients
    ensures var after := RemovedBut(clients, {}, chanId);
      && AdvertisedOf(after) == AdvertisedOf(clients)
      && SubscriptionsOf(after)
         == (map h | h in SubscriptionsOf(clients) :: SubscriptionsOf(clients)[h] - {chanId})
      && ((forall h | h in clients :: Injective(clients[h].subscriptionsByChannel))
          ==> forall h | h in after :: Injective(after[h].subscriptionsByChannel))
  {}

  lemma SentNobody(outbox: map<Handle, seq<ServerMessage>>, msg: ServerMessage)
    ensures SentBut(outbox, outbox.Keys, msg) == outbox
  {}

  lemma SentEverybody(srv: ServerSide, msg: ServerMessage)
    requires srv.outbox.Keys == srv.subs.Keys
    ensures SentBut(srv.outbox, {}, msg) == SendAll(srv, msg).outbox
  {}

  /** The loops of `removeChannel` together. */
  lemma RemovedResult(id: u32, clients: map<Handle, ClientInfo>, channels: map<u32, Channel>,
                      outbox: map<Handle, seq<ServerMessage>>, chanId: u32)
    requires outbox.Keys == clients.Keys
    ensures Registry.RemoveChannel(ServerSide(id, SubscriptionsOf(clients), channels, outbox), chanId)
            == ServerSide(id, SubscriptionsOf(RemovedBut(clients, {}, chanId)), channels - {chanId},
                          SentBut(outbox, {}, Unadvertise(chanId)))
  {
    RemovedEverywhere(clients, chanId);
    SentEverybody(ServerSide(id, SubscriptionsOf(RemovedBut(clients, {}, chanId)),
                             channels - {chanId}, outbox), Unadvertise(chanId));
  }

  /** What a disconnect leaves of the bridge's subscriptions. */
  lemma ClosedEntries(br: BridgeSide, h: Handle, order: seq<u32>, cs: set<u32>)
    requires Enumerates(order, cs)
    ensures forall c: u32, h': Handle ::
              Entry(UnsubscribeAll(br, h, order), c, h') <==> Entry(br, c, h') && !(h' == h && c in cs)
  {
    forall c: u32, h': Handle
      ensures Entry(UnsubscribeAll(br, h, order), c, h') <==> Entry(br, c, h') && !(h' == h && c in cs)
    {
      SE.UnsubscribeAllExact(br, h, order, c, h');
      assert c in Elements(order) <==> c in order;
    }
  }

  /** What it leaves of the publishers. */
  lemma ClosedPublishers(p: P.Tables, h: Handle)
    requires h in p.advertised
    ensures var publishers := P.CloseTables(p, h).publishers;
      && (forall h': Handle | h' != h :: P.PublishersOf(publishers, h') == P.PublishersOf(p.publishers, h'))
      && (T.TablesOk(p) ==> P.PublishersOf(publishers, h) == map[])
  {
    if T.TablesOk(p) {
      T.CloseKeeps(p, h);
    }
  }

  class Server {
    var nextChannelId: u32
    var clients: map<Handle, ClientInfo>
    var channels: map<u32, Channel>
    var clientChannels: map<Handle, map<u32, P.ClientAdvertisement>>
    ghost var outbox: map<Handle, seq<ServerMessage>>

    ghost function Side(): ServerSide
      reads this
    {
      ServerSide(nextChannelId, SubscriptionsOf(clients), channels, outbox)
    }

    /** Both components' tables of client channels. */
    ghost function Tables(bridge: FoxgloveBridge): P.Tables
      reads this, bridge
    {
      P.Tables(AdvertisedOf(clients), clientChannels, bridge.clientAdvertisedTopics)
    }

    ghost predicate Valid()
      reads this
    {
      && outbox.Keys == clients.Keys
      && forall h | h in clients :: Injective(clients[h].subscriptionsByChannel)
    }

    /** The tables of client channels are as before. */
    twostate predicate SameTables()
      reads this
    {
      AdvertisedOf(clients) == old(AdvertisedOf(clients)) && clientChannels == old(clientChannels)
    }

    constructor ()
      ensures Valid() && Side() == NoServer && clients == map[] && clientChannels == map[]
    {
      nextChannelId, clients, channels, clientChannels := 0, map[], map[], map[];
      outbox := map[];
      new;
      assert SubscriptionsOf(clients) == map[];
    }

    ghost method SendTo(h: Handle, msgs: seq<ServerMessage>)
      modifies this`outbox
      ensures Side() == Send(old(Side()), h, msgs)
      ensures outbox.Keys == old(outbox.Keys)
    {
      if h in outbox {
        outbox := outbox[h := outbox[h] + msgs];
      }
    }

    method HandleConnectionOpened(bridge: FoxgloveBridge, hdl: Handle)
      requires Valid()
      modifies this`clients, this`outbox
      ensures Valid()
      ensures Side() == OpenConnection(old(Side()), hdl)
      ensures clients == if hdl in old(clients) then old(clients)
                         else old(clients)[hdl := ClientInfo(map[], {})]
      ensures outbox == old(outbox)[hdl := (if hdl in old(outbox) then old(outbox)[hdl] else [])
                                           + [ServerInfo, ServerMessage.Advertise(channels)]]
      ensures Tables(bridge) == P.OpenTables(old(Tables(bridge)), hdl)
    {
      if hdl !in clients {
        UpdateClient(clients, hdl, ClientInfo(map[], {}));
        clients := clients[hdl := ClientInfo(map[], {})];
      }
      outbox := outbox[hdl := (if hdl in outbox then outbox[hdl] else [])
                              + [ServerInfo, ServerMessage.Advertise(channels)]];
    }

    method AddChannel(channel: ChannelWithoutId) returns (id: u32)
      requires Valid()
      modifies this`nextChannelId, this`channels
      ensures Valid() && id == NextId(old(Side()))
      ensures Side() == Registry.AddChannel(old(Side()), channel)
      ensures id == (old(nextChannelId) + 1) % 0x1_0000_0000
      ensures channels == if id in old(channels) then old(channels)
                          else old(channels)[id := Channel(id, channel)]
    {
      nextChannelId := (nextChannelId + 1) % ID_SPACE;
      id := nextChannelId;
      if id !in channels {
        channels := channels[id := Channel(id, channel)];
      }
    }

    method RemoveChannel(chanId: u32)
      requires Valid()
      modifies this`channels, this`clients, this`outbox
      ensures Valid() && SameTables()
      ensures Side() == Registry.RemoveChannel(old(Side()), chanId)
      ensures channels == old(channels) - {chanId} && clients.Keys == old(clients.Keys)
      ensures forall h | h in clients ::
                && clients[h].subscriptionsByChannel == old(clients)[h].subscriptionsByChannel - {chanId}
                && clients[h].advertisedChannels == old(clients)[h].advertisedChannels
                && outbox[h] == old(outbox)[h] + [Unadvertise(chanId)]
    {
      RemovedEverywhere(clients, chanId);
      RemovedResult(nextChannelId, clients, channels, outbox, chanId);
      channels := channels - {chanId};
      DropChannelEverywhere(chanId);
    }

    method DropChannelEverywhere(chanId: u32)
      requires clients.Keys == outbox.Keys
      modifies this`clients, this`outbox
      ensures clients == RemovedBut(old(clients), {}, chanId)
      ensures outbox == SentBut(old(outbox), {}, Unadvertise(chanId))
    {
      var rest := clients.Keys;
      ghost var msg := Unadvertise(chanId);
      RemovedEverywhere(clients, chanId);
      SentNobody(outbox, msg);
      while rest != {}
        invariant rest <= old(clients).Keys == old(outbox).Keys
        invariant clients == RemovedBut(old(clients), rest, chanId)
        invariant outbox == SentBut(old(outbox), rest, msg)
        modifies this`clients, this`outbox
      {
        var hdl :| hdl in rest;
        RemovedStep(old(clients), rest, chanId, hdl);
        SentStep(old(outbox), rest, msg, hdl);
        rest := rest - {hdl};
        DropChannel(hdl, chanId);
      }
    }

    /** What removing a channel does for one client. */
    method DropChannel(hdl: Handle, chanId: u32)
      requires hdl in clients && hdl in outbox
      modifies this`clients, this`outbox
      ensures clients == old(clients)[hdl := WithoutSubscription(old(clients)[hdl], chanId)]
      ensures outbox == old(outbox)[hdl := old(outbox)[hdl] + [Unadvertise(chanId)]]
    {
      var info := clients[hdl];
      if chanId in info.subscriptionsByChannel {
        clients := clients[hdl := WithoutSubscription(info, chanId)];
      } else {
        assert info.subscriptionsByChannel - {chanId} == info.subscriptionsByChannel;
      }
      outbox := outbox[hdl := outbox[hdl] + [Unadvertise(chanId)]];
    }

    method BroadcastChannels()
      requires Valid()
      modifies this`outbox
      ensures Valid()
      ensures Side() == Registry.BroadcastChannels(old(Side()))
      ensures forall h | h in clients ::
                outbox[h] == old(outbox)[h] + [ServerMessage.Advertise(channels)]
    {
      var rest := clients.Keys;
      ghost var msg := ServerMessage.Advertise(channels);
      SentNobody(outbox, msg);
      SentEverybody(Side(), msg);
      while rest != {}
        invariant rest <= clients.Keys == old(outbox).Keys
        invariant outbox == SentBut(old(outbox), rest, msg)
        modifies this`outbox
      {
        var hdl :| hdl in rest;
        SentStep(old(outbox), rest, msg, hdl);
        rest := rest - {hdl};
        SendTo(hdl, [msg]);
      }
    }

    /** The linear search over a client's subscriptions. */
    method FindSubscriptionBySubId(hdl: Handle, subId: u32) returns (channel: Option<u32>)
      requires Valid() && hdl in clients
      ensures channel == FindBySubscriptionId(clients[hdl].subscriptionsByChannel, subId)
      ensures forall c: u32 ::
                channel == Some(c) <==> c in clients[hdl].subscriptionsByChannel
                                        && clients[hdl].subscriptionsByChannel[c] == subId
    {
      var subs := clients[hdl].subscriptionsByChannel;
      var rest := subs.Keys;
      while rest != {}
        invariant rest <= subs.Keys
        invariant forall c | c in subs && c !in rest :: subs[c] != subId
      {
        var c :| c in rest;
        if subs[c] == subId {
          return Some(c);
        }
        rest := rest - {c};
      }
      return None;
    }

    /** Parse errors, unknown clients and unknown operations end in an error status. */
    method HandleTextMessage(bridge: FoxgloveBridge, hdl: Handle, msg: TextMessage)
      requires Valid()
      modifies this`clients, this`clientChannels, this`outbox
      modifies bridge`subscriptions, bridge`failed, bridge`clientAdvertisedTopics
      ensures Valid()
      ensures Whole(Sides(Side(), bridge.Side()), Tables(bridge))
              == Effect(Ros2, old(Whole(Sides(Side(), bridge.Side()), Tables(bridge))), hdl, msg)
    {
      if msg.Unparsable? || msg.UnknownOperation? || hdl !in clients {
        SendTo(hdl, [Status(Error)]);
        return;
      }
      match msg {
        case SubscribeMessage(items) => HandleSubscribe(bridge, hdl, items);
        case UnsubscribeMessage(ids) => HandleUnsubscribe(bridge, hdl, ids);
        case AdvertiseMessage(ads) => HandleAdvertise(bridge, hdl, ads);
        case UnadvertiseMessage(ids) => HandleUnadvertise(bridge, hdl, ids);
        case _ =>
      }
    }

    method HandleSubscribe(bridge: FoxgloveBridge, hdl: Handle, items: seq<SubscribeItem>)
      requires Valid() && hdl in clients
      modifies this`clients, this`outbox, bridge`subscriptions, bridge`failed
      ensures Valid() && SameTables()
      ensures Sides(Side(), bridge.Side())
              == SubscribeBatch(old(Sides(Side(), bridge.Side())), hdl, items)
    {
      ghost var start := Sides(Side(), bridge.Side());
      var i := 0;
      assert items[0..] == items;
      while i < |items|
        invariant 0 <= i <= |items| && Valid() && SameTables() && hdl in clients
        invariant SubscribeBatch(Sides(Side(), bridge.Side()), hdl, items[i..])
                  == SubscribeBatch(start, hdl, items)
      {
        var item := items[i];
        assert items[i..][1..] == items[i + 1..];
        i := i + 1;
        if item.BadSubscribe? {
          SendTo(hdl, [Status(Error)]);
          return;
        }
        HandleSubscribeItem(bridge, hdl, item.subId, item.channelId, item.created);
      }
    }

    method HandleSubscribeItem(bridge: FoxgloveBridge, hdl: Handle, subId: u32, channelId: u32,
                               created: bool)
      requires Valid() && hdl in clients
      modifies this`clients, this`outbox, bridge`subscriptions, bridge`failed
      ensures Valid() && SameTables() && hdl in clients
      ensures Side() == SubscribeServer(old(Side()), hdl, subId, channelId)
      ensures bridge.Side()
              == if SubscribeAccepted(old(Side()), hdl, subId, channelId)
                 then Registry.SubscribeHandler(old(bridge.Side()), channelId, hdl, created)
                 else old(bridge.Side())
    {
      var found := FindSubscriptionBySubId(hdl, subId);
      if found.Some? {
        SendTo(hdl, [Status(Error)]);
        return;
      }
      if channelId !in channels {
        SendTo(hdl, [Status(Warning)]);
        return;
      }
      EmplaceSubscription(hdl, channelId, subId);
      var _ := bridge.SubscribeHandler(channelId, hdl, created);
    }

    /** Keeps the id of an earlier subscription to the channel. */
    method EmplaceSubscription(hdl: Handle, channelId: u32, subId: u32)
      requires Valid() && hdl in clients && channelId in channels
      requires !UsesSubscriptionId(clients[hdl].subscriptionsByChannel, subId)
      modifies this`clients
      ensures Valid() && SameTables() && hdl in clients
      ensures Side() == SubscribeServer(old(Side()), hdl, subId, channelId)
    {
      var info := clients[hdl];
      if channelId !in info.subscriptionsByChannel {
        var added: map<u32, u32> := map[channelId := subId];
        var info' := info.(subscriptionsByChannel := info.subscriptionsByChannel + added);
        UpdateClient(clients, hdl, info');
        assert Injective(info'.subscriptionsByChannel);
        clients := clients[hdl := info'];
        assert AdvertisedOf(clients) == old(AdvertisedOf(clients));
      }
    }

    method HandleUnsubscribe(bridge: FoxgloveBridge, hdl: Handle, ids: seq<Option<u32>>)
      requires Valid() && hdl in clients
      modifies this`clients, this`outbox, bridge`subscriptions
      ensures Valid() && SameTables()
      ensures Sides(Side(), bridge.Side())
              == UnsubscribeBatch(old(Sides(Side(), bridge.Side())), hdl, ids)
    {
      ghost var start := Sides(Side(), bridge.Side());
      var i := 0;
      assert ids[0..] == ids;
      while i < |ids|
        invariant 0 <= i <= |ids| && Valid() && SameTables() && hdl in clients
        invariant UnsubscribeBatch(Sides(Side(), bridge.Side()), hdl, ids[i..])
                  == UnsubscribeBatch(start, hdl, ids)
      {
        var subId := ids[i];
        assert ids[i..][1..] == ids[i + 1..];
        i := i + 1;
        if subId.None? {
          SendTo(hdl, [Status(Error)]);
          return;
        }
        var sub := FindSubscriptionBySubId(hdl, subId.value);
        if sub.None? {
          SendTo(hdl, [Status(Warning)]);
          continue;
        }
        EraseSubscription(hdl, sub.value);
        bridge.UnsubscribeHandler(sub.value, hdl);
      }
    }

    method EraseSubscription(hdl: Handle, chanId: u32)
      requires Valid() && hdl in clients
      modifies this`clients
      ensures Valid() && SameTables() && hdl in clients
      ensures var srv := old(Side());
        Side() == srv.(subs := srv.subs[hdl := srv.subs[hdl] - {chanId}])
    {
      var info := clients[hdl];
      var info' := WithoutSubscription(info, chanId);
      UpdateClient(clients, hdl, info');
      clients := clients[hdl := info'];
      assert AdvertisedOf(clients) == old(AdvertisedOf(clients));
    }

    method HandleAdvertise(bridge: FoxgloveBridge, hdl: Handle, items: seq<P.AdvertiseItem>)
      requires Valid() && hdl in clients
      modifies this`clients, this`clientChannels, this`outbox, bridge`clientAdvertisedTopics
      ensures Valid()
      ensures var o := P.AdvertiseMessage(Ros2, old(Tables(bridge)), hdl, items);
        Tables(bridge) == o.tables && Side() == Send(old(Side()), hdl, Replies(o.replies))
    {
      var isFirstPublication := hdl !in clientChannels;
      if isFirstPublication {
        clientChannels := clientChannels[hdl := map[]];
      }
      assert clientChannels == old(clientChannels)[hdl := P.ChannelsOf(old(Tables(bridge)), hdl)];
      HandleAdvertiseItems(bridge, hdl, isFirstPublication, items);
    }

    method HandleAdvertiseItems(bridge: FoxgloveBridge, hdl: Handle, isFirstPublication: bool,
                                items: seq<P.AdvertiseItem>)
      requires Valid() && hdl in clients && hdl in clientChannels
      modifies this`clients, this`clientChannels, this`outbox, bridge`clientAdvertisedTopics
      ensures Valid()
      ensures var o := P.AdvertiseItems(Ros2, old(Tables(bridge)), hdl, isFirstPublication, items);
        Tables(bridge) == o.tables && Side() == Send(old(Side()), hdl, Replies(o.replies))
    {
      ghost var side := Side();
      ghost var whole := P.AdvertiseItems(Ros2, Tables(bridge), hdl, isFirstPublication, items);
      ghost var sent: seq<StatusLevel> := [];
      var i := 0;
      assert items[0..] == items && sent + whole.replies == whole.replies;
      SendNothing(side, hdl);
      while i < |items|
        invariant 0 <= i <= |items| && Valid() && hdl in clients && hdl in clientChannels
        invariant Side() == Send(side, hdl, Replies(sent))
        invariant Sending(sent, P.AdvertiseItems(Ros2, Tables(bridge), hdl, isFirstPublication, items[i..]),
                          whole)
      {
        ghost var one := P.AdvertiseOne(Ros2, Tables(bridge), hdl, isFirstPublication, items[i]);
        AdvertiseItemsStep(Tables(bridge), hdl, isFirstPublication, items, i, sent, whole);
        var stop := HandleAdvertiseItem(bridge, hdl, isFirstPublication, items[i]);
        SendTwice(side, hdl, sent, one.replies);
        sent := sent + one.replies;
        if stop {
          return;
        }
        i := i + 1;
      }
      assert sent + [] == sent;
    }

    /** One item; `stop` when an exception ends the message. */
    method HandleAdvertiseItem(bridge: FoxgloveBridge, hdl: Handle, isFirstPublication: bool,
                               item: P.AdvertiseItem) returns (stop: bool)
      requires Valid() && hdl in clients && hdl in clientChannels
      modifies this`clients, this`clientChannels, this`outbox, bridge`clientAdvertisedTopics
      ensures Valid() && hdl in clients && hdl in clientChannels
      ensures var one := P.AdvertiseOne(Ros2, old(Tables(bridge)), hdl, isFirstPublication, item);
        && Tables(bridge) == one.tables && stop == one.stop
        && Side() == Send(old(Side()), hdl, Replies(one.replies))
    {
      if item.BadItem? {
        SendTo(hdl, Replies([Error]));
        return true;
      }
      if !isFirstPublication && item.adv.channelId in clientChannels[hdl] {
        SendTo(hdl, Replies([Error]));
        return false;
      }
      StoreAdvertisement(bridge, hdl, item.adv);
      stop := bridge.ClientAdvertiseHandler(item.adv, hdl, item.creation);
      SendNothing(Side(), hdl);
      if stop {
        SendTo(hdl, Replies([Error]));
      }
    }

    method StoreAdvertisement(bridge: FoxgloveBridge, hdl: Handle, adv: P.ClientAdvertisement)
      requires Valid() && hdl in clients && hdl in clientChannels
      modifies this`clients, this`clientChannels
      ensures Valid() && hdl in clients && hdl in clientChannels && Side() == old(Side())
      ensures Tables(bridge) == P.StoreAdvertisement(old(Tables(bridge)), hdl, adv)
    {
      if adv.channelId !in clientChannels[hdl] {
        var added: map<u32, P.ClientAdvertisement> := map[adv.channelId := adv];
        assert clientChannels[hdl][adv.channelId := adv] == clientChannels[hdl] + added;
        clientChannels := clientChannels[hdl := clientChannels[hdl] + added];
      }
      InsertAdvertisedChannel(hdl, adv.channelId);
    }

    method InsertAdvertisedChannel(hdl: Handle, channelId: u32)
      requires Valid() && hdl in clients
      modifies this`clients
      ensures Valid() && clients.Keys == old(clients.Keys) && Side() == old(Side())
      ensures var advertised := old(AdvertisedOf(clients));
        AdvertisedOf(clients) == advertised[hdl := advertised[hdl] + {channelId}]
    {
      var info := clients[hdl];
      var info' := info.(advertisedChannels := info.advertisedChannels + {channelId});
      UpdateClient(clients, hdl, info');
      clients := clients[hdl := info'];
      assert SubscriptionsOf(clients) == old(SubscriptionsOf(clients));
    }

    method HandleUnadvertise(bridge: FoxgloveBridge, hdl: Handle, ids: seq<Option<u32>>)
      requires Valid() && hdl in clients
      modifies this`clientChannels, this`outbox, bridge`clientAdvertisedTopics
      ensures Valid()
      ensures var o := P.UnadvertiseMessage(old(Tables(bridge)), hdl, ids);
        Tables(bridge) == o.tables && Side() == Send(old(Side()), hdl, Replies(o.replies))
    {
      ghost var start, side := Tables(bridge), Side();
      if hdl !in clientChannels {
        SendTo(hdl, Replies([Error]));
        return;
      }
      var i := 0;
      assert ids[0..] == ids;
      SendNothing(side, hdl);
      while i < |ids|
        invariant 0 <= i <= |ids| && Valid() && hdl in clientChannels
        invariant Side() == Send(side, hdl, Replies([]))
        invariant P.UnadvertiseItems(Tables(bridge), hdl, ids[i..])
                  == P.UnadvertiseItems(start, hdl, ids)
      {
        var channelId := ids[i];
        assert ids[i..][1..] == ids[i + 1..];
        i := i + 1;
        if channelId.None? {
          SendTo(hdl, Replies([Error]));
          SendTwice(side, hdl, [], [Error]);
          return;
        }
        if channelId.value !in clientChannels[hdl] {
          continue;
        }
        clientChannels := clientChannels[hdl := clientChannels[hdl] - {channelId.value}];
        bridge.ClientUnadvertiseHandler(channelId.value, hdl);
      }
    }

    /** `order` is the iteration order over the closed client's subscriptions. */
    method HandleConnectionClosed(bridge: FoxgloveBridge, hdl: Handle) returns (ghost order: seq<u32>)
      requires Valid()
      modifies this`clients, this`clientChannels, this`outbox
      modifies bridge`clientAdvertisedTopics, bridge`subscriptions
      ensures Valid()
      ensures Tables(bridge) == P.CloseTables(old(Tables(bridge)), hdl)
      ensures Side() == EraseClient(old(Side()), hdl)
      ensures Enumerates(order, if hdl in old(clients)
                                then old(clients)[hdl].subscriptionsByChannel.Keys else {})
      ensures bridge.Side() == UnsubscribeAll(old(bridge.Side()), hdl, order)
      ensures clients == old(clients) - {hdl}
      ensures clientChannels == if hdl in old(clients) then old(clientChannels) - {hdl}
                                else old(clientChannels)
      ensures forall h: Handle | h != hdl || hdl !in old(clients) ::
                P.PublishersOf(bridge.clientAdvertisedTopics, h)
                == P.PublishersOf(old(bridge.clientAdvertisedTopics), h)
      ensures T.TablesOk(old(Tables(bridge))) && hdl in old(clients) ==>
                P.PublishersOf(bridge.clientAdvertisedTopics, hdl) == map[]
      ensures forall c: u32, h: Handle ::
                Entry(bridge.Side(), c, h)
                <==> Entry(old(bridge.Side()), c, h)
                     && !(h == hdl && hdl in old(clients) && c in old(clients)[hdl].subscriptionsByChannel)
    {
      order := [];
      if hdl !in clients {
        assert Side().subs == Side().subs - {hdl} && outbox == outbox - {hdl} && clients == clients - {hdl};
        return;
      }
      var client := clients[hdl];
      clients := clients - {hdl};
      outbox := outbox - {hdl};
      assert SubscriptionsOf(clients) == old(SubscriptionsOf(clients)) - {hdl};
      assert AdvertisedOf(clients) == old(AdvertisedOf(clients)) - {hdl};

      UnadvertiseChannels(bridge, hdl, client.advertisedChannels);
      clientChannels := clientChannels - {hdl};
      order := UnsubscribeChannels(bridge, hdl, client.subscriptionsByChannel);
      ClosedEntries(old(bridge.Side()), hdl, order, client.subscriptionsByChannel.Keys);
      ClosedPublishers(old(Tables(bridge)), hdl);
    }

    method UnadvertiseChannels(bridge: FoxgloveBridge, hdl: Handle, oldChannels: set<u32>)
      modifies bridge`clientAdvertisedTopics
      ensures bridge.clientAdvertisedTopics
              == P.UnadvertiseAll(old(bridge.clientAdvertisedTopics), hdl, oldChannels)
    {
      var ids := oldChannels;
      ghost var done: set<u32> := {};
      assert P.UnadvertiseAll(old(bridge.clientAdvertisedTopics), hdl, {})
          == old(bridge.clientAdvertisedTopics);
      while ids != {}
        invariant ids + done == oldChannels
        invariant bridge.clientAdvertisedTopics
                  == P.UnadvertiseAll(old(bridge.clientAdvertisedTopics), hdl, done)
      {
        var id :| id in ids;
        UnadvertiseAllStep(old(bridge.clientAdvertisedTopics), hdl, done, id);
        ids, done := ids - {id}, done + {id};
        bridge.ClientUnadvertiseHandler(id, hdl);
      }
    }

    method UnsubscribeChannels(bridge: FoxgloveBridge, hdl: Handle, oldSubscriptions: map<u32, u32>)
      returns (ghost order: seq<u32>)
      modifies bridge`subscriptions
      ensures Enumerates(order, oldSubscriptions.Keys)
      ensures bridge.Side() == UnsubscribeAll(old(bridge.Side()), hdl, order)
    {
      order := [];
      var rest := oldSubscriptions.Keys;
      while rest != {}
        invariant rest <= oldSubscriptions.Keys
        invariant Enumerates(order, oldSubscriptions.Keys - rest)
        invariant bridge.Side() == UnsubscribeAll(old(bridge.Side()), hdl, order)
      {
        var chanId :| chanId in rest;
        UnsubscribeAllSnoc(old(bridge.Side()), hdl, order, chanId);
        EnumeratesSnoc(order, oldSubscriptions.Keys - rest, chanId);
        assert oldSubscriptions.Keys - (rest - {chanId}) == oldSubscriptions.Keys - rest + {chanId};
        rest, order := rest - {chanId}, order + [chanId];
        bridge.UnsubscribeHandler(chanId, hdl);
      }
    }

    /** Reads the opcode and the native channel id, then hands the payload to the bridge. */
    method HandleBinaryMessage(bridge: FoxgloveBridge, host: F.Host, hdl: Handle, msg: seq<F.byte>)
      returns (outcome: F.BinaryOutcome)
      requires Valid()
      modifies this`outbox
      ensures Valid()
      ensures outcome == F.HandleBinary(host, Tables(bridge), hdl, msg)
      ensures Side() == Send(old(Side()), hdl, if outcome.Rejected? then [Status(Error)] else [])
    {
      outcome := F.Rejected;
      if |msg| >= 1 && hdl in clientChannels && msg[0] == F.MESSAGE_DATA && |msg| >= 5 {
        var channelId := F.ChannelIdOf(host, msg);
        if channelId in clientChannels[hdl] {
          outcome := bridge.ClientMessageHandler(channelId, msg[5..], hdl);
        }
      }
      if outcome.Rejected? {
        SendTo(hdl, [Status(Error)]);
      }
      assert hdl in old(outbox) ==> old(outbox)[hdl] + [] == old(outbox)[hdl];
    }

    /** The locked lookup of `sendMessage` and the frame it leads to. */
    method SendMessage(host: F.Host, clientHandle: Handle, chanId: u32, timestamp: F.u64,
                       data: seq<F.byte>) returns (frame: Option<seq<F.byte>>)
      ensures frame == match LookupSubscription(Side(), clientHandle, chanId)
                       case None => None
                       case Some(subId) => Some(F.DataFrame(subId, timestamp, data))
      ensures frame.Some?
              <==> clientHandle in clients && chanId in clients[clientHandle].subscriptionsByChannel
      ensures frame.Some? ==>
                F.DecodeDataFrame(frame.value)
                == Some((clients[clientHandle].subscriptionsByChannel[chanId], timestamp, data))
    {
      if clientHandle !in clients {
        return None;
      }
      if chanId !in clients[clientHandle].subscriptionsByChannel {
        return None;
      }
      var subId := clients[clientHandle].subscriptionsByChannel[chanId];
      var message := F.AssembleDataFrame(host, subId, timestamp, data);
      F.DataFrameRoundTrip(subId, timestamp, data);
      return Some(message);
    }
  }
}
