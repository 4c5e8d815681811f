/** The invariant holds in every reachable state. */
module Safety {
  import opened Common
  import opened Registry
  import opened ClientView
  import opened Interleaving
  import opened Invariant
  import P = Publications
  import T = PublicationSafety

  // ------------------------------------------------------------------ progress of one update

  lemma DiffUpdate(ros: Ros, advertised: map<Topic, Channel>, latest: set<Topic>,
                   removed: seq<Topic>, added: seq<(Topic, SchemaLookup)>, issued: nat)
    requires Enumerates(removed, advertised.Keys - latest)
    requires Enumerates(TopicsOf(added), latest - advertised.Keys)
    ensures UpdateOk(ros, advertised, Diffed(removed, added),
                     Pass(advertised, latest, Described(ros, added), issued))
  {
    DescribedAll(ros, added);
  }

  lemma {:induction false} DescribedAll(ros: Ros, added: seq<(Topic, SchemaLookup)>)
    requires Distinct(TopicsOf(added))
    ensures forall i | 0 <= i < |added| :: LookedUp(ros, added[i], Described(ros, added))
    ensures Described(ros, added).Keys <= Elements(TopicsOf(added))
    decreases |added|
  {
    if added != [] {
      var topics := TopicsOf(added);
      DistinctTail(topics);
      assert topics[1..] == TopicsOf(added[1..]);
      DescribedAll(ros, added[1..]);
      forall i | 0 <= i < |added| ensures LookedUp(ros, added[i], Described(ros, added)) {
        if i > 0 {
          assert added[i] == added[1..][i - 1] && topics[i] != topics[0];
        }
      }
    }
  }

  lemma RemoveUpdate(ros: Ros, advertised: map<Topic, Channel>, g: GraphPc, p: Pass)
    requires UpdateOk(ros, advertised, g, p) && g.Removing?
    ensures g.removed != [] ==>
              && g.removed[0] in advertised
              && UpdateOk(ros, advertised, Erasing(g.removed[0], g.removed[1..], g.added), p)
    ensures g.removed == [] ==> UpdateOk(ros, advertised, Adding(g.added, g.added != []), p)
  {
    if g.removed != [] {
      assert g.removed[0] in Elements(g.removed);
      assert g.removed == [g.removed[0]] + g.removed[1..];
    } else {
      assert Gained(p) - Elements(TopicsOf(g.added)) == {};
    }
  }

  lemma EraseUpdate(ros: Ros, advertised: map<Topic, Channel>, g: GraphPc, p: Pass)
    requires UpdateOk(ros, advertised, g, p) && g.Erasing?
    ensures UpdateOk(ros, advertised - {g.t}, Removing(g.removed, g.added), p)
  {
    DistinctTail([g.t] + g.removed);
    assert ([g.t] + g.removed)[1..] == g.removed;
    assert g.t !in Kept(p) by { assert g.t in Elements([g.t] + g.removed); }
  }

  lemma AddUpdate(ros: Ros, advertised: map<Topic, Channel>, g: GraphPc, p: Pass, ch: Channel)
    requires UpdateOk(ros, advertised, g, p) && g.Adding? && g.added != []
    requires var next := NewChannel(ros, g.added[0].0, g.added[0].1);
      next.Some? ==> ch.info == next.value
    ensures var next := NewChannel(ros, g.added[0].0, g.added[0].1);
      && g.added[0].0 !in advertised && g.added[0].0 !in p.before
      && UpdateOk(ros, advertised,
                  if next.None? then Adding(g.added[1..], g.announce)
                  else Inserting(g.added[0].0, ch, g.added[1..], g.announce), p)
  {
    var topics := TopicsOf(g.added);
    DistinctTail(topics);
    assert topics[1..] == TopicsOf(g.added[1..]);
    assert topics[0] in Elements(topics);
    forall i | 0 <= i < |g.added[1..]|
      ensures LookedUp(ros, g.added[1..][i], p.described)
    {
      assert g.added[1..][i] == g.added[i + 1];
    }
  }

  lemma InsertUpdate(ros: Ros, advertised: map<Topic, Channel>, g: GraphPc, p: Pass)
    requires UpdateOk(ros, advertised, g, p) && g.Inserting? && g.t !in advertised
    ensures UpdateOk(ros, advertised[g.t := g.ch], Adding(g.added, g.announce), p)
  {
    assert g.t !in Elements(TopicsOf(g.added));
  }

  // ------------------------------------------------------------------ clients, step by step

  ghost predicate Announcements(s: System) {
    AnnouncementsOk(s.server, s.graph, s.unannounced)
  }

  lemma WsNextAnnouncements(s: System)
    requires Announcements(s) && !s.ws.WsIdle?
    ensures Announcements(WsNext(s))
  {
    match s.ws
    case Subscribing(h, items) =>
      if items != [] && h in s.server.subs {
        match items[0]
        case BadSubscribe => SendOk(s.server, s.unannounced, h, [Status(Error)]);
        case Subscribe(subId, c, _) => SubscribeOk(s.server, s.unannounced, h, subId, c);
      }
    case Unsubscribing(h, ids) =>
      if ids != [] && h in s.server.subs {
        match ids[0]
        case None => SendOk(s.server, s.unannounced, h, [Status(Error)]);
        case Some(subId) => UnsubscribeOk(s.server, s.unannounced, h, subId);
      }
    case SubscribeCall(_, _, _, _) =>
    case UnsubscribeCall(_, _, _) =>
    case Closing(_, _) =>
  }

  lemma GraphNextAnnouncements(s: System)
    requires Announcements(s) && !s.graph.GraphIdle?
    ensures Announcements(GraphNext(s))
  {
    var srv, un := s.server, s.unannounced;
    match s.graph
    case Removing(removed, _) =>
      if removed != [] && removed[0] in s.bridge.advertised {
        RemoveOk(srv, un, s.bridge.advertised[removed[0]].id);
      }
    case Adding(added, _) =>
      if added != [] && NewChannel(s.ros, added[0].0, added[0].1).Some? {
        AddOk(srv, un, NewChannel(s.ros, added[0].0, added[0].1).value);
      }
    case Broadcasting =>
      BroadcastOk(srv, un);
    case _ =>
  }

  lemma AnnouncementsStep(s: System, l: Label)
    requires Announcements(s) && Enabled(s, l)
    ensures Announcements(Apply(s, l))
  {
    var srv, un := s.server, s.unannounced;
    match l
    case WsOpen(h) => OpenOk(srv, un, h);
    case WsClose(h, order) => EraseOk(srv, un, h);
    case WsSubscribe(h, _) => SendOk(srv, un, h, [Status(Error)]);
    case WsUnsubscribe(h, _) => SendOk(srv, un, h, [Status(Error)]);
    case WsReply(h) => SendOk(srv, un, h, [Status(Error)]);
    case WsAdvertise(h, ads) =>
      SendOk(srv, un, h, Replies(P.AdvertiseMessage(s.ros, s.tables, h, ads).replies));
    case WsUnadvertise(h, ids) =>
      SendOk(srv, un, h, Replies(P.UnadvertiseMessage(s.tables, h, ids).replies));
    case WsStep => WsNextAnnouncements(s);
    case GraphDiff(_, _, _) =>
    case GraphStep => GraphNextAnnouncements(s);
    case RosLookup(_, _) =>
    case RosSend(h, _, subId) => SendOk(srv, un, h, [MessageData(subId)]);
  }

  // ------------------------------------------------------------------ the core, step by step

  lemma SendKeeps(s: System, h: Handle, msgs: seq<ServerMessage>)
    requires Core(s)
    ensures Core(s.(server := Send(s.server, h, msgs)))
  {
    SendRegistry(s.server, s.bridge, s.ws, s.graph, h, msgs);
  }

  lemma WsSubscribingKeeps(s: System)
    requires Core(s) && s.ws.Subscribing? && s.ws.items != []
    ensures Core(WsNext(s))
  {
    match s.ws.items[0]
    case BadSubscribe =>
      SendKeeps(s, s.ws.h, [Status(Error)]);
    case Subscribe(subId, c, created) =>
      SubscribeItemRegistry(s.server, s.bridge, s.graph, s.ws.h, s.ws.items, subId, c, created);
  }

  lemma WsUnsubscribingKeeps(s: System)
    requires Core(s) && Announcements(s) && s.ws.Unsubscribing? && s.ws.ids != []
    ensures Core(WsNext(s))
  {
    match s.ws.ids[0]
    case None =>
      SendKeeps(s, s.ws.h, [Status(Error)]);
    case Some(subId) =>
      assert SubscriptionsOk(s.server.subs[s.ws.h], s.server.channels);
      UnsubscribeItemRegistry(s.server, s.bridge, s.graph, s.ws.h, s.ws.ids, subId);
  }

  lemma SubscribeCallKeeps(s: System)
    requires Core(s) && Enabled(s, WsStep) && s.ws.SubscribeCall?
    ensures Core(WsNext(s))
  {
    SubscribeCallRegistry(s.server, s.bridge, s.ws, s.graph);
    SubscribeCallFindsChannel(s.server, s.bridge, s.ws, s.graph);
  }

  /** The bridge handlers leave the topic maps alone. */
  lemma WsHandlerKeeps(s: System)
    requires Core(s) && Enabled(s, WsStep) && WsNeedsSubscriptionsMutex(s.ws)
    ensures Core(WsNext(s))
  {
    match s.ws
    case SubscribeCall(_, _, _, _) =>
      SubscribeCallKeeps(s);
    case UnsubscribeCall(_, _, _) =>
      UnsubscribeCallRegistry(s.server, s.bridge, s.ws, s.graph);
    case Closing(_, _) =>
      ClosingRegistry(s.server, s.bridge, s.ws, s.graph);
  }

  lemma WsStepKeeps(s: System)
    requires Core(s) && Announcements(s) && Enabled(s, WsStep)
    ensures Core(WsNext(s))
  {
    if WsNeedsSubscriptionsMutex(s.ws) {
      WsHandlerKeeps(s);
    } else if s.ws.Subscribing? && s.ws.items != [] {
      WsSubscribingKeeps(s);
    } else if s.ws.Unsubscribing? && s.ws.ids != [] {
      WsUnsubscribingKeeps(s);
    }
  }

  lemma LiveSubscriptions(srv: ServerSide, missing: set<u32>)
    requires ServerOk(srv, missing)
    ensures forall h: Handle, c: u32 | Subscribed(srv, h, c) :: c in srv.channels
  {
    forall h: Handle, c: u32 | Subscribed(srv, h, c) ensures c in srv.channels {
      assert SubscriptionsOk(srv.subs[h], srv.channels);
    }
  }

  lemma AddingKeeps(s: System)
    requires Core(s) && s.graph.Adding? && s.graph.added != []
    requires Enabled(s, GraphStep) && !GraphNext(s).collided
    ensures Core(GraphNext(s))
  {
    var srv, br, added := s.server, s.bridge, s.graph.added;
    match NewChannel(s.ros, added[0].0, added[0].1)
    case None =>
      AddUpdate(s.ros, br.advertised, s.graph, s.pass, Channel(0, ChannelWithoutId("", "", "", "")));
    case Some(info) =>
      AddUpdate(s.ros, br.advertised, s.graph, s.pass, Channel(NextId(srv), info));
      AddRegistry(srv, br, s.ws, s.graph, info);
  }

  lemma GraphStepKeeps(s: System)
    requires Core(s) && Announcements(s) && Enabled(s, GraphStep) && !GraphNext(s).collided
    ensures Core(GraphNext(s))
  {
    var srv, br, ws := s.server, s.bridge, s.ws;
    match s.graph
    case Diffed(_, _) =>
    case Removing(removed, _) =>
      RemoveUpdate(s.ros, br.advertised, s.graph, s.pass);
      if removed != [] {
        RemoveRegistry(srv, br, ws, s.graph);
      }
    case Erasing(_, _, _) =>
      LiveSubscriptions(srv, s.unannounced);
      EraseUpdate(s.ros, br.advertised, s.graph, s.pass);
      EraseRegistry(srv, br, ws, s.graph);
    case Adding(added, _) =>
      if added != [] {
        AddingKeeps(s);
      }
    case Inserting(_, _, _, _) =>
      InsertRegistry(srv, br, ws, s.graph);
      InsertUpdate(s.ros, br.advertised, s.graph, s.pass);
    case Broadcasting =>
      assert BroadcastChannels(srv).subs == srv.subs;
  }

  lemma WsMessageKeeps(s: System, l: Label)
    requires Core(s) && Enabled(s, l) && s.ws.WsIdle?
    requires !l.WsStep? && !l.GraphDiff? && !l.GraphStep? && !l.RosSend? && !l.RosLookup?
    ensures Core(Apply(s, l))
  {
    match l
    case WsOpen(h) => OpenRegistry(s.server, s.bridge, s.graph, h);
    case WsClose(h, order) =>
      if h in s.server.subs {
        CloseRegistry(s.server, s.bridge, s.graph, h, order);
      }
    case WsSubscribe(h, _) => SendKeeps(s, h, [Status(Error)]);
    case WsUnsubscribe(h, _) => SendKeeps(s, h, [Status(Error)]);
    case WsReply(h) => SendKeeps(s, h, [Status(Error)]);
    case WsAdvertise(h, ads) =>
      SendKeeps(s, h, Replies(P.AdvertiseMessage(s.ros, s.tables, h, ads).replies));
    case WsUnadvertise(h, ids) =>
      SendKeeps(s, h, Replies(P.UnadvertiseMessage(s.tables, h, ids).replies));
  }

  lemma CoreStep(s: System, l: Label)
    requires Core(s) && Announcements(s) && Enabled(s, l) && !Apply(s, l).collided
    ensures Core(Apply(s, l))
  {
    match l
    case WsStep => WsStepKeeps(s);
    case GraphDiff(latest, removed, added) =>
      DiffUpdate(s.ros, s.bridge.advertised, latest, removed, added, s.issued);
    case GraphStep => GraphStepKeeps(s);
    case RosLookup(_, _) =>
    case RosSend(h, _, subId) => SendKeeps(s, h, [MessageData(subId)]);
    case _ => WsMessageKeeps(s, l);
  }

  // ------------------------------------------------------------------ ids

  /** The part of the state that concerns ids. */
  datatype Ids = Ids(nextId: u32, channels: map<u32, Channel>, advertised: map<Topic, Channel>,
                     moving: Option<Channel>, issued: nat, history: map<u32, Channel>,
                     collided: bool, pass: Pass)

  function IdsOf(s: System): Ids {
    Ids(s.server.nextId, s.server.channels, s.bridge.advertised,
        if s.graph.Inserting? then Some(s.graph.ch) else None,
        s.issued, s.history, s.collided, s.pass)
  }

  /** What holds of ids while the 32-bit counter has not wrapped around. */
  ghost predicate IdsOk(i: Ids) {
    && i.nextId == i.issued % ID_SPACE
    && (i.issued < ID_SPACE ==>
          && !i.collided
          && (forall c: u32 :: c in i.history <==> 1 <= c <= i.issued)
          && (forall c: u32 | c in i.history :: i.history[c].id == c)
          && (forall c | c in i.channels :: c in i.history && i.channels[c] == i.history[c])
          && i.pass.issuedBefore <= i.issued
          && (forall t | t in i.advertised && t !in i.pass.before ::
                i.advertised[t].id > i.pass.issuedBefore)
          && (i.moving.Some? ==> i.moving.value.id > i.pass.issuedBefore))
  }

  lemma ServerItemsFrame(srv: ServerSide, h: Handle, subId: u32, c: u32)
    requires h in srv.subs
    ensures var srv' := SubscribeServer(srv, h, subId, c);
      srv'.nextId == srv.nextId && srv'.channels == srv.channels && srv'.subs.Keys == srv.subs.Keys
    ensures var srv' := UnsubscribeServer(srv, h, subId);
      srv'.nextId == srv.nextId && srv'.channels == srv.channels && srv'.subs.Keys == srv.subs.Keys
  {}

  /** The WebSocket thread issues no ids, connects nobody and moves no topic. */
  lemma WsNextFrame(s: System)
    requires !s.ws.WsIdle?
    ensures IdsOf(WsNext(s)) == IdsOf(s)
    ensures WsNext(s).server.subs.Keys == s.server.subs.Keys
    ensures WsNext(s).tables == s.tables && WsNext(s).ros == s.ros
  {
    match s.ws
    case Subscribing(h, items) =>
      if items != [] && h in s.server.subs && items[0].Subscribe? {
        ServerItemsFrame(s.server, h, items[0].subId, items[0].channelId);
      }
    case Unsubscribing(h, ids) =>
      if ids != [] && h in s.server.subs && ids[0].Some? {
        ServerItemsFrame(s.server, h, ids[0].value, 0);
      }
    case SubscribeCall(_, _, _, _) =>
    case UnsubscribeCall(_, _, _) =>
    case Closing(_, _) =>
  }

  lemma IssueIds(s: System, t: Topic, info: ChannelWithoutId,
                 added: seq<(Topic, SchemaLookup)>, announce: bool)
    requires IdsOk(IdsOf(s))
    ensures IdsOk(IdsOf(Issue(s, t, info, added, announce)))
  {
    var i, i' := IdsOf(s), IdsOf(Issue(s, t, info, added, announce));
    if i'.issued < ID_SPACE {
      assert i'.nextId == i.issued + 1;
      assert i'.nextId !in i.channels;
    }
  }

  lemma GraphStepIds(s: System)
    requires IdsOk(IdsOf(s)) && !s.graph.GraphIdle?
    ensures IdsOk(IdsOf(GraphNext(s)))
  {
    if s.graph.Adding? && s.graph.added != []
       && NewChannel(s.ros, s.graph.added[0].0, s.graph.added[0].1).Some?
    {
      var next := NewChannel(s.ros, s.graph.added[0].0, s.graph.added[0].1);
      IssueIds(s, s.graph.added[0].0, next.value, s.graph.added[1..], s.graph.announce);
    }
  }

  lemma IdsStep(s: System, l: Label)
    requires IdsOk(IdsOf(s)) && Enabled(s, l)
    ensures IdsOk(IdsOf(Apply(s, l)))
  {
    match l
    case WsStep => WsNextFrame(s);
    case GraphStep => GraphStepIds(s);
    case GraphDiff(_, _, _) =>
    case _ => assert IdsOf(Apply(s, l)) == IdsOf(s);
  }

  /** The counters of history only grow. */
  lemma Monotone(s: System, l: Label)
    requires Enabled(s, l)
    ensures s.issued <= Apply(s, l).issued
    ensures s.collided ==> Apply(s, l).collided
  {
    if l.WsStep? {
      WsNextFrame(s);
    }
  }

  // ------------------------------------------------------------------ all of it

  ghost predicate Inv(s: System) {
    && Announcements(s)
    && (!s.collided ==> Core(s))
    && IdsOk(IdsOf(s))
    && TablesLinked(s.tables, s.server)
  }

  ghost predicate TablesLinked(p: P.Tables, srv: ServerSide) {
    T.TablesOk(p) && p.advertised.Keys == srv.subs.Keys
  }

  lemma OpenTables(s: System, h: Handle)
    requires TablesLinked(s.tables, s.server)
    ensures TablesLinked(P.OpenTables(s.tables, h), OpenConnection(s.server, h))
  {
    T.OpenKeeps(s.tables, h);
  }

  lemma CloseTables(s: System, h: Handle)
    requires TablesLinked(s.tables, s.server)
    ensures TablesLinked(P.CloseTables(s.tables, h), EraseClient(s.server, h))
  {
    T.CloseKeeps(s.tables, h);
  }

  lemma ReplyTables(s: System, h: Handle, o: P.Outcome)
    requires T.TablesOk(o.tables) && o.tables.advertised.Keys == s.server.subs.Keys
    ensures TablesLinked(Reply(s, h, o).tables, Reply(s, h, o).server)
  {}

  /** Only messages on publications, connects and disconnects change these tables. */
  lemma OtherTables(s: System, l: Label)
    requires Enabled(s, l)
    requires !l.WsOpen? && !l.WsClose? && !l.WsAdvertise? && !l.WsUnadvertise?
    ensures Apply(s, l).tables == s.tables && Apply(s, l).server.subs.Keys == s.server.subs.Keys
  {
    match l
    case WsStep => WsNextFrame(s);
    case GraphStep => GraphNextTables(s);
    case _ =>
  }

  lemma GraphNextTables(s: System)
    requires !s.graph.GraphIdle?
    ensures GraphNext(s).tables == s.tables && GraphNext(s).server.subs.Keys == s.server.subs.Keys
  {
    match s.graph
    case Removing(removed, _) =>
      if removed != [] && removed[0] in s.bridge.advertised {
        RemovedKeys(s.server, s.bridge.advertised[removed[0]].id);
      }
    case _ =>
  }

  lemma RemovedKeys(srv: ServerSide, id: u32)
    ensures RemoveChannel(srv, id).subs.Keys == srv.subs.Keys
  {}

  lemma TablesStep(s: System, l: Label)
    requires TablesLinked(s.tables, s.server) && Enabled(s, l)
    ensures TablesLinked(Apply(s, l).tables, Apply(s, l).server)
  {
    match l
    case WsOpen(h) => OpenTables(s, h);
    case WsClose(h, _) => CloseTables(s, h);
    case WsAdvertise(h, ads) =>
      T.AdvertiseKeeps(s.ros, s.tables, h, ads);
      ReplyTables(s, h, P.AdvertiseMessage(s.ros, s.tables, h, ads));
    case WsUnadvertise(h, ids) =>
      T.UnadvertiseKeeps(s.tables, h, ids);
      ReplyTables(s, h, P.UnadvertiseMessage(s.tables, h, ids));
    case _ => OtherTables(s, l);
  }

  lemma InvStep(s: System, l: Label)
    requires Inv(s) && Enabled(s, l)
    ensures Inv(Apply(s, l))
  {
    IdsStep(s, l);
    Monotone(s, l);
    TablesStep(s, l);
    AnnouncementsStep(s, l);
    if !Apply(s, l).collided {
      CoreStep(s, l);
    }
  }

  lemma InitOk(ros: Ros)
    ensures Inv(Init(ros))
  {
    assert Announced(NoBridge) == map[];
  }

  /** Every reachable state satisfies the invariant. */
  lemma {:induction false} RunKeeps(s: System, ls: seq<Label>, t: System)
    requires Inv(s) && Runs(s, ls, t)
    ensures Inv(t)
    decreases |ls|
  {
    if ls != [] {
      InvStep(s, ls[0]);
      RunKeeps(Apply(s, ls[0]), ls[1..], t);
    }
  }

  ghost predicate Reachable(ros: Ros, s: System) {
    exists ls: seq<Label> :: Runs(Init(ros), ls, s)
  }

  lemma ReachableOk(ros: Ros, s: System)
    requires Reachable(ros, s)
    ensures Inv(s)
  {
    InitOk(ros);
    var ls: seq<Label> :| Runs(Init(ros), ls, s);
    RunKeeps(Init(ros), ls, s);
  }
}
