/**
 The two threads that share the registry, at the granularity of their lock operations.

 The WebSocket thread keeps `_clientsChannelMutex` for a whole text message and takes
 `_subscriptionsMutex` inside it for every handler call.  The graph thread keeps
 `_subscriptionsMutex` for its removal and advertising loops and takes `_clientsChannelMutex`
 inside them for every server call.  A section of one mutex in which no other is taken is one
 step.  ROS callbacks run on further threads and only look up and send.
 */
module Interleaving {
  import opened Common
  import opened Registry
  import P = Publications

  /** Where the WebSocket thread is.  All but `WsIdle` and `Closing` hold the server mutex. */
  datatype WsPc =
    | WsIdle
    | Subscribing(h: Handle, items: seq<SubscribeItem>)
    | SubscribeCall(h: Handle, c: u32, created: bool, items: seq<SubscribeItem>)
    | Unsubscribing(h: Handle, ids: seq<Option<u32>>)
    | UnsubscribeCall(h: Handle, c: u32, ids: seq<Option<u32>>)
    | Closing(h: Handle, pending: seq<u32>)

  /** Where the graph thread is.  `Removing` to `Inserting` hold the subscriptions mutex. */
  datatype GraphPc =
    | GraphIdle
    | Diffed(removed: seq<Topic>, added: seq<(Topic, SchemaLookup)>)
    | Removing(removed: seq<Topic>, added: seq<(Topic, SchemaLookup)>)
    | Erasing(t: Topic, removed: seq<Topic>, added: seq<(Topic, SchemaLookup)>)
    | Adding(added: seq<(Topic, SchemaLookup)>, announce: bool)
    | Inserting(t: Topic, ch: Channel, added: seq<(Topic, SchemaLookup)>, announce: bool)
    | Broadcasting

  predicate HoldsServerMutex(ws: WsPc) {
    !ws.WsIdle? && !ws.Closing?
  }

  predicate HoldsSubscriptionsMutex(g: GraphPc) {
    g.Removing? || g.Erasing? || g.Adding? || g.Inserting?
  }

  /** What the last `updateAdvertisedTopics` started from, and what new topics will say. */
  datatype Pass = Pass(before: map<Topic, Channel>, latest: set<Topic>,
                       described: map<Topic, ChannelWithoutId>, issuedBefore: nat)

  /**
   The shared state, both program counters, and history: the number of `addChannel` calls, the
   channel last issued under each id, whether an id was issued while still live, the channels
   added since the last broadcast, and the data frames looked up but not yet sent.
   */
  datatype System = System(
    ros: Ros,
    server: ServerSide,
    bridge: BridgeSide,
    tables: P.Tables,
    ws: WsPc,
    graph: GraphPc,
    issued: nat,
    history: map<u32, Channel>,
    collided: bool,
    unannounced: set<u32>,
    pass: Pass,
    inFlight: multiset<(Handle, Channel, u32)>)

  function Init(ros: Ros): System {
    System(ros, NoServer, NoBridge, P.NoTables, WsIdle, GraphIdle, 0, map[], false, {},
           Pass(map[], {}, map[], 0), multiset{})
  }

  datatype Label =
    | WsOpen(h: Handle)
    | WsClose(h: Handle, order: seq<u32>)
    | WsSubscribe(h: Handle, items: seq<SubscribeItem>)
    | WsUnsubscribe(h: Handle, ids: seq<Option<u32>>)
    | WsAdvertise(h: Handle, ads: seq<P.AdvertiseItem>)
    | WsUnadvertise(h: Handle, ids: seq<Option<u32>>)
    | WsReply(h: Handle)  // unparsable text, unknown operation, rejected binary frame
    | WsStep
    | GraphDiff(latest: set<Topic>, removed: seq<Topic>, added: seq<(Topic, SchemaLookup)>)
    | GraphStep
    | RosLookup(h: Handle, ch: Channel)
    | RosSend(h: Handle, ch: Channel, subId: u32)

  /** The next step of the graph thread locks the server mutex. */
  predicate GraphNeedsServerMutex(ros: Ros, g: GraphPc) {
    || (g.Removing? && g.removed != [])
    || (g.Adding? && g.added != [] && NewChannel(ros, g.added[0].0, g.added[0].1).Some?)
    || g.Broadcasting?
  }

  /** The next step of the WebSocket thread locks the subscriptions mutex. */
  predicate WsNeedsSubscriptionsMutex(ws: WsPc) {
    ws.SubscribeCall? || ws.UnsubscribeCall? || (ws.Closing? && ws.pending != [])
  }

  ghost predicate Enabled(s: System, l: Label) {
    match l
    case WsClose(h, order) =>
      s.ws.WsIdle? && (h in s.server.subs ==> Enumerates(order, s.server.subs[h].Keys))
    case WsStep =>
      && !s.ws.WsIdle?
      && (WsNeedsSubscriptionsMutex(s.ws) ==> !HoldsSubscriptionsMutex(s.graph))
    case GraphDiff(latest, removed, added) =>
      && s.graph.GraphIdle?
      && Enumerates(removed, s.bridge.advertised.Keys - latest)
      && Enumerates(TopicsOf(added), latest - s.bridge.advertised.Keys)
    case GraphStep =>
      && !s.graph.GraphIdle?
      && (GraphNeedsServerMutex(s.ros, s.graph) ==> !HoldsServerMutex(s.ws))
    case RosLookup(h, ch) =>
      !HoldsServerMutex(s.ws) && ch.id in s.history && s.history[ch.id] == ch
    case RosSend(h, ch, subId) => (h, ch, subId) in s.inFlight
    case _ => s.ws.WsIdle?
  }

  function Status1(s: System, h: Handle, level: StatusLevel): System {
    s.(server := Send(s.server, h, [Status(level)]))
  }

  function Reply(s: System, h: Handle, o: P.Outcome): System {
    s.(tables := o.tables, server := Send(s.server, h, Replies(o.replies)))
  }

  /**
   The WebSocket thread inside a text message, or in the unsubscribe loop of a close.  A batch
   keeps its client connected and a removed topic is advertised, so the branches for the
   opposite, here and in `GraphNext`, only make the functions total.
   */
  ghost function WsNext(s: System): System
    requires !s.ws.WsIdle?
  {
    match s.ws
    case Subscribing(h, items) =>
      if items == [] || h !in s.server.subs then s.(ws := WsIdle)
      else (match items[0]
            case BadSubscribe => Status1(s, h, Error).(ws := WsIdle)
            case Subscribe(subId, c, created) =>
              s.(server := SubscribeServer(s.server, h, subId, c),
                 ws := if SubscribeAccepted(s.server, h, subId, c)
                       then SubscribeCall(h, c, created, items[1..])
                       else Subscribing(h, items[1..])))
    case SubscribeCall(h, c, created, items) =>
      s.(bridge := SubscribeHandler(s.bridge, c, h, created), ws := Subscribing(h, items))
    case Unsubscribing(h, ids) =>
      if ids == [] || h !in s.server.subs then s.(ws := WsIdle)
      else (match ids[0]
            case None => Status1(s, h, Error).(ws := WsIdle)
            case Some(subId) =>
              s.(server := UnsubscribeServer(s.server, h, subId),
                 ws := match FindBySubscriptionId(s.server.subs[h], subId)
                       case None => Unsubscribing(h, ids[1..])
                       case Some(c) => UnsubscribeCall(h, c, ids[1..])))
    case UnsubscribeCall(h, c, ids) =>
      s.(bridge := UnsubscribeHandler(s.bridge, c, h), ws := Unsubscribing(h, ids))
    case Closing(h, pending) =>
      if pending == [] then s.(ws := WsIdle)
      else s.(bridge := UnsubscribeHandler(s.bridge, pending[0], h),
              ws := Closing(h, pending[1..]))
  }

  /** The graph thread after it has computed its two lists. */
  function GraphNext(s: System): System
    requires !s.graph.GraphIdle?
  {
    match s.graph
    case Diffed(removed, added) => s.(graph := Removing(removed, added))
    case Removing(removed, added) =>
      if removed == [] then s.(graph := Adding(added, added != []))
      else if removed[0] !in s.bridge.advertised then s
      else
        var id := s.bridge.advertised[removed[0]].id;
        s.(server := RemoveChannel(s.server, id), unannounced := s.unannounced - {id},
           graph := Erasing(removed[0], removed[1..], added))
    case Erasing(t, removed, added) =>
      if t !in s.bridge.advertised then s
      else s.(bridge := EraseTopic(s.bridge, t), graph := Removing(removed, added))
    case Adding(added, announce) =>
      if added == [] then s.(graph := if announce then Broadcasting else GraphIdle)
      else (match NewChannel(s.ros, added[0].0, added[0].1)
            case None => s.(graph := Adding(added[1..], announce))
            case Some(info) => Issue(s, added[0].0, info, added[1..], announce))
    case Inserting(t, ch, added, announce) =>
      s.(bridge := InsertTopic(s.bridge, t, ch), graph := Adding(added, announce))
    case Broadcasting =>
      s.(server := BroadcastChannels(s.server), unannounced := {}, graph := GraphIdle)
  }

  /** `addChannel` together with its history. */
  function Issue(s: System, t: Topic, info: ChannelWithoutId,
                 added: seq<(Topic, SchemaLookup)>, announce: bool): System
  {
    var ch := Channel(NextId(s.server), info);
    s.(server := AddChannel(s.server, info),
       issued := s.issued + 1,
       history := s.history[ch.id := ch],
       collided := s.collided || ch.id in s.server.channels,
       unannounced := s.unannounced + {ch.id},
       graph := Inserting(t, ch, added, announce))
  }

  /** The channels of the topics whose lookups did not fail. */
  function Described(ros: Ros, added: seq<(Topic, SchemaLookup)>): map<Topic, ChannelWithoutId>
    decreases |added|
  {
    if added == [] then map[]
    else
      var rest := Described(ros, added[1..]);
      match NewChannel(ros, added[0].0, added[0].1)
      case None => rest
      case Some(info) => rest[added[0].0 := info]
  }

  ghost function Apply(s: System, l: Label): System
    requires Enabled(s, l)
  {
    match l
    case WsOpen(h) => s.(server := OpenConnection(s.server, h), tables := P.OpenTables(s.tables, h))
    case WsClose(h, order) =>
      if h !in s.server.subs then s
      else s.(server := EraseClient(s.server, h), tables := P.CloseTables(s.tables, h),
              ws := Closing(h, order))
    case WsSubscribe(h, items) =>
      if h in s.server.subs then s.(ws := Subscribing(h, items)) else Status1(s, h, Error)
    case WsUnsubscribe(h, ids) =>
      if h in s.server.subs then s.(ws := Unsubscribing(h, ids)) else Status1(s, h, Error)
    case WsAdvertise(h, ads) => Reply(s, h, P.AdvertiseMessage(s.ros, s.tables, h, ads))
    case WsUnadvertise(h, ids) => Reply(s, h, P.UnadvertiseMessage(s.tables, h, ids))
    case WsReply(h) => Status1(s, h, Error)
    case WsStep => WsNext(s)
    case GraphDiff(latest, removed, added) =>
      s.(graph := Diffed(removed, added),
         pass := Pass(s.bridge.advertised, latest, Described(s.ros, added), s.issued))
    case GraphStep => GraphNext(s)
    case RosLookup(h, ch) =>
      (match LookupSubscription(s.server, h, ch.id)
       case None => s
       case Some(subId) => s.(inFlight := s.inFlight + multiset{(h, ch, subId)}))
    case RosSend(h, ch, subId) =>
      s.(inFlight := s.inFlight - multiset{(h, ch, subId)},
         server := Send(s.server, h, [MessageData(subId)]))
  }

  /** `ls` takes `s` to `t`. */
  ghost predicate Runs(s: System, ls: seq<Label>, t: System)
    decreases |ls|
  {
    if ls == [] then s == t
    else Enabled(s, ls[0]) && Runs(Apply(s, ls[0]), ls[1..], t)
  }

  lemma RunsCons(s: System, l: Label, ls: seq<Label>, t: System)
    requires Enabled(s, l) && Runs(Apply(s, l), ls, t)
    ensures Runs(s, [l] + ls, t)
  {
    assert ([l] + ls)[1..] == ls;
  }

  lemma RunsAhead(s: System, ls: seq<Label>, more: seq<Label>, u: System)
    requires ls != [] && Enabled(s, ls[0]) && Runs(Apply(s, ls[0]), ls[1..] + more, u)
    ensures Runs(s, ls + more, u)
  {
    RunsCons(s, ls[0], ls[1..] + more, u);
    HeadFirst(ls, more);
  }

  lemma {:induction false} RunsConcat(s: System, ls: seq<Label>, t: System, more: seq<Label>, u: System)
    requires Runs(s, ls, t) && Runs(t, more, u)
    ensures Runs(s, ls + more, u)
    decreases |ls|
  {
    if ls == [] {
      assert ls + more == more;
    } else {
      RunsConcat(Apply(s, ls[0]), ls[1..], t, more, u);
      RunsAhead(s, ls, more, u);
    }
  }
}
