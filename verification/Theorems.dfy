/** What the registry promises over every interleaving of its threads. */
module Theorems {
  import opened Common
  import opened Registry
  import opened ClientView
  import opened Interleaving
  import opened Invariant
  import opened Safety
  import P = Publications
  import T = PublicationSafety

  // ------------------------------------------------------------------ the two sides agree

  /**
   Every ROS subscription is backed by the client's subscription on the server, or is in flight:
   an unsubscribe between its two erasures excludes every other case, while a close and a
   removal may be in flight for the same entry.
   */
  lemma BridgeSubscriptionsAccountedFor(ros: Ros, s: System, c: u32, h: Handle)
    requires Reachable(ros, s) && !s.collided && Entry(s.bridge, c, h)
    ensures var pending := ClosePending(s.ws, c, h) || RemovalPending(s.bridge, s.graph, c);
      || (Subscribed(s.server, h, c) && !UnsubscribePending(s.ws, c, h) && !pending)
      || (!Subscribed(s.server, h, c) && UnsubscribePending(s.ws, c, h) && !pending)
      || (!Subscribed(s.server, h, c) && !UnsubscribePending(s.ws, c, h) && pending)
  {
    ReachableOk(ros, s);
    LiveSubscriptions(s.server, s.unannounced);
    Accounted(s.server, s.bridge, s.ws, s.graph, c, h);
  }

  lemma Accounted(srv: ServerSide, br: BridgeSide, ws: WsPc, g: GraphPc, c: u32, h: Handle)
    requires AgreeOk(srv.channels, br, g) && LinksOk(srv, br, ws, g) && Entry(br, c, h)
    requires Subscribed(srv, h, c) ==> c in srv.channels
    ensures var pending := ClosePending(ws, c, h) || RemovalPending(br, g, c);
      || (Subscribed(srv, h, c) && !UnsubscribePending(ws, c, h) && !pending)
      || (!Subscribed(srv, h, c) && UnsubscribePending(ws, c, h) && !pending)
      || (!Subscribed(srv, h, c) && !UnsubscribePending(ws, c, h) && pending)
  {}

  /** With both threads idle the two sides hold the same subscriptions, up to failed creations. */
  lemma IdleSidesAgree(ros: Ros, s: System, c: u32, h: Handle)
    requires Reachable(ros, s) && !s.collided && s.ws.WsIdle? && s.graph.GraphIdle?
    ensures Entry(s.bridge, c, h) <==> Subscribed(s.server, h, c) && (c, h) !in s.bridge.failed
  {
    ReachableOk(ros, s);
  }

  /** The subscribe handler never takes its early returns for a channel just accepted. */
  lemma HandlerKnowsAcceptedChannel(ros: Ros, s: System)
    requires Reachable(ros, s) && !s.collided && s.ws.SubscribeCall? && Enabled(s, WsStep)
    ensures HandlerFindsChannel(s.bridge, s.ws.c)
    ensures var br' := Apply(s, WsStep).bridge;
      Entry(br', s.ws.c, s.ws.h) || (s.ws.c, s.ws.h) in br'.failed
  {
    ReachableOk(ros, s);
    SubscribeCallFindsChannel(s.server, s.bridge, s.ws, s.graph);
    SubscribeHandlerEntries(s.bridge, s.ws.c, s.ws.h, s.ws.created);
    SubscribeCallStep(s);
  }

  lemma SubscribeCallStep(s: System)
    requires s.ws.SubscribeCall? && Enabled(s, WsStep)
    ensures Apply(s, WsStep).bridge == SubscribeHandler(s.bridge, s.ws.c, s.ws.h, s.ws.created)
  {}

  /** Outside the graph thread's critical section the bridge's maps mirror the server's channels. */
  lemma RegistryMirrors(ros: Ros, s: System)
    requires Reachable(ros, s) && !s.collided && !HoldsSubscriptionsMutex(s.graph)
    ensures forall t: Topic, c: u32 ::
              (t in s.bridge.advertised && s.bridge.advertised[t].id == c)
              <==> (c in s.bridge.channelTopic && s.bridge.channelTopic[c] == t)
    ensures forall ch: Channel ::
              (ch.id in s.server.channels && s.server.channels[ch.id] == ch)
              <==> (exists t :: t in s.bridge.advertised && s.bridge.advertised[t] == ch)
    ensures s.bridge.subscriptions.Keys <= s.server.channels.Keys
  {
    ReachableOk(ros, s);
    var channels := Announced(s.bridge);
    assert s.server.channels == channels;
    forall ch: Channel
      ensures (ch.id in channels && channels[ch.id] == ch)
              <==> (exists t :: t in s.bridge.advertised && s.bridge.advertised[t] == ch)
    {
      if ch.id in channels && channels[ch.id] == ch {
        assert s.bridge.advertised[s.bridge.channelTopic[ch.id]] == ch;
      }
    }
  }

  /** Subscription ids tell a client's channels apart, and its channels are live: in every run. */
  lemma SubscriptionsInjective(ros: Ros, s: System, h: Handle)
    requires Reachable(ros, s) && h in s.server.subs
    ensures Injective(s.server.subs[h])
    ensures s.server.subs[h].Keys <= s.server.channels.Keys
  {
    ReachableOk(ros, s);
    assert SubscriptionsOk(s.server.subs[h], s.server.channels);
  }

  /** Unsubscribing undoes exactly the one accepted subscribe with the same id. */
  lemma UnsubscribeUndoesSubscribe(ros: Ros, s: System, h: Handle, subId: u32, c: u32)
    requires Reachable(ros, s) && h in s.server.subs
    requires SubscribeAccepted(s.server, h, subId, c)
    ensures UnsubscribeServer(SubscribeServer(s.server, h, subId, c), h, subId).subs
            == s.server.subs
    ensures FindBySubscriptionId(SubscribeServer(s.server, h, subId, c).subs[h], subId)
            == if c in s.server.subs[h] then None else Some(c)
  {
    SubscriptionsInjective(ros, s, h);
    SubscribeThenUnsubscribe(s.server, h, subId, c);
  }

  lemma SubscribeThenUnsubscribe(srv: ServerSide, h: Handle, subId: u32, c: u32)
    requires h in srv.subs && Injective(srv.subs[h]) && SubscribeAccepted(srv, h, subId, c)
    ensures UnsubscribeServer(SubscribeServer(srv, h, subId, c), h, subId).subs == srv.subs
    ensures FindBySubscriptionId(SubscribeServer(srv, h, subId, c).subs[h], subId)
            == if c in srv.subs[h] then None else Some(c)
  {
    var srv' := SubscribeServer(srv, h, subId, c);
    if c !in srv.subs[h] {
      assert srv'.subs[h][c] == subId;
      assert srv'.subs[h] - {c} == srv.subs[h];
    }
  }

  // ------------------------------------------------------------------ the client's view

  /** Replaying its messages never gives a client a channel that is not live. */
  lemma ViewNeverStale(ros: Ros, s: System, h: Handle)
    requires Reachable(ros, s) && h in s.server.subs
    ensures h in s.server.outbox
    ensures var view := Replay(s.server.outbox[h]);
      && (forall c | c in view :: c in s.server.channels && view[c] == s.server.channels[c])
      && (forall c | c in s.server.channels && c !in view :: c in s.unannounced)
  {
    ReachableOk(ros, s);
    assert OutboxOk(s.server.outbox[h], s.server.channels, s.unannounced);
  }

  /** Between two updates every connected client knows exactly the live channels. */
  lemma ViewCompleteAfterUpdate(ros: Ros, s: System, h: Handle)
    requires Reachable(ros, s) && h in s.server.subs && s.graph.GraphIdle?
    ensures h in s.server.outbox && Replay(s.server.outbox[h]) == s.server.channels
  {
    ReachableOk(ros, s);
    assert OutboxOk(s.server.outbox[h], s.server.channels, {});
    CompleteView(Replay(s.server.outbox[h]), s.server.channels);
  }

  // ------------------------------------------------------------------ one update

  ghost predicate NoDiff(ls: seq<Label>) {
    forall l | l in ls :: !l.GraphDiff?
  }

  lemma {:induction false} PassStays(s: System, ls: seq<Label>, t: System)
    requires Runs(s, ls, t) && NoDiff(ls)
    ensures t.pass == s.pass
    decreases |ls|
  {
    if ls != [] {
      assert ls[0] in ls && forall l | l in ls[1..] :: l in ls;
      if ls[0].WsStep? {
        WsNextFrame(s);
      }
      PassStays(Apply(s, ls[0]), ls[1..], t);
    }
  }

  /** A run from the start of an update to its end, other steps interleaved. */
  ghost predicate UpdateRun(ros: Ros, s: System, l: Label, ls: seq<Label>, t: System) {
    && Reachable(ros, s) && l.GraphDiff? && Enabled(s, l)
    && Runs(Apply(s, l), ls, t) && NoDiff(ls) && t.graph.GraphIdle?
  }

  /**
   An update, however it is interleaved, ends with the old topics that are still visible, on
   their old channels, and the new ones whose lookup did not fail, each with the channel that its
   lookup gave; new ids exceed all earlier ones.
   */
  lemma UpdateReconciles(ros: Ros, s: System, l: Label, ls: seq<Label>, t: System)
    requires UpdateRun(ros, s, l, ls, t) && !t.collided
    ensures var old_, new_ := s.bridge.advertised, t.bridge.advertised;
      && new_.Keys == (old_.Keys * l.latest)
                      + (set q | q in l.added && NewChannel(s.ros, q.0, q.1).Some? :: q.0)
      && (forall topic | topic in new_ && topic in old_ :: new_[topic] == old_[topic])
      && (forall q | q in l.added && NewChannel(s.ros, q.0, q.1).Some? ::
            new_[q.0].info == NewChannel(s.ros, q.0, q.1).value)
      && (t.issued < ID_SPACE ==>
            && (forall c: u32 | c in s.history :: c <= s.issued)
            && (forall topic | topic in new_ && topic !in old_ :: new_[topic].id > s.issued))
  {
    UpdateEnds(ros, s, l, ls, t);
    EndTopics(s.ros, s.bridge.advertised, t.bridge.advertised, l.latest, l.added, s.issued);
  }

  /** What the invariant says where an update ends, told from where it started. */
  lemma UpdateEnds(ros: Ros, s: System, l: Label, ls: seq<Label>, t: System)
    requires UpdateRun(ros, s, l, ls, t) && !t.collided
    ensures UpdateOk(s.ros, t.bridge.advertised, GraphIdle,
                     Pass(s.bridge.advertised, l.latest, Described(s.ros, l.added), s.issued))
    ensures t.issued < ID_SPACE ==>
              && (forall c: u32 | c in s.history :: c <= s.issued)
              && (forall topic | topic in t.bridge.advertised && topic !in s.bridge.advertised ::
                    t.bridge.advertised[topic].id > s.issued)
  {
    ReachableOk(ros, s);
    DiffFacts(s, l);
    RunFacts(Apply(s, l), ls, t);
    HistoryOk(s);
    EndOk(t, s.ros, Pass(s.bridge.advertised, l.latest, Described(s.ros, l.added), s.issued));
  }

  lemma DiffFacts(s: System, l: Label)
    requires Inv(s) && l.GraphDiff? && Enabled(s, l)
    ensures var s1 := Apply(s, l);
      && Inv(s1) && s1.ros == s.ros && s1.issued == s.issued
      && s1.pass == Pass(s.bridge.advertised, l.latest, Described(s.ros, l.added), s.issued)
  {
    InvStep(s, l);
  }

  lemma RunFacts(s: System, ls: seq<Label>, t: System)
    requires Inv(s) && Runs(s, ls, t) && NoDiff(ls)
    ensures Inv(t) && t.ros == s.ros && t.pass == s.pass && s.issued <= t.issued
  {
    PassStays(s, ls, t);
    RunKeeps(s, ls, t);
    RunMonotone(s, ls, t);
    RosStays(s, ls, t);
  }

  lemma HistoryOk(s: System)
    requires Inv(s)
    ensures s.issued < ID_SPACE ==> forall c: u32 | c in s.history :: c <= s.issued
  {}

  lemma EndOk(t: System, ros: Ros, p: Pass)
    requires Inv(t) && !t.collided && t.graph.GraphIdle? && t.ros == ros && t.pass == p
    ensures UpdateOk(ros, t.bridge.advertised, GraphIdle, p)
    ensures t.issued < ID_SPACE ==>
              forall topic | topic in t.bridge.advertised && topic !in p.before ::
                t.bridge.advertised[topic].id > p.issuedBefore
  {}

  lemma {:induction false} RosStays(s: System, ls: seq<Label>, t: System)
    requires Runs(s, ls, t)
    ensures t.ros == s.ros
    decreases |ls|
  {
    if ls != [] {
      if ls[0].WsStep? {
        WsNextFrame(s);
      }
      RosStays(Apply(s, ls[0]), ls[1..], t);
    }
  }

  lemma EndTopics(ros: Ros, before: map<Topic, Channel>, after: map<Topic, Channel>,
                  latest: set<Topic>, added: seq<(Topic, SchemaLookup)>, issued: nat)
    requires Enumerates(TopicsOf(added), latest - before.Keys)
    requires UpdateOk(ros, after, GraphIdle, Pass(before, latest, Described(ros, added), issued))
    ensures after.Keys == (before.Keys * latest)
                          + (set q | q in added && NewChannel(ros, q.0, q.1).Some? :: q.0)
    ensures forall topic | topic in after && topic in before :: after[topic] == before[topic]
    ensures forall q | q in added && NewChannel(ros, q.0, q.1).Some? ::
              after[q.0].info == NewChannel(ros, q.0, q.1).value
  {
    GainedTopics(ros, before, latest, added, issued);
  }

  /** New topics, one by one. */
  lemma GainedTopics(ros: Ros, advertised: map<Topic, Channel>, latest: set<Topic>,
                     added: seq<(Topic, SchemaLookup)>, issued: nat)
    requires Enumerates(TopicsOf(added), latest - advertised.Keys)
    ensures Gained(Pass(advertised, latest, Described(ros, added), issued))
            == set q | q in added && NewChannel(ros, q.0, q.1).Some? :: q.0
    ensures forall q | q in added && NewChannel(ros, q.0, q.1).Some? ::
              && q.0 !in advertised && q.0 in Described(ros, added)
              && Described(ros, added)[q.0] == NewChannel(ros, q.0, q.1).value
  {
    DescribedAll(ros, added);
    forall q | q in added
      ensures LookedUp(ros, q, Described(ros, added)) && q.0 in latest - advertised.Keys
    {
      var i :| 0 <= i < |added| && added[i] == q;
      assert TopicsOf(added)[i] in Elements(TopicsOf(added));
    }
    forall t | t in Gained(Pass(advertised, latest, Described(ros, added), issued))
      ensures exists q :: q in added && NewChannel(ros, q.0, q.1).Some? && q.0 == t
    {
      assert t in Elements(TopicsOf(added));
      var i :| 0 <= i < |added| && TopicsOf(added)[i] == t;
      assert added[i] in added;
    }
  }

  /** After an update every connected client knows each new topic with what its lookup gave. */
  lemma UpdateReachesClients(ros: Ros, s: System, l: Label, ls: seq<Label>, t: System, h: Handle,
                             q: (Topic, SchemaLookup))
    requires UpdateRun(ros, s, l, ls, t) && !t.collided && h in t.server.subs
    requires q in l.added && NewChannel(s.ros, q.0, q.1).Some?
    ensures h in t.server.outbox && q.0 in t.bridge.advertised
    ensures var id := t.bridge.advertised[q.0].id;
      && id in Replay(t.server.outbox[h])
      && Replay(t.server.outbox[h])[id] == Channel(id, NewChannel(s.ros, q.0, q.1).value)
  {
    UpdateReconciles(ros, s, l, ls, t);
    UpdateRunReaches(ros, s, l, ls, t);
    ViewCompleteAfterUpdate(ros, t, h);
    RegistryMirrors(ros, t);
    var ch := t.bridge.advertised[q.0];
    assert ch.id in t.server.channels && t.server.channels[ch.id] == ch;
  }

  lemma UpdateRunReaches(ros: Ros, s: System, l: Label, ls: seq<Label>, t: System)
    requires UpdateRun(ros, s, l, ls, t)
    ensures Reachable(ros, t)
  {
    var before: seq<Label> :| Runs(Init(ros), before, s);
    RunsCons(s, l, ls, t);
    RunsConcat(Init(ros), before, s, [l] + ls, t);
  }

  lemma {:induction false} RunMonotone(s: System, ls: seq<Label>, t: System)
    requires Runs(s, ls, t)
    ensures s.issued <= t.issued
    ensures s.collided ==> t.collided
    decreases |ls|
  {
    if ls != [] {
      Monotone(s, ls[0]);
      RunMonotone(Apply(s, ls[0]), ls[1..], t);
    }
  }

  // ------------------------------------------------------------------ delivery

  /** A data frame carries the id under which exactly the callback's own live channel is subscribed. */
  lemma DeliveryIsExact(ros: Ros, s: System, h: Handle, ch: Channel)
    requires Reachable(ros, s) && s.issued < ID_SPACE && Enabled(s, RosLookup(h, ch))
    ensures var found := LookupSubscription(s.server, h, ch.id);
      found.Some? ==>
        && ch.id in s.server.channels && s.server.channels[ch.id] == ch
        && (forall c: u32 ::
              c in s.server.subs[h] && s.server.subs[h][c] == found.value <==> c == ch.id)
        && h in s.server.outbox
        && (ch.id in Replay(s.server.outbox[h]) ==> Replay(s.server.outbox[h])[ch.id] == ch)
  {
    ReachableOk(ros, s);
    if LookupSubscription(s.server, h, ch.id).Some? {
      SubscriptionsInjective(ros, s, h);
      ViewNeverStale(ros, s, h);
    }
  }

  /** A channel that was removed is never live again. */
  lemma {:induction false} RemovedStaysRemoved(s: System, ls: seq<Label>, t: System, c: u32)
    requires Inv(s) && Runs(s, ls, t) && t.issued < ID_SPACE
    requires 1 <= c <= s.issued && c !in s.server.channels
    ensures c !in t.server.channels
    ensures forall h: Handle :: LookupSubscription(t.server, h, c) == None
    decreases |ls|
  {
    RunKeeps(s, ls, t);
    LiveSubscriptions(t.server, t.unannounced);
    if ls != [] {
      var s' := Apply(s, ls[0]);
      Monotone(s, ls[0]);
      RunMonotone(s', ls[1..], t);
      InvStep(s, ls[0]);
      RemovedStepKeeps(s, ls[0], c);
      RemovedStaysRemoved(s', ls[1..], t, c);
    } else {
      forall h: Handle ensures LookupSubscription(t.server, h, c) == None {
        assert Subscribed(t.server, h, c) ==> c in t.server.channels;
      }
    }
  }

  /** Only `addChannel` makes an id live, and only the one it issues. */
  lemma NewlyLive(s: System, l: Label, c: u32)
    requires Enabled(s, l) && c in Apply(s, l).server.channels && c !in s.server.channels
    ensures Apply(s, l).issued == s.issued + 1 && c == NextId(s.server)
  {
    match l
    case WsStep => WsNextFrame(s);
    case GraphStep => GraphNewlyLive(s, c);
    case _ =>
  }

  lemma GraphNewlyLive(s: System, c: u32)
    requires !s.graph.GraphIdle? && c in GraphNext(s).server.channels && c !in s.server.channels
    ensures GraphNext(s).issued == s.issued + 1 && c == NextId(s.server)
  {}

  lemma RemovedStepKeeps(s: System, l: Label, c: u32)
    requires IdsOk(IdsOf(s)) && Enabled(s, l) && Apply(s, l).issued < ID_SPACE
    requires 1 <= c <= s.issued && c !in s.server.channels
    ensures c !in Apply(s, l).server.channels
  {
    if c in Apply(s, l).server.channels {
      NewlyLive(s, l, c);
    }
  }

  lemma ClosedStep(s: System, l: Label, h: Handle)
    requires Enabled(s, l) && h !in s.server.subs && l != WsOpen(h)
    ensures h !in Apply(s, l).server.subs
  {
    if l.WsStep? {
      WsNextFrame(s);
    }
  }

  /** A closed client receives nothing until its handle connects again. */
  lemma {:induction false} ClosedStaysClosed(s: System, ls: seq<Label>, t: System, h: Handle)
    requires Runs(s, ls, t) && h !in s.server.subs
    requires forall l | l in ls :: l != WsOpen(h)
    ensures forall c: u32 :: LookupSubscription(t.server, h, c) == None
    decreases |ls|
  {
    if ls != [] {
      assert ls[0] in ls && forall l | l in ls[1..] :: l in ls;
      ClosedStep(s, ls[0], h);
      ClosedStaysClosed(Apply(s, ls[0]), ls[1..], t, h);
    }
  }

  // ------------------------------------------------------------------ id reuse

  /** Fewer than 2^32 additions never issue a live id. */
  lemma NoReuseBeforeWrap(ros: Ros, s: System)
    requires Reachable(ros, s) && s.issued < ID_SPACE
    ensures !s.collided
    ensures forall c | c in s.server.channels :: 1 <= c <= s.issued
  {
    ReachableOk(ros, s);
  }

  /** An addition keeps the bridge's maps inverse exactly when its id is not live. */
  lemma AdditionKeepsMapsIff(s: System, info: ChannelWithoutId)
    requires Core(s) && s.graph.Adding? && s.graph.added != [] && !HoldsServerMutex(s.ws)
    requires NewChannel(s.ros, s.graph.added[0].0, s.graph.added[0].1) == Some(info)
    ensures MapsOk(GraphNext(GraphNext(s)).bridge) <==> NextId(s.server) !in s.server.channels
  {
    var t, id := s.graph.added[0].0, NextId(s.server);
    AddUpdate(s.ros, s.bridge.advertised, s.graph, s.pass, Channel(id, info));
    var br' := InsertTopic(s.bridge, t, Channel(id, info));
    assert GraphNext(GraphNext(s)).bridge == br';
    assert s.server.channels == Announced(s.bridge);
    assert s.server.channels.Keys == s.bridge.channelTopic.Keys;
    if id in s.server.channels {
      assert br'.advertised[t].id == id && br'.channelTopic[id] != t;
    } else {
      AddRegistry(s.server, s.bridge, s.ws, s.graph, info);
      InsertRegistry(AddChannel(s.server, info), s.bridge, s.ws, GraphNext(s).graph);
    }
  }

  // ------------------------------------------------------------------ publications

  /** Publishers, server channels and advertised ids of a client are nested; a gone client has none. */
  lemma PublicationsNested(ros: Ros, s: System, h: Handle)
    requires Reachable(ros, s)
    ensures P.PublishersOf(s.tables.publishers, h).Keys <= P.ChannelsOf(s.tables, h).Keys
    ensures h in s.server.subs ==>
              && h in s.tables.advertised
              && P.ChannelsOf(s.tables, h).Keys <= s.tables.advertised[h]
    ensures h !in s.server.subs ==>
              h !in s.tables.clientChannels && P.PublishersOf(s.tables.publishers, h) == map[]
  {
    ReachableOk(ros, s);
    assert T.HandleOk(s.tables, h);
    if h !in s.server.subs {
      assert P.PublishersOf(s.tables.publishers, h).Keys == {};
    }
  }

  // ------------------------------------------------------------------ circular wait

  /** Each thread holds one mutex and waits for the other's. */
  predicate CircularWait(s: System) {
    && HoldsServerMutex(s.ws) && WsNeedsSubscriptionsMutex(s.ws)
    && HoldsSubscriptionsMutex(s.graph) && GraphNeedsServerMutex(s.ros, s.graph)
  }

  /** Two busy threads are both blocked exactly in a circular wait. */
  lemma BlockedIffCircular(s: System)
    requires !s.ws.WsIdle? && !s.graph.GraphIdle?
    ensures !Enabled(s, WsStep) && !Enabled(s, GraphStep) <==> CircularWait(s)
  {}

  /** A circular wait never ends: later steps only send frames looked up before it. */
  lemma {:induction false} CircularWaitIsForever(s: System, ls: seq<Label>, t: System)
    requires CircularWait(s) && Runs(s, ls, t)
    ensures CircularWait(t) && t.ws == s.ws && t.graph == s.graph && t.inFlight <= s.inFlight
    ensures t.server.(outbox := s.server.outbox) == s.server && t.bridge == s.bridge
    decreases |ls|
  {
    if ls != [] {
      assert ls[0].RosSend?;
      CircularWaitIsForever(Apply(s, ls[0]), ls[1..], t);
    }
  }
}
