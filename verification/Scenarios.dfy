/** Concrete runs: where the registry's promises end. */
module Scenarios {
  import opened Common
  import opened Registry
  import opened Interleaving
  import opened Invariant
  import opened Safety
  import opened Theorems
  import opened Refinement

  const TOPIC_A := Topic("/a", "std_msgs/String")
  const TOPIC_B := Topic("/b", "std_msgs/String")

  function InfoOf(ros: Ros, t: Topic): ChannelWithoutId {
    NewChannel(ros, t, Missing).value
  }

  lemma Extend(ros: Ros, s: System, l: Label)
    requires Reachable(ros, s) && Enabled(s, l)
    ensures Reachable(ros, Apply(s, l))
  {
    var ls: seq<Label> :| Runs(Init(ros), ls, s);
    Runs1(s, l);
    RunsConcat(Init(ros), ls, s, [l], Apply(s, l));
  }

  /** An update to `latest`, from a state in which nobody else moves. */
  lemma Update(ros: Ros, s: System, latest: set<Topic>, removed: seq<Topic>,
               added: seq<(Topic, SchemaLookup)>) returns (t: System)
    requires Reachable(ros, s) && s.graph.GraphIdle? && s.ws.WsIdle? && s.ros == ros
    requires Enumerates(removed, s.bridge.advertised.Keys - latest)
    requires Enumerates(TopicsOf(added), latest - s.bridge.advertised.Keys)
    ensures Reachable(ros, t) && t.graph.GraphIdle? && t.ws.WsIdle? && t.ros == ros
    ensures SidesOf(t) == UpdateTopics(ros, SidesOf(s), removed, added)
    ensures t.tables == s.tables
  {
    var more;
    more, t := UpdateRuns(s, latest, removed, added);
    var ls: seq<Label> :| Runs(Init(ros), ls, s);
    RunsConcat(Init(ros), ls, s, more, t);
  }

  lemma AddOne(ros: Ros, s: Sides, t: Topic)
    ensures var info := InfoOf(ros, t);
      UpdateTopics(ros, s, [], [(t, Missing)])
      == Sides(BroadcastChannels(AddChannel(s.server, info)),
               InsertTopic(s.bridge, t, Channel(NextId(s.server), info)))
  {
    var added := [(t, Missing)];
    var next := Sides(AddChannel(s.server, InfoOf(ros, t)),
                      InsertTopic(s.bridge, t, Channel(NextId(s.server), InfoOf(ros, t))));
    assert RemoveTopics(s, []) == s;
    assert added[1..] == [] && AddTopics(ros, next, []) == next;
    assert AddTopics(ros, s, added) == AddTopics(ros, next, added[1..]);
  }

  lemma RemoveOne(ros: Ros, s: Sides, t: Topic)
    requires t in s.bridge.advertised
    ensures UpdateTopics(ros, s, [t], [])
            == Sides(RemoveChannel(s.server, s.bridge.advertised[t].id), EraseTopic(s.bridge, t))
  {
    var removed := [t];
    var next := Sides(RemoveChannel(s.server, s.bridge.advertised[t].id), EraseTopic(s.bridge, t));
    assert removed[1..] == [] && RemoveTopics(next, []) == next;
    assert RemoveTopics(s, removed) == RemoveTopics(next, removed[1..]);
    assert AddTopics(ros, next, []) == next;
  }

  /** Both threads idle, topic A on channel 1, and `nextId` the last id issued. */
  predicate OnlyA(ros: Ros, s: System, nextId: u32) {
    var ch := Channel(1, InfoOf(ros, TOPIC_A));
    && s.graph.GraphIdle? && s.ws.WsIdle? && s.ros == ros
    && s.server.nextId == nextId
    && s.server.channels == map[1 := ch]
    && s.bridge.advertised == map[TOPIC_A := ch]
    && s.bridge.channelTopic == map[1 := TOPIC_A]
  }

  /** The effect of adding topic A to nothing. */
  lemma FirstTopic(ros: Ros)
    ensures var ch := Channel(1, InfoOf(ros, TOPIC_A));
      && BroadcastChannels(AddChannel(NoServer, ch.info)) == NoServer.(nextId := 1, channels := map[1 := ch])
      && InsertTopic(NoBridge, TOPIC_A, ch)
         == NoBridge.(advertised := map[TOPIC_A := ch], channelTopic := map[1 := TOPIC_A])
  {}

  lemma StartWithA(ros: Ros) returns (s: System)
    ensures Reachable(ros, s) && OnlyA(ros, s, 1)
    ensures s.server.subs == map[] && s.bridge.subscriptions == map[] && s.bridge.failed == {}
    ensures s.server.outbox == map[]
  {
    assert Runs(Init(ros), [], Init(ros));
    var added := [(TOPIC_A, Missing)];
    assert TopicsOf(added) == [TOPIC_A];
    assert Elements([TOPIC_A]) == {TOPIC_A};
    s := Update(ros, Init(ros), {TOPIC_A}, [], added);
    AddOne(ros, SidesOf(Init(ros)), TOPIC_A);
    FirstTopic(ros);
  }

  /** Adding topic B issues the next id. */
  lemma AddB(ros: Ros, s: System) returns (t: System)
    requires Reachable(ros, s) && OnlyA(ros, s, s.server.nextId)
    ensures Reachable(ros, t) && t.graph.GraphIdle? && t.ws.WsIdle? && t.ros == ros
    ensures t.server.nextId == NextId(s.server)
    ensures t.server.channels == AddChannel(s.server, InfoOf(ros, TOPIC_B)).channels
    ensures t.bridge == InsertTopic(s.bridge, TOPIC_B,
                                    Channel(NextId(s.server), InfoOf(ros, TOPIC_B)))
  {
    var added := [(TOPIC_B, Missing)];
    assert TopicsOf(added) == [TOPIC_B];
    assert {TOPIC_A, TOPIC_B} - s.bridge.advertised.Keys == {TOPIC_B} == Elements([TOPIC_B]);
    assert s.bridge.advertised.Keys - {TOPIC_A, TOPIC_B} == {} == Elements([]);
    t := Update(ros, s, {TOPIC_A, TOPIC_B}, [], added);
    AddOne(ros, SidesOf(s), TOPIC_B);
  }

  /** Removing topic B undoes its addition, but for the counter. */
  lemma RemoveB(ros: Ros, s: System, s1: System)
    requires OnlyA(ros, s, s.server.nextId) && NextId(s.server) != 1
    requires s1.server.channels == AddChannel(s.server, InfoOf(ros, TOPIC_B)).channels
    requires s1.bridge == InsertTopic(s.bridge, TOPIC_B,
                                      Channel(NextId(s.server), InfoOf(ros, TOPIC_B)))
    ensures var id := NextId(s.server);
      && TOPIC_B in s1.bridge.advertised && s1.bridge.advertised[TOPIC_B].id == id
      && EraseTopic(s1.bridge, TOPIC_B).advertised == s.bridge.advertised
      && EraseTopic(s1.bridge, TOPIC_B).channelTopic == s.bridge.channelTopic
      && RemoveChannel(s1.server, id).channels == s.server.channels
      && s1.bridge.advertised.Keys == {TOPIC_A, TOPIC_B}
  {
    DifferentTopics();
    AddRemove(s.server, s1.server, InfoOf(ros, TOPIC_B));
    InsertErase(s.bridge, TOPIC_B, Channel(NextId(s.server), InfoOf(ros, TOPIC_B)));
  }

  lemma DifferentTopics()
    ensures TOPIC_A != TOPIC_B
  {
    assert TOPIC_A.name[1] != TOPIC_B.name[1];
  }

  lemma AddRemove(srv: ServerSide, srv': ServerSide, info: ChannelWithoutId)
    requires NextId(srv) !in srv.channels && srv'.channels == AddChannel(srv, info).channels
    ensures RemoveChannel(srv', NextId(srv)).channels == srv.channels
  {}

  lemma InsertErase(br: BridgeSide, t: Topic, ch: Channel)
    requires t !in br.advertised && ch.id !in br.channelTopic
    ensures var br' := InsertTopic(br, t, ch);
      && t in br'.advertised && br'.advertised[t] == ch
      && br'.advertised.Keys == br.advertised.Keys + {t}
      && EraseTopic(br', t).advertised == br.advertised
      && EraseTopic(br', t).channelTopic == br.channelTopic
  {}

  /** Adding topic B and removing it again only advances the counter. */
  lemma Cycle(ros: Ros, s: System) returns (t: System)
    requires Reachable(ros, s) && OnlyA(ros, s, s.server.nextId) && NextId(s.server) != 1
    ensures Reachable(ros, t) && OnlyA(ros, t, NextId(s.server))
  {
    var s1 := AddB(ros, s);
    RemoveB(ros, s, s1);
    var removed := [TOPIC_B];
    assert s1.bridge.advertised.Keys - {TOPIC_A} == {TOPIC_B} == Elements(removed);
    assert {TOPIC_A} - s1.bridge.advertised.Keys == {} == Elements(TopicsOf([]));
    t := Update(ros, s1, {TOPIC_A}, removed, []);
    RemoveOne(ros, SidesOf(s1), TOPIC_B);
  }

  lemma NextAfter(srv: ServerSide, n: nat)
    requires 0 < n < ID_SPACE && srv.nextId == (1 + (n - 1)) % ID_SPACE
    ensures srv.nextId == n && NextId(srv) == (1 + n) % ID_SPACE != 1
  {}

  lemma {:induction false} Cycles(ros: Ros, n: nat) returns (s: System)
    requires n < ID_SPACE
    ensures Reachable(ros, s) && OnlyA(ros, s, (1 + n) % ID_SPACE)
    decreases n
  {
    if n == 0 {
      s := StartWithA(ros);
    } else {
      var s0 := Cycles(ros, n - 1);
      NextAfter(s0.server, n);
      s := Cycle(ros, s0);
    }
  }

  /**
   The bound on additions is needed: a run that wraps the counter issues the live id 1 again and
   leaves, with both threads idle, the bridge's two maps in disagreement.
   */
  lemma WrapBreaksRegistry(ros: Ros) returns (s: System)
    ensures Reachable(ros, s) && s.graph.GraphIdle? && s.ws.WsIdle?
    ensures TOPIC_B in s.bridge.advertised && s.bridge.advertised[TOPIC_B].id == 1
    ensures 1 in s.bridge.channelTopic && s.bridge.channelTopic[1] == TOPIC_A
    ensures !MapsOk(s.bridge)
  {
    var s0 := Cycles(ros, ID_SPACE - 1);
    s := AddB(ros, s0);
  }

  // ------------------------------------------------------------------ one connected client

  /** Client 7 is connected with subscriptions `subs`; A is advertised on channel 1. */
  predicate Client7(ros: Ros, s: System, subs: map<u32, u32>) {
    var ch := Channel(1, InfoOf(ros, TOPIC_A));
    && s.graph.GraphIdle? && s.ros == ros
    && s.server.subs == map[7 := subs]
    && s.server.channels == map[1 := ch]
    && s.bridge.advertised == map[TOPIC_A := ch]
    && s.bridge.channelTopic == map[1 := TOPIC_A]
  }

  lemma Connected7(ros: Ros) returns (s: System)
    ensures Reachable(ros, s) && Client7(ros, s, map[]) && s.ws.WsIdle?
    ensures s.bridge.subscriptions == map[]
  {
    var s0 := StartWithA(ros);
    Extend(ros, s0, WsOpen(7));
    s := Apply(s0, WsOpen(7));
  }

  /** The client asks for channel 1 as subscription 5; the server has accepted. */
  lemma Subscribing7(ros: Ros) returns (s: System)
    ensures Reachable(ros, s) && Client7(ros, s, map[1 := 5])
    ensures s.ws == SubscribeCall(7, 1, true, []) && s.bridge.subscriptions == map[]
  {
    var s1 := Connected7(ros);
    var items := [Subscribe(5, 1, true)];
    Extend(ros, s1, WsSubscribe(7, items));
    var s2 := s1.(ws := Subscribing(7, items));
    assert Apply(s1, WsSubscribe(7, items)) == s2;
    Extend(ros, s2, WsStep);
    AcceptsItem(ros, s2, items);
    s := WsNext(s2);
  }

  lemma AcceptsItem(ros: Ros, s: System, items: seq<SubscribeItem>)
    requires Client7(ros, s, map[]) && s.ws == Subscribing(7, items)
    requires items == [Subscribe(5, 1, true)]
    ensures WsNext(s) == s.(server := s.server.(subs := map[7 := map[1 := 5]]),
                            ws := SubscribeCall(7, 1, true, []))
  {
    Accepts5(ros, s);
    assert items[1..] == [];
  }

  lemma Accepts5(ros: Ros, s: System)
    requires Client7(ros, s, map[])
    ensures SubscribeAccepted(s.server, 7, 5, 1)
    ensures SubscribeServer(s.server, 7, 5, 1) == s.server.(subs := map[7 := map[1 := 5]])
  {
    var added: map<u32, u32> := map[1 := 5];
    assert s.server.subs[7] == map[] && s.server.subs[7] + added == added;
    assert s.server.subs[7 := added] == map[7 := added];
  }

  lemma Subscribed7(ros: Ros) returns (s: System)
    ensures Reachable(ros, s) && Client7(ros, s, map[1 := 5]) && s.ws.WsIdle?
    ensures Entry(s.bridge, 1, 7)
  {
    var s1 := Subscribing7(ros);
    Extend(ros, s1, WsStep);
    var s2 := Apply(s1, WsStep);
    Extend(ros, s2, WsStep);
    s := Apply(s2, WsStep);
  }

  /** The graph thread finds A gone and enters its critical section. */
  lemma RemovingA(ros: Ros, s: System) returns (t: System)
    requires Reachable(ros, s) && s.graph.GraphIdle?
    requires s.bridge.advertised.Keys == {TOPIC_A}
    ensures Reachable(ros, t) && t.graph == Removing([TOPIC_A], [])
    ensures t.server == s.server && t.bridge == s.bridge && t.ws == s.ws && t.ros == s.ros
  {
    var removed := [TOPIC_A];
    assert s.bridge.advertised.Keys - {} == {TOPIC_A} == Elements(removed);
    assert {} - s.bridge.advertised.Keys == {} == Elements(TopicsOf([]));
    var diff := GraphDiff({}, removed, []);
    Extend(ros, s, diff);
    var s1 := Apply(s, diff);
    Extend(ros, s1, GraphStep);
    t := Apply(s1, GraphStep);
  }

  /** Opposite lock orders meet: a subscribe request during an update can block both threads. */
  lemma CircularWaitReachable(ros: Ros) returns (s: System)
    ensures Reachable(ros, s) && CircularWait(s)
    ensures !Enabled(s, WsStep) && !Enabled(s, GraphStep)
  {
    var s0 := Subscribing7(ros);
    s := RemovingA(ros, s0);
    BlockedIffCircular(s);
  }

  /** A close and a removal can both be in flight for the same ROS subscription. */
  lemma CloseAndRemovalOverlap(ros: Ros) returns (s: System)
    ensures Reachable(ros, s) && Entry(s.bridge, 1, 7)
    ensures ClosePending(s.ws, 1, 7) && RemovalPending(s.bridge, s.graph, 1)
  {
    var s0 := Subscribed7(ros);
    var order: seq<u32> := [1];
    assert Elements(order) == {1} == s0.server.subs[7].Keys;
    Extend(ros, s0, WsClose(7, order));
    var s1 := Apply(s0, WsClose(7, order));
    var s2 := RemovingA(ros, s1);
    Extend(ros, s2, GraphStep);
    s := Apply(s2, GraphStep);
    assert s.bridge == s0.bridge;
  }
}
