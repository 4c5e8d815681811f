/**
 The batch functions that specify the handlers' loops are runs of the two-thread system in
 which the other thread does not move.
 */
module Refinement {
  import opened Common
  import opened Registry
  import opened Interleaving
  import opened Messages
  import P = Publications

  lemma Runs1(s: System, l: Label)
    requires Enabled(s, l)
    ensures Runs(s, [l], Apply(s, l))
  {
    RunsCons(s, l, [], Apply(s, l));
  }

  ghost predicate OnlySteps(ls: seq<Label>, l: Label) {
    forall k | k in ls :: k == l
  }

  /** The run starts with `first`, and the same thread completes it by its steps. */
  ghost predicate StartsWith(ls: seq<Label>, first: Label, then_: Label) {
    ls != [] && ls[0] == first && OnlySteps(ls[1..], then_)
  }

  lemma Joined(s: System, first: seq<Label>, s1: System, rest: seq<Label>, t: System)
    returns (ls: seq<Label>)
    requires Runs(s, first, s1) && OnlySteps(first, WsStep)
    requires Runs(s1, rest, t) && OnlySteps(rest, WsStep)
    ensures Runs(s, ls, t) && OnlySteps(ls, WsStep)
  {
    RunsConcat(s, first, s1, rest, t);
    ls := first + rest;
  }

  function WithSides(s: System, sides: Sides): System {
    s.(server := sides.server, bridge := sides.bridge)
  }

  function SidesOf(s: System): Sides {
    Sides(s.server, s.bridge)
  }

  /** One accepted or rejected item of a subscribe batch. */
  lemma SubscribeItemRuns(s: System, h: Handle, items: seq<SubscribeItem>) returns (ls: seq<Label>)
    requires s.ws == Subscribing(h, items) && items != [] && items[0].Subscribe?
    requires h in s.server.subs && !HoldsSubscriptionsMutex(s.graph)
    ensures OnlySteps(ls, WsStep)
    ensures var i := items[0];
      var srv := SubscribeServer(s.server, h, i.subId, i.channelId);
      var br := if SubscribeAccepted(s.server, h, i.subId, i.channelId)
                then SubscribeHandler(s.bridge, i.channelId, h, i.created) else s.bridge;
      Runs(s, ls, s.(server := srv, bridge := br, ws := Subscribing(h, items[1..])))
  {
    var s1 := Apply(s, WsStep);
    if SubscribeAccepted(s.server, h, items[0].subId, items[0].channelId) {
      Runs1(s1, WsStep);
      RunsCons(s, WsStep, [WsStep], Apply(s1, WsStep));
      return [WsStep, WsStep];
    } else {
      Runs1(s, WsStep);
      return [WsStep];
    }
  }

  lemma {:induction false} SubscribeBatchRuns(s: System, h: Handle, items: seq<SubscribeItem>)
    returns (ls: seq<Label>)
    requires s.ws == Subscribing(h, items)
    requires h in s.server.subs && !HoldsSubscriptionsMutex(s.graph)
    ensures OnlySteps(ls, WsStep)
    ensures Runs(s, ls, WithSides(s, SubscribeBatch(SidesOf(s), h, items)).(ws := WsIdle))
    decreases |items|
  {
    if items == [] || items[0].BadSubscribe? {
      Runs1(s, WsStep);
      return [WsStep];
    }
    var first := SubscribeItemRuns(s, h, items);
    var i := items[0];
    var srv := SubscribeServer(s.server, h, i.subId, i.channelId);
    var br := if SubscribeAccepted(s.server, h, i.subId, i.channelId)
              then SubscribeHandler(s.bridge, i.channelId, h, i.created) else s.bridge;
    var s1 := s.(server := srv, bridge := br, ws := Subscribing(h, items[1..]));
    var rest := SubscribeBatchRuns(s1, h, items[1..]);
    ls := Joined(s, first, s1, rest, WithSides(s, SubscribeBatch(SidesOf(s), h, items)).(ws := WsIdle));
  }

  lemma UnsubscribeItemRuns(s: System, h: Handle, ids: seq<Option<u32>>) returns (ls: seq<Label>)
    requires s.ws == Unsubscribing(h, ids) && ids != [] && ids[0].Some?
    requires h in s.server.subs && !HoldsSubscriptionsMutex(s.graph)
    ensures OnlySteps(ls, WsStep)
    ensures var srv := UnsubscribeServer(s.server, h, ids[0].value);
      var br := match FindBySubscriptionId(s.server.subs[h], ids[0].value)
                case None => s.bridge
                case Some(c) => UnsubscribeHandler(s.bridge, c, h);
      Runs(s, ls, s.(server := srv, bridge := br, ws := Unsubscribing(h, ids[1..])))
  {
    var s1 := Apply(s, WsStep);
    if FindBySubscriptionId(s.server.subs[h], ids[0].value).Some? {
      Runs1(s1, WsStep);
      RunsCons(s, WsStep, [WsStep], Apply(s1, WsStep));
      return [WsStep, WsStep];
    } else {
      Runs1(s, WsStep);
      return [WsStep];
    }
  }

  lemma {:induction false} UnsubscribeBatchRuns(s: System, h: Handle, ids: seq<Option<u32>>)
    returns (ls: seq<Label>)
    requires s.ws == Unsubscribing(h, ids)
    requires h in s.server.subs && !HoldsSubscriptionsMutex(s.graph)
    ensures OnlySteps(ls, WsStep)
    ensures Runs(s, ls, WithSides(s, UnsubscribeBatch(SidesOf(s), h, ids)).(ws := WsIdle))
    decreases |ids|
  {
    if ids == [] || ids[0].None? {
      Runs1(s, WsStep);
      return [WsStep];
    }
    var first := UnsubscribeItemRuns(s, h, ids);
    var srv := UnsubscribeServer(s.server, h, ids[0].value);
    var br := match FindBySubscriptionId(s.server.subs[h], ids[0].value)
              case None => s.bridge
              case Some(c) => UnsubscribeHandler(s.bridge, c, h);
    var s1 := s.(server := srv, bridge := br, ws := Unsubscribing(h, ids[1..]));
    var rest := UnsubscribeBatchRuns(s1, h, ids[1..]);
    ls := Joined(s, first, s1, rest, WithSides(s, UnsubscribeBatch(SidesOf(s), h, ids)).(ws := WsIdle));
  }

  lemma {:induction false} ClosingRuns(s: System, h: Handle, pending: seq<u32>)
    returns (ls: seq<Label>)
    requires s.ws == Closing(h, pending) && !HoldsSubscriptionsMutex(s.graph)
    ensures OnlySteps(ls, WsStep)
    ensures Runs(s, ls, s.(bridge := UnsubscribeAll(s.bridge, h, pending), ws := WsIdle))
    decreases |pending|
  {
    if pending == [] {
      Runs1(s, WsStep);
      return [WsStep];
    }
    var rest := ClosingRuns(Apply(s, WsStep), h, pending[1..]);
    RunsCons(s, WsStep, rest, s.(bridge := UnsubscribeAll(s.bridge, h, pending), ws := WsIdle));
    return [WsStep] + rest;
  }

  // ------------------------------------------------------------------ graph thread

  /** The removal loop, once every topic in it is advertised. */
  lemma TwoSteps(s: System, s1: System, rest: seq<Label>, t: System) returns (ls: seq<Label>)
    requires Enabled(s, GraphStep) && s1 == Apply(s, GraphStep) && Enabled(s1, GraphStep)
    requires Runs(Apply(s1, GraphStep), rest, t) && OnlySteps(rest, GraphStep)
    ensures Runs(s, ls, t) && OnlySteps(ls, GraphStep)
  {
    RunsCons(s1, GraphStep, rest, t);
    RunsCons(s, GraphStep, [GraphStep] + rest, t);
    ls := [GraphStep] + ([GraphStep] + rest);
  }

  lemma {:induction false} RemovingRuns(s: System) returns (ls: seq<Label>, t: System)
    requires s.graph.Removing? && !HoldsServerMutex(s.ws)
    requires Distinct(s.graph.removed)
    requires forall topic | topic in s.graph.removed :: topic in s.bridge.advertised
    ensures OnlySteps(ls, GraphStep)
    ensures Runs(s, ls, t)
    ensures SidesOf(t) == RemoveTopics(SidesOf(s), s.graph.removed)
    ensures t.graph == Adding(s.graph.added, s.graph.added != [])
    ensures t.ws == s.ws && t.tables == s.tables && t.ros == s.ros
    decreases |s.graph.removed|
  {
    var removed := s.graph.removed;
    if removed == [] {
      Runs1(s, GraphStep);
      return [GraphStep], Apply(s, GraphStep);
    }
    DistinctTail(removed);
    var s1 := Apply(s, GraphStep);
    var s2 := Apply(s1, GraphStep);
    forall topic | topic in removed[1..] ensures topic in s2.bridge.advertised {
      assert topic in removed && topic != removed[0];
    }
    var rest;
    rest, t := RemovingRuns(s2);
    ls := TwoSteps(s, s1, rest, t);
  }

  lemma {:induction false} AddingRuns(s: System) returns (ls: seq<Label>, t: System)
    requires s.graph.Adding? && !HoldsServerMutex(s.ws)
    ensures OnlySteps(ls, GraphStep)
    ensures Runs(s, ls, t)
    ensures SidesOf(t) == AddTopics(s.ros, SidesOf(s), s.graph.added)
    ensures t.graph == if s.graph.announce then Broadcasting else GraphIdle
    ensures t.ws == s.ws && t.tables == s.tables && t.ros == s.ros
    decreases |s.graph.added|
  {
    var added := s.graph.added;
    var s1 := Apply(s, GraphStep);
    if added == [] {
      Runs1(s, GraphStep);
      return [GraphStep], s1;
    }
    var rest;
    if NewChannel(s.ros, added[0].0, added[0].1).None? {
      rest, t := AddingRuns(s1);
      RunsCons(s, GraphStep, rest, t);
      return [GraphStep] + rest, t;
    }
    var s2 := Apply(s1, GraphStep);
    rest, t := AddingRuns(s2);
    ls := TwoSteps(s, s1, rest, t);
  }

  /** The critical section and the broadcast. */
  lemma LoopsRun(s: System) returns (ls: seq<Label>, t: System)
    requires s.graph.Removing? && !HoldsServerMutex(s.ws)
    requires Distinct(s.graph.removed)
    requires forall topic | topic in s.graph.removed :: topic in s.bridge.advertised
    ensures OnlySteps(ls, GraphStep)
    ensures Runs(s, ls, t)
    ensures SidesOf(t) == UpdateTopics(s.ros, SidesOf(s), s.graph.removed, s.graph.added)
    ensures t.graph == GraphIdle
    ensures t.ws == s.ws && t.tables == s.tables && t.ros == s.ros
  {
    var ls1, s1 := RemovingRuns(s);
    var ls2, s2 := AddingRuns(s1);
    RunsConcat(s, ls1, s1, ls2, s2);
    if s.graph.added == [] {
      return ls1 + ls2, s2;
    }
    var last;
    last, t := BroadcastRuns(s2);
    RunsConcat(s, ls1 + ls2, s2, last, t);
    ls := (ls1 + ls2) + last;
  }

  lemma BroadcastRuns(s: System) returns (ls: seq<Label>, t: System)
    requires s.graph.Broadcasting? && !HoldsServerMutex(s.ws)
    ensures OnlySteps(ls, GraphStep)
    ensures Runs(s, ls, t)
    ensures SidesOf(t) == Sides(BroadcastChannels(s.server), s.bridge)
    ensures t.graph == GraphIdle
    ensures t.ws == s.ws && t.tables == s.tables && t.ros == s.ros
  {
    t := Apply(s, GraphStep);
    Runs1(s, GraphStep);
    ls := [GraphStep];
  }

  /** One whole update without interference is a run of graph steps. */
  lemma UpdateRuns(s: System, latest: set<Topic>, removed: seq<Topic>,
                   added: seq<(Topic, SchemaLookup)>) returns (ls: seq<Label>, t: System)
    requires Enabled(s, GraphDiff(latest, removed, added)) && !HoldsServerMutex(s.ws)
    ensures StartsWith(ls, GraphDiff(latest, removed, added), GraphStep)
    ensures Runs(s, ls, t)
    ensures SidesOf(t) == UpdateTopics(s.ros, SidesOf(s), removed, added)
    ensures t.graph == GraphIdle
    ensures t.ws == s.ws && t.tables == s.tables && t.ros == s.ros
  {
    var diff := GraphDiff(latest, removed, added);
    var s1 := Apply(s, diff);
    var s2 := Apply(s1, GraphStep);
    assert forall topic | topic in removed :: topic in Elements(removed);
    ls, t := LoopsRun(s2);
    RunsCons(s1, GraphStep, ls, t);
    RunsCons(s, diff, [GraphStep] + ls, t);
    ls := [diff] + ([GraphStep] + ls);
  }

  // ------------------------------------------------------------------ whole messages

  function WholeOf(s: System): Whole {
    Whole(SidesOf(s), s.tables)
  }

  function WithWhole(s: System, w: Whole): System {
    WithSides(s, w.sides).(tables := w.tables)
  }

  /** How the WebSocket thread takes up a message. */
  function LabelOf(h: Handle, msg: TextMessage): Label {
    match msg
    case SubscribeMessage(items) => WsSubscribe(h, items)
    case UnsubscribeMessage(ids) => WsUnsubscribe(h, ids)
    case AdvertiseMessage(ads) => WsAdvertise(h, ads)
    case UnadvertiseMessage(ids) => WsUnadvertise(h, ids)
    case _ => WsReply(h)
  }

  /** A text message handled without interference is a run of the WebSocket thread. */
  lemma MessageRuns(s: System, h: Handle, msg: TextMessage) returns (ls: seq<Label>)
    requires s.ws.WsIdle? && !HoldsSubscriptionsMutex(s.graph)
    requires s.tables.advertised.Keys == s.server.subs.Keys
    ensures StartsWith(ls, LabelOf(h, msg), WsStep)
    ensures Runs(s, ls, WithWhole(s, Effect(s.ros, WholeOf(s), h, msg)))
  {
    var t := WithWhole(s, Effect(s.ros, WholeOf(s), h, msg));
    match msg
    case SubscribeMessage(items) =>
      if h in s.server.subs {
        ls := SubscribeBatchRuns(s.(ws := Subscribing(h, items)), h, items);
        RunsCons(s, WsSubscribe(h, items), ls, t);
        ls := [WsSubscribe(h, items)] + ls;
      } else {
        Runs1(s, WsSubscribe(h, items));
        ls := [WsSubscribe(h, items)];
      }
    case UnsubscribeMessage(ids) =>
      if h in s.server.subs {
        ls := UnsubscribeBatchRuns(s.(ws := Unsubscribing(h, ids)), h, ids);
        RunsCons(s, WsUnsubscribe(h, ids), ls, t);
        ls := [WsUnsubscribe(h, ids)] + ls;
      } else {
        Runs1(s, WsUnsubscribe(h, ids));
        ls := [WsUnsubscribe(h, ids)];
      }
    case AdvertiseMessage(ads) =>
      Runs1(s, WsAdvertise(h, ads));
      ls := [WsAdvertise(h, ads)];
      OneError();
    case UnadvertiseMessage(ids) =>
      Runs1(s, WsUnadvertise(h, ids));
      ls := [WsUnadvertise(h, ids)];
      OneError();
    case _ =>
      Runs1(s, WsReply(h));
      ls := [WsReply(h)];
  }

  lemma OneError()
    ensures Replies([Error]) == [Status(Error)]
  {}

  /** A disconnect handled without interference. */
  lemma CloseRuns(s: System, h: Handle, order: seq<u32>) returns (ls: seq<Label>)
    requires s.ws.WsIdle? && !HoldsSubscriptionsMutex(s.graph)
    requires h in s.server.subs && Enumerates(order, s.server.subs[h].Keys)
    ensures StartsWith(ls, WsClose(h, order), WsStep)
    ensures Runs(s, ls, s.(server := EraseClient(s.server, h), tables := P.CloseTables(s.tables, h),
                           bridge := UnsubscribeAll(s.bridge, h, order)))
  {
    var s1 := Apply(s, WsClose(h, order));
    ls := ClosingRuns(s1, h, order);
    RunsCons(s, WsClose(h, order), ls,
             s.(server := EraseClient(s.server, h), tables := P.CloseTables(s.tables, h),
                bridge := UnsubscribeAll(s.bridge, h, order)));
    ls := [WsClose(h, order)] + ls;
  }
}
