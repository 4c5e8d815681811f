/**
 What messages, connects and disconnects do to subscriptions and outboxes, told on the tables and
 without the functions that compute it.
 */
module SubscriptionEffects {
  import opened Common
  import opened Registry
  import E = PublicationEffects

  // ------------------------------------------------------------------ one item

  /** One more message, and nothing else, has gone to the client. */
  ghost predicate Told(srv: ServerSide, srv': ServerSide, h: Handle, msg: ServerMessage) {
    && srv'.nextId == srv.nextId && srv'.channels == srv.channels && srv'.subs == srv.subs
    && srv'.outbox.Keys == srv.outbox.Keys
    && (forall h' | h' in srv.outbox ::
          srv'.outbox[h'] == if h' == h then srv.outbox[h'] + [msg] else srv.outbox[h'])
  }

  /** The bridge advertises a topic under the id. */
  predicate Known(br: BridgeSide, c: u32) {
    c in br.channelTopic && br.channelTopic[c] in br.advertised
  }

  /** The bridge's subscriptions and failures are the same but for this client's to the channel. */
  ghost predicate SameBut(br: BridgeSide, br': BridgeSide, c: u32, h: Handle) {
    && br'.advertised == br.advertised && br'.channelTopic == br.channelTopic
    && (forall c': u32, h': Handle | !(c' == c && h' == h) ::
          && (Entry(br', c', h') <==> Entry(br, c', h'))
          && (Entry(br, c', h') ==> br'.subscriptions[c'][h'] == br.subscriptions[c'][h'])
          && ((c', h') in br'.failed <==> (c', h') in br.failed))
  }

  /** `emplace` */
  function Emplaced(subs: map<u32, u32>, c: u32, subId: u32): map<u32, u32> {
    if c in subs then subs else subs[c := subId]
  }

  /**
   One subscription request: an id in use is an error and an unknown channel a warning, neither
   with any further effect.  Otherwise the channel is recorded under the id, unless it has one, and
   the bridge, if it knows the channel and serves the client none yet, asks ROS.
   */
  ghost predicate SubscribedOne(s: Sides, s': Sides, h: Handle, subId: u32, c: u32, created: bool)
    requires h in s.server.subs
  {
    var subs := s.server.subs[h];
    if exists c' :: c' in subs && subs[c'] == subId then
      Told(s.server, s'.server, h, Status(Error)) && s'.bridge == s.bridge
    else if c !in s.server.channels then
      Told(s.server, s'.server, h, Status(Warning)) && s'.bridge == s.bridge
    else
      && s'.server == s.server.(subs := s.server.subs[h := Emplaced(subs, c, subId)])
      && SameBut(s.bridge, s'.bridge, c, h)
      && (Known(s.bridge, c) && !Entry(s.bridge, c, h) ==>
            && (Entry(s'.bridge, c, h) <==> created)
            && ((c, h) in s'.bridge.failed <==> !created)
            && (created ==> s'.bridge.subscriptions[c][h]
                            == Subscriber(s.bridge.advertised[s.bridge.channelTopic[c]], h)))
      && (!Known(s.bridge, c) || Entry(s.bridge, c, h) ==> s'.bridge == s.bridge)
  }

  lemma SubscribeOneExact(s: Sides, h: Handle, subId: u32, c: u32, created: bool)
    requires h in s.server.subs
    ensures SubscribedOne(s, SubscribeBatch(s, h, [Subscribe(subId, c, created)]), h, subId, c, created)
  {
    var items := [Subscribe(subId, c, created)];
    assert items[1..] == [];
    var srv := SubscribeServer(s.server, h, subId, c);
    var br := if SubscribeAccepted(s.server, h, subId, c)
              then SubscribeHandler(s.bridge, c, h, created) else s.bridge;
    assert SubscribeBatch(Sides(srv, br), h, []) == Sides(srv, br);
    AddSubscription(s.server.subs[h], c, subId);
    HandlerEffect(s.bridge, c, h, created);
  }

  lemma AddSubscription(subs: map<u32, u32>, c: u32, subId: u32)
    ensures var added: map<u32, u32> := map[c := subId];
      c !in subs ==> subs + added == Emplaced(subs, c, subId)
  {}

  lemma HandlerEffect(br: BridgeSide, c: u32, h: Handle, created: bool)
    ensures var br' := SubscribeHandler(br, c, h, created);
      && SameBut(br, br', c, h)
      && (Known(br, c) && !Entry(br, c, h) ==>
            && (Entry(br', c, h) <==> created)
            && ((c, h) in br'.failed <==> !created)
            && (created ==> br'.subscriptions[c][h] == Subscriber(br.advertised[br.channelTopic[c]], h)))
      && (!Known(br, c) || Entry(br, c, h) ==> br' == br)
  {}

  /**
   One id to unsubscribe: an unknown one is a warning without any further effect.  Otherwise the
   channel it belongs to loses its subscription on both sides, and nothing is sent.
   */
  lemma UnsubscribeOneExact(s: Sides, h: Handle, subId: u32)
    requires h in s.server.subs && Injective(s.server.subs[h])
    ensures var s' := UnsubscribeBatch(s, h, [Some(subId)]);
      && ((forall c | c in s.server.subs[h] :: s.server.subs[h][c] != subId) ==>
            Told(s.server, s'.server, h, Status(Warning)) && s'.bridge == s.bridge)
      && (forall c | c in s.server.subs[h] && s.server.subs[h][c] == subId ::
            && s'.server == s.server.(subs := s.server.subs[h := s.server.subs[h] - {c}])
            && SameBut(s.bridge, s'.bridge, c, h) && !Entry(s'.bridge, c, h)
            && s'.bridge.failed == s.bridge.failed)
  {
    var ids := [Some(subId)];
    assert ids[1..] == [];
    var srv := UnsubscribeServer(s.server, h, subId);
    match FindBySubscriptionId(s.server.subs[h], subId)
    case None =>
      assert UnsubscribeBatch(Sides(srv, s.bridge), h, []) == Sides(srv, s.bridge);
    case Some(c) =>
      var br := UnsubscribeHandler(s.bridge, c, h);
      assert UnsubscribeBatch(Sides(srv, br), h, []) == Sides(srv, br);
      UnsubscribeEffect(s.bridge, c, h);
  }

  lemma UnsubscribeEffect(br: BridgeSide, c: u32, h: Handle)
    ensures var br' := UnsubscribeHandler(br, c, h);
      SameBut(br, br', c, h) && !Entry(br', c, h) && br'.failed == br.failed
  {
    if Entry(br, c, h) {
      var clients := br.subscriptions[c] - {h};
      forall h': Handle | h' in br.subscriptions[c] && h' != h ensures clients != map[] {
        assert h' in clients;
      }
    }
  }

  // ------------------------------------------------------------------ batches

  ghost predicate Parsed(items: seq<SubscribeItem>) {
    forall i | i in items :: i.Subscribe?
  }

  ghost predicate ParsedIds(ids: seq<Option<u32>>) {
    forall i | i in ids :: i.Some?
  }

  lemma Tail<T>(a: seq<T>, b: seq<T>)
    requires a != []
    ensures (a + b)[0] == a[0] && (a + b)[1..] == a[1..] + b
  {}

  /** Items are handled one after the other, rejected ones included, up to one that does not parse. */
  lemma {:induction false} SubscribeBatchSplits(s: Sides, h: Handle, a: seq<SubscribeItem>,
                                                b: seq<SubscribeItem>)
    requires h in s.server.subs
    ensures h in SubscribeBatch(s, h, a).server.subs
    ensures SubscribeBatch(s, h, a + b)
            == if Parsed(a) then SubscribeBatch(SubscribeBatch(s, h, a), h, b) else SubscribeBatch(s, h, a)
    decreases |a|
  {
    if a == [] {
      assert a + b == b;
    } else {
      Tail(a, b);
      assert Parsed(a) <==> a[0].Subscribe? && Parsed(a[1..]) by {
        assert a == [a[0]] + a[1..];
      }
      if a[0].Subscribe? {
        var srv := SubscribeServer(s.server, h, a[0].subId, a[0].channelId);
        var br := if SubscribeAccepted(s.server, h, a[0].subId, a[0].channelId)
                  then SubscribeHandler(s.bridge, a[0].channelId, h, a[0].created) else s.bridge;
        SubscribeBatchSplits(Sides(srv, br), h, a[1..], b);
      }
    }
  }

  /** The one that does not parse is answered with an error and ends the batch. */
  lemma SubscribeBatchEnds(s: Sides, h: Handle, b: seq<SubscribeItem>)
    requires h in s.server.subs
    ensures SubscribeBatch(s, h, []) == s
    ensures var s' := SubscribeBatch(s, h, [BadSubscribe] + b);
      Told(s.server, s'.server, h, Status(Error)) && s'.bridge == s.bridge
  {}

  lemma {:induction false} UnsubscribeBatchSplits(s: Sides, h: Handle, a: seq<Option<u32>>,
                                                  b: seq<Option<u32>>)
    requires h in s.server.subs
    ensures h in UnsubscribeBatch(s, h, a).server.subs
    ensures UnsubscribeBatch(s, h, a + b)
            == if ParsedIds(a) then UnsubscribeBatch(UnsubscribeBatch(s, h, a), h, b)
               else UnsubscribeBatch(s, h, a)
    decreases |a|
  {
    if a == [] {
      assert a + b == b;
    } else {
      Tail(a, b);
      assert ParsedIds(a) <==> a[0].Some? && ParsedIds(a[1..]) by {
        assert a == [a[0]] + a[1..];
      }
      if a[0].Some? {
        var srv := UnsubscribeServer(s.server, h, a[0].value);
        var br := match FindBySubscriptionId(s.server.subs[h], a[0].value)
                  case None => s.bridge
                  case Some(c) => UnsubscribeHandler(s.bridge, c, h);
        UnsubscribeBatchSplits(Sides(srv, br), h, a[1..], b);
      }
    }
  }

  lemma UnsubscribeBatchEnds(s: Sides, h: Handle, b: seq<Option<u32>>)
    requires h in s.server.subs
    ensures UnsubscribeBatch(s, h, []) == s
    ensures var s' := UnsubscribeBatch(s, h, [None] + b);
      Told(s.server, s'.server, h, Status(Error)) && s'.bridge == s.bridge
  {}

  /** An unsubscribe batch takes away exactly the subscriptions named before it ends, on both sides. */
  lemma {:induction false} UnsubscribeBatchExact(s: Sides, h: Handle, ids: seq<Option<u32>>, c: u32)
    requires h in s.server.subs && Injective(s.server.subs[h])
    ensures var s' := UnsubscribeBatch(s, h, ids);
      var gone := c in s.server.subs[h] && E.Named(ids, s.server.subs[h][c]);
      && h in s'.server.subs && Injective(s'.server.subs[h])
      && (c in s'.server.subs[h] <==> c in s.server.subs[h] && !gone)
      && (c in s'.server.subs[h] ==> s'.server.subs[h][c] == s.server.subs[h][c])
      && (Entry(s'.bridge, c, h) <==> Entry(s.bridge, c, h) && !gone)
    decreases |ids|
  {
    if ids != [] {
      if c in s.server.subs[h] {
        E.NamedTail(ids, s.server.subs[h][c]);
      }
      if ids[0].Some? {
        var srv := UnsubscribeServer(s.server, h, ids[0].value);
        match FindBySubscriptionId(s.server.subs[h], ids[0].value)
        case None =>
          UnsubscribeBatchExact(Sides(srv, s.bridge), h, ids[1..], c);
        case Some(found) =>
          UnsubscribeEffect(s.bridge, found, h);
          UnsubscribeBatchExact(Sides(srv, UnsubscribeHandler(s.bridge, found, h)), h, ids[1..], c);
      }
    }
  }

  // ------------------------------------------------------------------ everybody else

  /** Nothing about another client has changed, nor the channels and the topics. */
  ghost predicate SameOthers(s: Sides, s': Sides, h: Handle) {
    && s'.server.nextId == s.server.nextId && s'.server.channels == s.server.channels
    && s'.server.subs.Keys == s.server.subs.Keys && s'.server.outbox.Keys == s.server.outbox.Keys
    && (forall h' | h' in s.server.subs && h' != h :: s'.server.subs[h'] == s.server.subs[h'])
    && (forall h' | h' in s.server.outbox && h' != h :: s'.server.outbox[h'] == s.server.outbox[h'])
    && s'.bridge.advertised == s.bridge.advertised && s'.bridge.channelTopic == s.bridge.channelTopic
    && (forall c: u32, h': Handle | h' != h ::
          && (Entry(s'.bridge, c, h') <==> Entry(s.bridge, c, h'))
          && (Entry(s.bridge, c, h') ==> s'.bridge.subscriptions[c][h'] == s.bridge.subscriptions[c][h']))
  }

  lemma SubscribeItemOthers(s: Sides, h: Handle, subId: u32, c: u32, created: bool)
    requires h in s.server.subs
    ensures SameOthers(s, Sides(SubscribeServer(s.server, h, subId, c),
                                if SubscribeAccepted(s.server, h, subId, c)
                                then SubscribeHandler(s.bridge, c, h, created) else s.bridge), h)
  {
    HandlerEffect(s.bridge, c, h, created);
  }

  lemma {:induction false} SubscribeBatchOthers(s: Sides, h: Handle, items: seq<SubscribeItem>)
    requires h in s.server.subs
    ensures SameOthers(s, SubscribeBatch(s, h, items), h)
    decreases |items|
  {
    if items != [] && items[0].Subscribe? {
      var i := items[0];
      SubscribeItemOthers(s, h, i.subId, i.channelId, i.created);
      var s1 := Sides(SubscribeServer(s.server, h, i.subId, i.channelId),
                      if SubscribeAccepted(s.server, h, i.subId, i.channelId)
                      then SubscribeHandler(s.bridge, i.channelId, h, i.created) else s.bridge);
      SubscribeBatchOthers(s1, h, items[1..]);
      OthersTwice(s, s1, SubscribeBatch(s1, h, items[1..]), h);
    }
  }

  lemma OthersTwice(s: Sides, s1: Sides, s2: Sides, h: Handle)
    requires SameOthers(s, s1, h) && SameOthers(s1, s2, h)
    ensures SameOthers(s, s2, h)
  {}

  lemma UnsubscribeItemOthers(s: Sides, h: Handle, subId: u32)
    requires h in s.server.subs
    ensures SameOthers(s, Sides(UnsubscribeServer(s.server, h, subId),
                                match FindBySubscriptionId(s.server.subs[h], subId)
                                case None => s.bridge
                                case Some(c) => UnsubscribeHandler(s.bridge, c, h)), h)
  {
    match FindBySubscriptionId(s.server.subs[h], subId)
    case None =>
    case Some(c) => UnsubscribeEffect(s.bridge, c, h);
  }

  lemma {:induction false} UnsubscribeBatchOthers(s: Sides, h: Handle, ids: seq<Option<u32>>)
    requires h in s.server.subs
    ensures SameOthers(s, UnsubscribeBatch(s, h, ids), h)
    decreases |ids|
  {
    if ids != [] && ids[0].Some? {
      UnsubscribeItemOthers(s, h, ids[0].value);
      var s1 := Sides(UnsubscribeServer(s.server, h, ids[0].value),
                      match FindBySubscriptionId(s.server.subs[h], ids[0].value)
                      case None => s.bridge
                      case Some(c) => UnsubscribeHandler(s.bridge, c, h));
      UnsubscribeBatchOthers(s1, h, ids[1..]);
      OthersTwice(s, s1, UnsubscribeBatch(s1, h, ids[1..]), h);
    }
  }

  // ------------------------------------------------------------------ connections

  /** A disconnect unsubscribes the client from the given channels and nobody from anything else. */
  lemma {:induction false} UnsubscribeAllExact(br: BridgeSide, h: Handle, cs: seq<u32>, c: u32, h': Handle)
    ensures var br' := UnsubscribeAll(br, h, cs);
      && br'.advertised == br.advertised && br'.channelTopic == br.channelTopic && br'.failed == br.failed
      && (Entry(br', c, h') <==> Entry(br, c, h') && !(h' == h && c in cs))
    decreases |cs|
  {
    if cs != [] {
      UnsubscribeEffect(br, cs[0], h);
      UnsubscribeAllExact(UnsubscribeHandler(br, cs[0], h), h, cs[1..], c, h');
      assert c in cs <==> c == cs[0] || c in cs[1..] by {
        assert cs == [cs[0]] + cs[1..];
      }
    }
  }
}
