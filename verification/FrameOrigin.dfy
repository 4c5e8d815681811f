/** Where the data frames that clients receive come from. */
module FrameOrigin {
  import opened Common
  import opened Registry
  import opened Interleaving
  import opened Safety
  import opened Theorems
  import P = Publications

  /** A client, the channel of the callback that serves it, and a subscription id. */
  type Frame = (Handle, Channel, u32)

  // ------------------------------------------------------------------ lookups and sends

  /** The frame that a step looks up, if any. */
  function LookedUpBy(s: System, l: Label): multiset<Frame> {
    if !l.RosLookup? then multiset{}
    else match LookupSubscription(s.server, l.h, l.ch.id)
      case None => multiset{}
      case Some(subId) => multiset{(l.h, l.ch, subId)}
  }

  /** All frames looked up in a run. */
  ghost function Lookups(s: System, ls: seq<Label>, t: System): multiset<Frame>
    requires Runs(s, ls, t)
    decreases |ls|
  {
    if ls == [] then multiset{} else LookedUpBy(s, ls[0]) + Lookups(Apply(s, ls[0]), ls[1..], t)
  }

  function SentBy(l: Label): multiset<Frame> {
    if l.RosSend? then multiset{(l.h, l.ch, l.subId)} else multiset{}
  }

  /** All frames sent by the steps `ls`. */
  function Sends(ls: seq<Label>): multiset<Frame> {
    if ls == [] then multiset{} else SentBy(ls[0]) + Sends(ls[1..])
  }

  lemma InFlightStep(s: System, l: Label)
    requires Enabled(s, l)
    ensures SentBy(l) + Apply(s, l).inFlight == LookedUpBy(s, l) + s.inFlight
  {
    if l.WsStep? {
      WsNextInFlight(s);
    }
  }

  lemma WsNextInFlight(s: System)
    requires !s.ws.WsIdle?
    ensures WsNext(s).inFlight == s.inFlight
  {}

  /** In every run each frame sent was looked up, and each lookup is sent once or is in flight. */
  lemma {:induction false} FramesConserved(s: System, ls: seq<Label>, t: System)
    requires Runs(s, ls, t)
    ensures Sends(ls) + t.inFlight == Lookups(s, ls, t) + s.inFlight
    decreases |ls|
  {
    if ls != [] {
      InFlightStep(s, ls[0]);
      FramesConserved(Apply(s, ls[0]), ls[1..], t);
      Balance(SentBy(ls[0]), Sends(ls[1..]), LookedUpBy(s, ls[0]), Lookups(Apply(s, ls[0]), ls[1..], t),
              s.inFlight, Apply(s, ls[0]).inFlight, t.inFlight);
    }
  }

  lemma Balance<T>(sent: multiset<T>, sends: multiset<T>, found: multiset<T>, finds: multiset<T>,
                   a: multiset<T>, b: multiset<T>, c: multiset<T>)
    requires sent + b == found + a && sends + c == finds + b
    ensures (sent + sends) + c == (found + finds) + a
  {
    assert (sent + sends) + c == sent + (finds + b) == (found + a) + finds;
  }

  /** A frame looked up in a run was so in some state of it. */
  lemma {:induction false} LookupState(s: System, ls: seq<Label>, t: System, x: Frame)
    returns (k: nat, u: System)
    requires Runs(s, ls, t) && x in Lookups(s, ls, t)
    ensures k < |ls| && Runs(s, ls[..k], u) && ls[k] == RosLookup(x.0, x.1) && Enabled(u, ls[k])
    ensures LookupSubscription(u.server, x.0, x.1.id) == Some(x.2)
    decreases |ls|
  {
    if x in LookedUpBy(s, ls[0]) {
      assert ls[..0] == [];
      return 0, s;
    }
    k, u := LookupState(Apply(s, ls[0]), ls[1..], t, x);
    RunsCons(s, ls[0], ls[1..][..k], u);
    PrefixCons(ls, k);
    k := k + 1;
  }

  lemma PrefixCons<T>(s: seq<T>, k: nat)
    requires k < |s|
    ensures [s[0]] + s[1..][..k] == s[..k + 1]
    ensures k < |s| - 1 ==> s[1..][k] == s[k + 1]
  {}

  // ------------------------------------------------------------------ frames received

  /** How many frames with a subscription id a client has been sent. */
  function Received(srv: ServerSide, h: Handle, subId: u32): nat {
    if h in srv.outbox then multiset(srv.outbox[h])[MessageData(subId)] else 0
  }

  function FramesIn(msgs: seq<ServerMessage>, subId: u32): nat {
    multiset(msgs)[MessageData(subId)]
  }

  /** How many frames `ls` sends to a client under a subscription id. */
  function SentTo(ls: seq<Label>, h: Handle, subId: u32): nat {
    if ls == [] then 0
    else (if ls[0].RosSend? && ls[0].h == h && ls[0].subId == subId then 1 else 0)
         + SentTo(ls[1..], h, subId)
  }

  lemma SendReceived(srv: ServerSide, to: Handle, msgs: seq<ServerMessage>, h: Handle, subId: u32)
    ensures Received(Send(srv, to, msgs), h, subId)
            <= Received(srv, h, subId) + if to == h then FramesIn(msgs, subId) else 0
  {
    if h in srv.outbox {
      assert multiset(srv.outbox[h] + msgs) == multiset(srv.outbox[h]) + multiset(msgs);
    }
  }

  lemma StatusReceived(srv: ServerSide, to: Handle, levels: seq<StatusLevel>, h: Handle, subId: u32)
    ensures Received(Send(srv, to, Replies(levels)), h, subId) <= Received(srv, h, subId)
  {
    SendReceived(srv, to, Replies(levels), h, subId);
    assert MessageData(subId) !in Replies(levels);
  }

  lemma OneStatus(level: StatusLevel)
    ensures Replies([level]) == [Status(level)]
  {}

  lemma AllReceived(srv: ServerSide, msg: ServerMessage, h: Handle, subId: u32)
    requires !msg.MessageData?
    ensures Received(SendAll(srv, msg), h, subId) == Received(srv, h, subId)
  {
    if h in srv.outbox {
      assert multiset(srv.outbox[h] + [msg]) == multiset(srv.outbox[h]) + multiset{msg};
    }
  }

  lemma OpenReceived(srv: ServerSide, to: Handle, h: Handle, subId: u32)
    ensures Received(OpenConnection(srv, to), h, subId) <= Received(srv, h, subId)
  {
    var greeting := [ServerInfo, Advertise(srv.channels)];
    if to == h && h in srv.outbox {
      assert multiset(srv.outbox[h] + greeting) == multiset(srv.outbox[h]) + multiset(greeting);
    }
  }

  lemma WsReceived(s: System, h: Handle, subId: u32)
    requires !s.ws.WsIdle?
    ensures Received(WsNext(s).server, h, subId) <= Received(s.server, h, subId)
  {
    match s.ws
    case Subscribing(to, items) =>
      if items != [] && to in s.server.subs {
        match items[0]
        case BadSubscribe =>
          OneStatus(Error);
          StatusReceived(s.server, to, [Error], h, subId);
        case Subscribe(id, c, _) => SubscribeReceived(s.server, to, id, c, h, subId);
      }
    case Unsubscribing(to, ids) =>
      if ids != [] && to in s.server.subs {
        match ids[0]
        case None =>
          OneStatus(Error);
          StatusReceived(s.server, to, [Error], h, subId);
        case Some(id) => UnsubscribeReceived(s.server, to, id, h, subId);
      }
    case _ =>
  }

  lemma SubscribeReceived(srv: ServerSide, to: Handle, id: u32, c: u32, h: Handle, subId: u32)
    requires to in srv.subs
    ensures Received(SubscribeServer(srv, to, id, c), h, subId) <= Received(srv, h, subId)
  {
    OneStatus(Error);
    OneStatus(Warning);
    StatusReceived(srv, to, [Error], h, subId);
    StatusReceived(srv, to, [Warning], h, subId);
  }

  lemma UnsubscribeReceived(srv: ServerSide, to: Handle, id: u32, h: Handle, subId: u32)
    requires to in srv.subs
    ensures Received(UnsubscribeServer(srv, to, id), h, subId) <= Received(srv, h, subId)
  {
    OneStatus(Warning);
    StatusReceived(srv, to, [Warning], h, subId);
  }

  lemma GraphReceived(s: System, h: Handle, subId: u32)
    requires !s.graph.GraphIdle?
    ensures Received(GraphNext(s).server, h, subId) <= Received(s.server, h, subId)
  {
    match s.graph
    case Removing(removed, _) =>
      if removed != [] && removed[0] in s.bridge.advertised {
        RemoveReceived(s.server, s.bridge.advertised[removed[0]].id, h, subId);
      }
    case Broadcasting => AllReceived(s.server, Advertise(s.server.channels), h, subId);
    case _ =>
  }

  lemma RemoveReceived(srv: ServerSide, id: u32, h: Handle, subId: u32)
    ensures Received(RemoveChannel(srv, id), h, subId) == Received(srv, h, subId)
  {
    AllReceived(srv.(channels := srv.channels - {id},
                     subs := map h | h in srv.subs :: srv.subs[h] - {id}),
                Unadvertise(id), h, subId);
  }

  lemma StepReceived(s: System, l: Label, h: Handle, subId: u32)
    requires Enabled(s, l)
    ensures Received(Apply(s, l).server, h, subId) <= Received(s.server, h, subId) + SentTo([l], h, subId)
  {
    OneStatus(Error);
    match l
    case WsOpen(to) => OpenReceived(s.server, to, h, subId);
    case WsClose(_, _) =>
    case WsSubscribe(to, _) => StatusReceived(s.server, to, [Error], h, subId);
    case WsUnsubscribe(to, _) => StatusReceived(s.server, to, [Error], h, subId);
    case WsReply(to) => StatusReceived(s.server, to, [Error], h, subId);
    case WsAdvertise(to, ads) =>
      StatusReceived(s.server, to, P.AdvertiseMessage(s.ros, s.tables, to, ads).replies, h, subId);
    case WsUnadvertise(to, ids) =>
      StatusReceived(s.server, to, P.UnadvertiseMessage(s.tables, to, ids).replies, h, subId);
    case WsStep => WsReceived(s, h, subId);
    case GraphStep => GraphReceived(s, h, subId);
    case RosSend(to, _, id) => SendReceived(s.server, to, [MessageData(id)], h, subId);
    case _ =>
  }

  /** Clients receive no frame that was not sent to them. */
  lemma {:induction false} ReceivedWasSent(s: System, ls: seq<Label>, t: System, h: Handle, subId: u32)
    requires Runs(s, ls, t)
    ensures Received(t.server, h, subId) <= Received(s.server, h, subId) + SentTo(ls, h, subId)
    decreases |ls|
  {
    if ls != [] {
      StepReceived(s, ls[0], h, subId);
      ReceivedWasSent(Apply(s, ls[0]), ls[1..], t, h, subId);
    }
  }

  lemma {:induction false} SentIsSend(ls: seq<Label>, h: Handle, subId: u32)
    requires SentTo(ls, h, subId) > 0
    ensures exists ch: Channel :: (h, ch, subId) in Sends(ls)
    decreases |ls|
  {
    if ls[0].RosSend? && ls[0].h == h && ls[0].subId == subId {
      assert (h, ls[0].ch, subId) in Sends(ls);
    } else {
      SentIsSend(ls[1..], h, subId);
      var ch :| (h, ch, subId) in Sends(ls[1..]);
      assert (h, ch, subId) in Sends(ls);
    }
  }

  // ------------------------------------------------------------------ subscribers are served

  /**
   While no message is being handled, a callback for a live channel looks up every subscriber: the
   id under which the client has subscribed, however many other subscriptions it has, is in
   flight, and sending it appends exactly that frame to the client's messages.
   */
  lemma SubscriberIsServed(ros: Ros, s: System, h: Handle, ch: Channel)
    requires Reachable(ros, s) && s.issued < ID_SPACE && s.ws.WsIdle?
    requires ch.id in s.server.channels && s.server.channels[ch.id] == ch
    requires h in s.server.subs && ch.id in s.server.subs[h]
    ensures Enabled(s, RosLookup(h, ch))
    ensures var subId, t := s.server.subs[h][ch.id], Apply(s, RosLookup(h, ch));
      && t == s.(inFlight := s.inFlight + multiset{(h, ch, subId)})
      && Enabled(t, RosSend(h, ch, subId))
      && var u := Apply(t, RosSend(h, ch, subId));
         && u.inFlight == s.inFlight && h in s.server.outbox
         && u.server == s.server.(outbox := s.server.outbox[h := s.server.outbox[h]
                                                                 + [MessageData(subId)]])
  {
    ReachableOk(ros, s);
    ViewNeverStale(ros, s, h);
    var subId := s.server.subs[h][ch.id];
    assert s.inFlight + multiset{(h, ch, subId)} - multiset{(h, ch, subId)} == s.inFlight;
  }

  /** A client without a subscription to the channel is not served. */
  lemma OthersAreNotServed(s: System, h: Handle, ch: Channel)
    requires Enabled(s, RosLookup(h, ch))
    requires h !in s.server.subs || ch.id !in s.server.subs[h]
    ensures Apply(s, RosLookup(h, ch)) == s
  {}

  // ------------------------------------------------------------------ the theorem

  /** In state `u` the id `subId` is the subscription of `h` to channel `ch`, a live one, alone. */
  ghost predicate BelongsTo(u: System, h: Handle, ch: Channel, subId: u32) {
    && ch.id in u.server.channels && u.server.channels[ch.id] == ch
    && h in u.server.subs
    && (forall c: u32 :: c in u.server.subs[h] && u.server.subs[h][c] == subId <==> c == ch.id)
  }

  /**
   For every frame that a client received there is an earlier state of the run in which a callback
   looked up the frame's id, and in which that id belonged to the callback's own channel alone.
   */
  lemma ReceivedBelongs(ros: Ros, ls: seq<Label>, t: System, h: Handle, subId: u32)
    returns (k: nat, u: System, ch: Channel)
    requires Runs(Init(ros), ls, t) && t.issued < ID_SPACE
    requires h in t.server.outbox && MessageData(subId) in t.server.outbox[h]
    ensures k < |ls| && Runs(Init(ros), ls[..k], u) && ls[k] == RosLookup(h, ch)
    ensures (h, ch, subId) in Sends(ls) && BelongsTo(u, h, ch, subId)
  {
    ch := SenderOf(Init(ros), ls, t, h, subId);
    SentWasLookedUp(Init(ros), ls, t, (h, ch, subId));
    k, u := LookupState(Init(ros), ls, t, (h, ch, subId));
    EarlierIssued(Init(ros), ls, t, k, u);
    LookupBelongs(ros, ls[..k], u, h, ch, subId);
  }

  lemma SenderOf(s: System, ls: seq<Label>, t: System, h: Handle, subId: u32) returns (ch: Channel)
    requires Runs(s, ls, t) && s.server == NoServer
    requires h in t.server.outbox && MessageData(subId) in t.server.outbox[h]
    ensures (h, ch, subId) in Sends(ls)
  {
    ReceivedWasSent(s, ls, t, h, subId);
    assert Received(t.server, h, subId) > 0;
    SentIsSend(ls, h, subId);
    ch :| (h, ch, subId) in Sends(ls);
  }

  lemma SentWasLookedUp(s: System, ls: seq<Label>, t: System, x: Frame)
    requires Runs(s, ls, t) && s.inFlight == multiset{} && x in Sends(ls)
    ensures x in Lookups(s, ls, t)
  {
    FramesConserved(s, ls, t);
    assert x in Sends(ls) + t.inFlight;
  }

  lemma LookupBelongs(ros: Ros, ls: seq<Label>, u: System, h: Handle, ch: Channel, subId: u32)
    requires Runs(Init(ros), ls, u) && Enabled(u, RosLookup(h, ch)) && u.issued < ID_SPACE
    requires LookupSubscription(u.server, h, ch.id) == Some(subId)
    ensures BelongsTo(u, h, ch, subId)
  {
    DeliveryIsExact(ros, u, h, ch);
  }

  /** The counter of additions only grows along a run. */
  lemma {:induction false} EarlierIssued(s: System, ls: seq<Label>, t: System, k: nat, u: System)
    requires Runs(s, ls, t) && k <= |ls| && Runs(s, ls[..k], u)
    ensures u.issued <= t.issued
    decreases k
  {
    if k == 0 {
      RunMonotone(s, ls, t);
    } else {
      assert ls[..k][1..] == ls[1..][..k - 1];
      EarlierIssued(Apply(s, ls[0]), ls[1..], t, k - 1, u);
    }
  }
}
