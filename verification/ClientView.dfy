/** The channel list a client can reconstruct from what the server sent to it. */
module ClientView {
  import opened Common
  import opened Registry

  /** Replays one message: an advertisement adds or replaces, an unadvertisement removes. */
  function Replay1(view: map<u32, Channel>, msg: ServerMessage): map<u32, Channel> {
    match msg
    case Advertise(channels) => view + channels
    case Unadvertise(id) => view - {id}
    case _ => view
  }

  function Replay(out: seq<ServerMessage>): map<u32, Channel> {
    if out == [] then map[] else Replay1(Replay(out[..|out| - 1]), out[|out| - 1])
  }

  lemma ReplayAppend(out: seq<ServerMessage>, msg: ServerMessage)
    ensures Replay(out + [msg]) == Replay1(Replay(out), msg)
  {
    assert (out + [msg])[..|out|] == out;
  }

  predicate Silent(msg: ServerMessage) {
    msg.ServerInfo? || msg.Status? || msg.MessageData?
  }

  lemma {:induction false} ReplaySilent(out: seq<ServerMessage>, msgs: seq<ServerMessage>)
    requires forall m | m in msgs :: Silent(m)
    ensures Replay(out + msgs) == Replay(out)
    decreases |msgs|
  {
    if msgs == [] {
      assert out + msgs == out;
    } else {
      var n := |msgs| - 1;
      assert out + msgs == (out + msgs[..n]) + [msgs[n]];
      ReplayAppend(out + msgs[..n], msgs[n]);
      assert Silent(msgs[n]) by { assert msgs[n] in msgs; }
      assert forall m | m in msgs[..n] :: m in msgs;
      ReplaySilent(out, msgs[..n]);
    }
  }

  /** `view` holds only live channels and misses at most `missing`. */
  ghost predicate ViewOk(view: map<u32, Channel>, channels: map<u32, Channel>, missing: set<u32>) {
    && (forall c | c in view :: c in channels && view[c] == channels[c])
    && (forall c | c in channels :: c in view || c in missing)
  }

  lemma CompleteView(view: map<u32, Channel>, channels: map<u32, Channel>)
    requires ViewOk(view, channels, {})
    ensures view == channels
  {
    assert view.Keys == channels.Keys;
  }

  /** A client's subscriptions name live channels, each subscription id at most one of them. */
  ghost predicate SubscriptionsOk(subs: map<u32, u32>, channels: map<u32, Channel>) {
    subs.Keys <= channels.Keys && Injective(subs)
  }

  ghost predicate OutboxOk(out: seq<ServerMessage>, channels: map<u32, Channel>, missing: set<u32>) {
    ViewOk(Replay(out), channels, missing)
  }

  /** Every client's table of subscriptions and view fit the live channels. */
  ghost predicate ServerOk(srv: ServerSide, missing: set<u32>) {
    && srv.outbox.Keys == srv.subs.Keys
    && (forall h | h in srv.subs :: SubscriptionsOk(srv.subs[h], srv.channels))
    && (forall h | h in srv.outbox :: OutboxOk(srv.outbox[h], srv.channels, missing))
  }

  lemma SendOk(srv: ServerSide, missing: set<u32>, h: Handle, msgs: seq<ServerMessage>)
    requires ServerOk(srv, missing)
    requires forall m | m in msgs :: Silent(m)
    ensures ServerOk(Send(srv, h, msgs), missing)
  {
    if h in srv.outbox {
      ReplaySilent(srv.outbox[h], msgs);
    }
  }

  /** The greeting tells a client all live channels. */
  lemma GreetingOk(out: seq<ServerMessage>, channels: map<u32, Channel>, missing: set<u32>)
    requires OutboxOk(out, channels, missing) || out == []
    ensures OutboxOk(out + [ServerInfo, Advertise(channels)], channels, missing)
  {
    var msg := ServerMessage.Advertise(channels);
    assert out + [ServerInfo, msg] == (out + [ServerInfo]) + [msg];
    ReplayAppend(out, ServerInfo);
    ReplayAppend(out + [ServerInfo], msg);
    assert Replay(out + [ServerInfo, msg]) == Replay(out) + channels;
  }

  lemma OpenOk(srv: ServerSide, missing: set<u32>, h: Handle)
    requires ServerOk(srv, missing)
    ensures ServerOk(OpenConnection(srv, h), missing)
  {
    GreetingOk(if h in srv.outbox then srv.outbox[h] else [], srv.channels, missing);
  }

  lemma EraseOk(srv: ServerSide, missing: set<u32>, h: Handle)
    requires ServerOk(srv, missing)
    ensures ServerOk(EraseClient(srv, h), missing)
  {}

  lemma AddOk(srv: ServerSide, missing: set<u32>, info: ChannelWithoutId)
    requires ServerOk(srv, missing)
    ensures ServerOk(AddChannel(srv, info), missing + {NextId(srv)})
  {}

  lemma RemoveOk(srv: ServerSide, missing: set<u32>, id: u32)
    requires ServerOk(srv, missing)
    ensures ServerOk(RemoveChannel(srv, id), missing - {id})
  {
    var srv' := RemoveChannel(srv, id);
    forall h | h in srv'.subs ensures SubscriptionsOk(srv'.subs[h], srv'.channels) {
      assert SubscriptionsOk(srv.subs[h], srv.channels);
    }
    forall h | h in srv'.outbox ensures OutboxOk(srv'.outbox[h], srv'.channels, missing - {id}) {
      assert OutboxOk(srv.outbox[h], srv.channels, missing);
      ReplayAppend(srv.outbox[h], Unadvertise(id));
    }
  }

  lemma BroadcastOk(srv: ServerSide, missing: set<u32>)
    requires ServerOk(srv, missing)
    ensures ServerOk(BroadcastChannels(srv), {})
  {
    var srv' := BroadcastChannels(srv);
    forall h | h in srv'.outbox ensures OutboxOk(srv'.outbox[h], srv'.channels, {}) {
      assert OutboxOk(srv.outbox[h], srv.channels, missing);
      ReplayAppend(srv.outbox[h], ServerMessage.Advertise(srv.channels));
    }
  }

  lemma SubscribeOk(srv: ServerSide, missing: set<u32>, h: Handle, subId: u32, c: u32)
    requires ServerOk(srv, missing) && h in srv.subs
    ensures ServerOk(SubscribeServer(srv, h, subId, c), missing)
  {
    var subs := srv.subs[h];
    if UsesSubscriptionId(subs, subId) {
      SendOk(srv, missing, h, [Status(Error)]);
    } else if c !in srv.channels {
      SendOk(srv, missing, h, [Status(Warning)]);
    } else {
      var added: map<u32, u32> := map[c := subId];
      assert SubscriptionsOk(subs, srv.channels);
      assert SubscriptionsOk(subs + added, srv.channels);
    }
  }

  lemma UnsubscribeOk(srv: ServerSide, missing: set<u32>, h: Handle, subId: u32)
    requires ServerOk(srv, missing) && h in srv.subs
    ensures ServerOk(UnsubscribeServer(srv, h, subId), missing)
  {
    match FindBySubscriptionId(srv.subs[h], subId)
    case None =>
      SendOk(srv, missing, h, [Status(Warning)]);
    case Some(c) =>
      assert SubscriptionsOk(srv.subs[h] - {c}, srv.channels);
  }
}
