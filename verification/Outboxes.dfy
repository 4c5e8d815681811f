/** What clients are sent is never taken back, and who is told what. */
module Outboxes {
  import opened Common
  import opened Registry
  import opened Interleaving
  import opened Safety

  /** The client is still connected and its outbox begins with what it was. */
  ghost predicate Grows(srv: ServerSide, srv': ServerSide, h: Handle) {
    h in srv.outbox ==> h in srv'.outbox && srv.outbox[h] <= srv'.outbox[h]
  }

  lemma SubscribeGrows(srv: ServerSide, to: Handle, subId: u32, c: u32, h: Handle)
    requires to in srv.subs
    ensures Grows(srv, SubscribeServer(srv, to, subId, c), h)
    ensures Grows(srv, UnsubscribeServer(srv, to, subId), h)
  {}

  lemma WsGrows(s: System, h: Handle)
    requires !s.ws.WsIdle?
    ensures Grows(s.server, WsNext(s).server, h)
  {
    match s.ws
    case Subscribing(to, items) =>
      if items != [] && to in s.server.subs && items[0].Subscribe? {
        SubscribeGrows(s.server, to, items[0].subId, items[0].channelId, h);
      }
    case Unsubscribing(to, ids) =>
      if ids != [] && to in s.server.subs && ids[0].Some? {
        SubscribeGrows(s.server, to, ids[0].value, 0, h);
      }
    case _ =>
  }

  /** Removing a channel and broadcasting tell every connected client exactly once. */
  lemma GraphTells(srv: ServerSide, id: u32, h: Handle)
    requires h in srv.subs && h in srv.outbox
    ensures var srv' := RemoveChannel(srv, id);
      && h in srv'.outbox && srv'.outbox[h] == srv.outbox[h] + [Unadvertise(id)]
      && h in srv'.subs && srv'.subs[h] == srv.subs[h] - {id}
      && srv'.channels == srv.channels - {id} && srv'.nextId == srv.nextId
    ensures var srv' := BroadcastChannels(srv);
      && h in srv'.outbox && srv'.outbox[h] == srv.outbox[h] + [ServerMessage.Advertise(srv.channels)]
      && srv'.subs == srv.subs && srv'.channels == srv.channels && srv'.nextId == srv.nextId
  {}

  lemma GraphGrows(s: System, h: Handle)
    requires !s.graph.GraphIdle?
    ensures Grows(s.server, GraphNext(s).server, h)
  {
    match s.graph
    case Removing(removed, _) =>
      if removed != [] && removed[0] in s.bridge.advertised {
        AllGrows(s.server, s.bridge.advertised[removed[0]].id, h);
      }
    case Broadcasting => AllGrows(s.server, 0, h);
    case _ =>
  }

  lemma AllGrows(srv: ServerSide, id: u32, h: Handle)
    ensures Grows(srv, RemoveChannel(srv, id), h)
    ensures Grows(srv, BroadcastChannels(srv), h)
  {}

  lemma StepGrows(s: System, l: Label, h: Handle)
    requires Enabled(s, l) && !(l.WsClose? && l.h == h)
    ensures Grows(s.server, Apply(s, l).server, h)
  {
    match l
    case WsStep => WsGrows(s, h);
    case GraphStep => GraphGrows(s, h);
    case _ =>
  }

  /** In every run, until its connection closes, a client keeps everything it was sent, in order. */
  lemma {:induction false} RunGrows(s: System, ls: seq<Label>, t: System, h: Handle)
    requires Runs(s, ls, t) && forall l | l in ls :: !(l.WsClose? && l.h == h)
    ensures Grows(s.server, t.server, h)
    decreases |ls|
  {
    if ls != [] {
      assert ls[0] in ls && forall l | l in ls[1..] :: l in ls;
      StepGrows(s, ls[0], h);
      RunGrows(Apply(s, ls[0]), ls[1..], t, h);
    }
  }
}
