/** What each kind of text message does to all tables of both components, and what it leaves alone. */
module MessageEffects {
  import opened Common
  import opened Registry
  import opened Messages
  import opened SubscriptionEffects
  import P = Publications
  import T = PublicationSafety
  import E = PublicationEffects
  import A = AdvertiseEffects

  /** Only the sender's tables and outbox change, and neither channels nor topics. */
  lemma OthersUntouched(ros: Ros, w: Whole, h: Handle, msg: TextMessage)
    requires w.tables.advertised.Keys == w.sides.server.subs.Keys
    ensures SameOthers(w.sides, Effect(ros, w, h, msg).sides, h)
    ensures forall h': Handle | h' != h :: E.SameFor(w.tables, Effect(ros, w, h, msg).tables, h')
  {
    if h in w.sides.server.subs {
      match msg
      case SubscribeMessage(items) => SubscribeBatchOthers(w.sides, h, items);
      case UnsubscribeMessage(ids) => UnsubscribeBatchOthers(w.sides, h, ids);
      case AdvertiseMessage(ads) =>
        forall h': Handle | h' != h
          ensures E.SameFor(w.tables, P.AdvertiseMessage(ros, w.tables, h, ads).tables, h')
        {
          E.AdvertiseFrame(ros, w.tables, h, ads, h');
        }
      case UnadvertiseMessage(ids) =>
        forall h': Handle | h' != h
          ensures E.SameFor(w.tables, P.UnadvertiseMessage(w.tables, h, ids).tables, h')
        {
          E.UnadvertiseFrame(w.tables, h, ids, h');
        }
      case _ =>
    }
  }

  /** A message that does not start an operation is answered with an error and does nothing else. */
  lemma RejectedMessage(ros: Ros, w: Whole, h: Handle, msg: TextMessage)
    requires h !in w.sides.server.subs || msg.Unparsable? || msg.UnknownOperation?
    ensures var w' := Effect(ros, w, h, msg);
      && Told(w.sides.server, w'.sides.server, h, Status(Error))
      && w'.sides.bridge == w.sides.bridge && w'.tables == w.tables
  {}

  /** A subscribe message with one item, on all tables. */
  lemma SubscribeMessageEffect(ros: Ros, w: Whole, h: Handle, subId: u32, c: u32, created: bool)
    requires h in w.sides.server.subs
    ensures var w' := Effect(ros, w, h, SubscribeMessage([Subscribe(subId, c, created)]));
      SubscribedOne(w.sides, w'.sides, h, subId, c, created) && w'.tables == w.tables
  {
    SubscribeOneExact(w.sides, h, subId, c, created);
  }

  /** A subscribe message is the messages with its items, one after the other, up to a malformed one. */
  lemma SubscribeMessageSplits(ros: Ros, w: Whole, h: Handle, a: seq<SubscribeItem>,
                               b: seq<SubscribeItem>)
    requires h in w.sides.server.subs
    ensures var w1 := Effect(ros, w, h, SubscribeMessage(a));
      && Effect(ros, w, h, SubscribeMessage(a + b))
         == (if Parsed(a) then Effect(ros, w1, h, SubscribeMessage(b)) else w1)
      && Effect(ros, w, h, SubscribeMessage([])) == w
      && var w' := Effect(ros, w, h, SubscribeMessage([BadSubscribe] + b));
         Told(w.sides.server, w'.sides.server, h, Status(Error)) && w'.sides.bridge == w.sides.bridge
  {
    SubscribeBatchSplits(w.sides, h, a, b);
    SubscribeBatchEnds(w.sides, h, b);
  }

  /**
   An unsubscribe message takes exactly the channels subscribed under the ids it names before its
   first malformed item from the client, on both sides, and leaves the client's publications alone.
   */
  lemma UnsubscribeMessageEffect(ros: Ros, w: Whole, h: Handle, ids: seq<Option<u32>>, c: u32)
    requires h in w.sides.server.subs && Injective(w.sides.server.subs[h])
    ensures h in Effect(ros, w, h, UnsubscribeMessage(ids)).sides.server.subs
    ensures var w' := Effect(ros, w, h, UnsubscribeMessage(ids));
      var subs, subs' := w.sides.server.subs[h], w'.sides.server.subs[h];
      var gone := c in subs && E.Named(ids, subs[c]);
      && w'.tables == w.tables
      && (c in subs' <==> c in subs && !gone) && (c in subs' ==> subs'[c] == subs[c])
      && (Entry(w'.sides.bridge, c, h) <==> Entry(w.sides.bridge, c, h) && !gone)
  {
    UnsubscribeBatchExact(w.sides, h, ids, c);
  }

  /** The replies to an unsubscribe message: a warning for each unknown id, an error where it ends. */
  lemma UnsubscribeMessageReplies(ros: Ros, w: Whole, h: Handle, a: seq<Option<u32>>, b: seq<Option<u32>>,
                                  subId: u32)
    requires h in w.sides.server.subs && Injective(w.sides.server.subs[h])
    ensures var w1 := Effect(ros, w, h, UnsubscribeMessage(a));
      && Effect(ros, w, h, UnsubscribeMessage(a + b))
         == (if ParsedIds(a) then Effect(ros, w1, h, UnsubscribeMessage(b)) else w1)
      && Effect(ros, w, h, UnsubscribeMessage([])) == w
    ensures Told(w.sides.server, Effect(ros, w, h, UnsubscribeMessage([None] + b)).sides.server, h,
                 Status(Error))
    ensures var w' := Effect(ros, w, h, UnsubscribeMessage([Some(subId)]));
      && ((forall c | c in w.sides.server.subs[h] :: w.sides.server.subs[h][c] != subId) ==>
            Told(w.sides.server, w'.sides.server, h, Status(Warning)))
      && ((exists c :: c in w.sides.server.subs[h] && w.sides.server.subs[h][c] == subId) ==>
            w'.sides.server.outbox == w.sides.server.outbox)
  {
    UnsubscribeBatchSplits(w.sides, h, a, b);
    UnsubscribeBatchEnds(w.sides, h, b);
    UnsubscribeOneExact(w.sides, h, subId);
  }

  /** The client has been sent these status levels, and nothing else has happened to the registry. */
  ghost predicate Answered(w: Whole, w': Whole, h: Handle, replies: seq<StatusLevel>) {
    && w'.sides.bridge == w.sides.bridge
    && w'.sides.server.(outbox := w.sides.server.outbox) == w.sides.server
    && w'.sides.server.outbox.Keys == w.sides.server.outbox.Keys
    && forall h' | h' in w.sides.server.outbox ::
         var out, out' := w.sides.server.outbox[h'], w'.sides.server.outbox[h'];
         if h' != h then out' == out
         else
           && |out'| == |out| + |replies| && out <= out'
           && forall k | 0 <= k < |replies| :: out'[|out| + k] == Status(replies[k])
  }

  lemma SendAnswers(w: Whole, h: Handle, o: P.Outcome)
    ensures Answered(w, Replied(w, h, o), h, o.replies)
  {}

  /** An unadvertise message, on all tables. */
  lemma UnadvertiseMessageEffect(ros: Ros, w: Whole, h: Handle, ids: seq<Option<u32>>, id: u32)
    requires h in w.sides.server.subs && h in w.tables.advertised && T.TablesOk(w.tables)
    ensures var w' := Effect(ros, w, h, UnadvertiseMessage(ids));
      var p, p' := w.tables, w'.tables;
      && p'.advertised == p.advertised
      && (id in P.ChannelsOf(p', h) <==> id in P.ChannelsOf(p, h) && !E.Named(ids, id))
      && (id in P.ChannelsOf(p', h) ==> P.ChannelsOf(p', h)[id] == P.ChannelsOf(p, h)[id])
      && (id in P.PublishersOf(p'.publishers, h)
          <==> id in P.PublishersOf(p.publishers, h) && !E.Named(ids, id))
      && Answered(w, w', h, if h in p.clientChannels && ParsedIds(ids) then [] else [Error])
  {
    E.UnadvertiseExact(w.tables, h, ids, id);
    E.UnadvertiseReplies(w.tables, h, ids);
    SendAnswers(w, h, P.UnadvertiseMessage(w.tables, h, ids));
  }

  /** An advertise message, on all tables; `n` items are handled. */
  lemma AdvertiseMessageEffect(ros: Ros, w: Whole, h: Handle, items: seq<P.AdvertiseItem>)
    returns (n: nat, replies: seq<StatusLevel>)
    requires h in w.sides.server.subs && h in w.tables.advertised && T.TablesOk(w.tables)
    ensures A.Handles(ros, w.tables, h, items, n)
    ensures var w' := Effect(ros, w, h, AdvertiseMessage(items));
      && A.After(ros, w.tables, h, items, n, w'.tables)
      && A.ErrorsOnly(replies, A.Errors(ros, w.tables, h, items, 0)) && Answered(w, w', h, replies)
  {
    n := A.AdvertiseExact(ros, w.tables, h, items);
    replies := P.AdvertiseMessage(ros, w.tables, h, items).replies;
    SendAnswers(w, h, P.AdvertiseMessage(ros, w.tables, h, items));
  }
}
