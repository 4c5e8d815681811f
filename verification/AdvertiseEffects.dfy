/** What an advertise message does, item by item, told without the functions that compute it. */
module AdvertiseEffects {
  import opened Common
  import opened Registry
  import opened Publications
  import opened PublicationSafety
  import A = AdvertiseAgreement

  // ------------------------------------------------------------------ which items do what

  /** One of the first `n` items is for channel `id`. */
  ghost predicate NamedBefore(items: seq<AdvertiseItem>, n: nat, id: u32)
    requires n <= |items|
  {
    exists k | 0 <= k < n :: items[k].Item? && items[k].adv.channelId == id
  }

  /** The client has advertised before, and the item's channel before the item. */
  ghost predicate TurnedAway(p: Tables, h: Handle, items: seq<AdvertiseItem>, k: nat)
    requires k < |items|
  {
    && items[k].Item? && h in p.clientChannels
    && (items[k].adv.channelId in p.clientChannels[h] || NamedBefore(items, k, items[k].adv.channelId))
  }

  /** The item asks ROS for a publisher and gets it. */
  ghost predicate Publishes(ros: Ros, p: Tables, h: Handle, items: seq<AdvertiseItem>, k: nat, id: u32)
    requires k < |items|
  {
    A.Creates(ros, items[k]) && items[k].adv.channelId == id && !TurnedAway(p, h, items, k)
  }

  ghost predicate PublishedBefore(ros: Ros, p: Tables, h: Handle, items: seq<AdvertiseItem>, n: nat,
                                  id: u32)
    requires n <= |items|
  {
    id in PublishersOf(p.publishers, h) || exists k | 0 <= k < n :: Publishes(ros, p, h, items, k, id)
  }

  /** The item does not parse, or ROS is asked for its publisher and throws. */
  ghost predicate Ends(ros: Ros, p: Tables, h: Handle, items: seq<AdvertiseItem>, k: nat)
    requires k < |items|
  {
    match items[k]
    case BadItem => true
    case Item(adv, creation) =>
      && creation.Threw? && !Unsupported(ros, adv) && !TurnedAway(p, h, items, k)
      && !PublishedBefore(ros, p, h, items, k, adv.channelId)
  }

  /** The message handles its first `n` items, the last of which may throw. */
  ghost predicate Handles(ros: Ros, p: Tables, h: Handle, items: seq<AdvertiseItem>, n: nat) {
    && n <= |items|
    && (forall k | 0 <= k < n :: items[k].Item? && (k < n - 1 ==> !Ends(ros, p, h, items, k)))
    && (n == |items| || items[n].BadItem? || (n > 0 && Ends(ros, p, h, items, n - 1)))
  }

  /** How many items from the `k`-th on are answered with an error. */
  ghost function Errors(ros: Ros, p: Tables, h: Handle, items: seq<AdvertiseItem>, k: nat): nat
    requires k <= |items|
    decreases |items| - k
  {
    if k == |items| then 0
    else if Ends(ros, p, h, items, k) then 1
    else (if TurnedAway(p, h, items, k) then 1 else 0) + Errors(ros, p, h, items, k + 1)
  }

  lemma NamedNext(items: seq<AdvertiseItem>, n: nat, id: u32)
    requires n < |items|
    ensures NamedBefore(items, n + 1, id)
            <==> NamedBefore(items, n, id) || (items[n].Item? && items[n].adv.channelId == id)
  {}

  // ------------------------------------------------------------------ the tables after `n` items

  /** The server's channels: those from before, and each new one as the first item for it says. */
  ghost predicate Stored(old_: map<u32, ClientAdvertisement>, items: seq<AdvertiseItem>, n: nat,
                         mine: map<u32, ClientAdvertisement>)
    requires n <= |items|
  {
    && (forall id: u32 :: id in mine <==> id in old_ || NamedBefore(items, n, id))
    && (forall id | id in old_ :: id in mine && mine[id] == old_[id])
    && (forall k | 0 <= k < n && items[k].Item? ::
          items[k].adv.channelId !in old_ && !NamedBefore(items, k, items[k].adv.channelId) ==>
            items[k].adv.channelId in mine && mine[items[k].adv.channelId] == items[k].adv)
  }

  lemma StoredNext(old_: map<u32, ClientAdvertisement>, items: seq<AdvertiseItem>, n: nat,
                   mine: map<u32, ClientAdvertisement>)
    requires n < |items| && items[n].Item? && Stored(old_, items, n, mine)
    ensures var adv := items[n].adv;
      Stored(old_, items, n + 1, if adv.channelId in mine then mine else mine[adv.channelId := adv])
  {
    var adv := items[n].adv;
    var mine' := if adv.channelId in mine then mine else mine[adv.channelId := adv];
    forall id: u32 ensures id in mine' <==> id in old_ || NamedBefore(items, n + 1, id) {
      NamedNext(items, n, id);
    }
    forall k | 0 <= k < n + 1 && items[k].Item? && items[k].adv.channelId !in old_
               && !NamedBefore(items, k, items[k].adv.channelId)
      ensures items[k].adv.channelId in mine' && mine'[items[k].adv.channelId] == items[k].adv
    {
      if k < n {
        assert items[k].adv.channelId in mine;
      }
    }
  }

  /** The bridge's publishers: those from before, and each new one as its first creation says. */
  ghost predicate Published(ros: Ros, p: Tables, h: Handle, items: seq<AdvertiseItem>, n: nat,
                            theirs: map<u32, Publisher>)
    requires n <= |items|
  {
    && (forall id: u32 :: id in theirs <==> PublishedBefore(ros, p, h, items, n, id))
    && (forall id | id in PublishersOf(p.publishers, h) ::
          id in theirs && theirs[id] == PublishersOf(p.publishers, h)[id])
    && (forall k: nat, id: u32 | k < n && Publishes(ros, p, h, items, k, id) ::
          !PublishedBefore(ros, p, h, items, k, id) ==>
            id in theirs && theirs[id] == A.PublisherOf(items[k].adv))
  }

  lemma PublishedStep(ros: Ros, p: Tables, h: Handle, items: seq<AdvertiseItem>, n: nat, id: u32)
    requires n < |items|
    ensures PublishedBefore(ros, p, h, items, n + 1, id)
            <==> PublishedBefore(ros, p, h, items, n, id) || Publishes(ros, p, h, items, n, id)
  {}

  lemma PublishedNext(ros: Ros, p: Tables, h: Handle, items: seq<AdvertiseItem>, n: nat,
                      theirs: map<u32, Publisher>)
    requires n < |items| && items[n].Item? && Published(ros, p, h, items, n, theirs)
    ensures var id := items[n].adv.channelId;
      Published(ros, p, h, items, n + 1,
                if id in theirs || !Publishes(ros, p, h, items, n, id) then theirs
                else theirs[id := A.PublisherOf(items[n].adv)])
  {
    var adv := items[n].adv;
    var theirs' := if adv.channelId in theirs || !Publishes(ros, p, h, items, n, adv.channelId) then theirs
                   else theirs[adv.channelId := A.PublisherOf(adv)];
    forall id: u32
      ensures id in theirs' <==> PublishedBefore(ros, p, h, items, n + 1, id)
    {
      PublishedStep(ros, p, h, items, n, id);
    }
    forall k: nat, id: u32 | k < n + 1 && Publishes(ros, p, h, items, k, id)
                             && !PublishedBefore(ros, p, h, items, k, id)
      ensures id in theirs' && theirs'[id] == A.PublisherOf(items[k].adv)
    {
      if k < n {
        assert id in theirs && theirs[id] == A.PublisherOf(items[k].adv);
      }
    }
  }

  ghost predicate After(ros: Ros, p: Tables, h: Handle, items: seq<AdvertiseItem>, n: nat, q: Tables)
    requires n <= |items|
  {
    && h in p.advertised && h in q.advertised && h in q.clientChannels
    && Stored(ChannelsOf(p, h), items, n, ChannelsOf(q, h))
    && Published(ros, p, h, items, n, PublishersOf(q.publishers, h))
    && (forall id: u32 ::
          id in q.advertised[h] <==> id in p.advertised[h] || NamedBefore(items, n, id))
  }

  lemma OneHandled(ros: Ros, p: Tables, h: Handle, items: seq<AdvertiseItem>, n: nat, q: Tables)
    requires HandleOk(p, h) && n < |items| && items[n].Item? && After(ros, p, h, items, n, q)
    ensures var one := AdvertiseOne(ros, q, h, h !in p.clientChannels, items[n]);
      && After(ros, p, h, items, n + 1, one.tables)
      && one.stop == Ends(ros, p, h, items, n)
      && one.replies == if TurnedAway(p, h, items, n) || one.stop then [Error] else []
  {
    var adv, creation := items[n].adv, items[n].creation;
    StoredNext(ChannelsOf(p, h), items, n, ChannelsOf(q, h));
    PublishedNext(ros, p, h, items, n, PublishersOf(q.publishers, h));
    forall id: u32
      ensures NamedBefore(items, n + 1, id)
              <==> NamedBefore(items, n, id) || adv.channelId == id
    {
      NamedNext(items, n, id);
    }
    if !TurnedAway(p, h, items, n) {
      StoresOne(ros, q, h, h !in p.clientChannels, adv, creation);
    }
  }

  /** What an item that is not turned away does to the client's tables. */
  lemma StoresOne(ros: Ros, q: Tables, h: Handle, first: bool, adv: ClientAdvertisement,
                  creation: Creation)
    requires h in q.advertised && (first || adv.channelId !in ChannelsOf(q, h))
    ensures var one := AdvertiseOne(ros, q, h, first, Item(adv, creation));
      var mine, theirs, id := ChannelsOf(q, h), PublishersOf(q.publishers, h), adv.channelId;
      && h in one.tables.advertised && one.tables.advertised[h] == q.advertised[h] + {id}
      && h in one.tables.clientChannels
      && ChannelsOf(one.tables, h) == (if id in mine then mine else mine[id := adv])
      && PublishersOf(one.tables.publishers, h)
         == (if id in theirs || !A.Creates(ros, Item(adv, creation)) then theirs
             else theirs[id := A.PublisherOf(adv)])
      && one.stop == (creation.Threw? && !Unsupported(ros, adv) && id !in theirs)
      && one.replies == if one.stop then [Error] else []
  {}

  // ------------------------------------------------------------------ the whole message

  ghost predicate ErrorsOnly(replies: seq<StatusLevel>, n: nat) {
    |replies| == n && forall r | r in replies :: r == Error
  }

  /** How many items the message handles, the first `k` being among them. */
  ghost function Handled(ros: Ros, p: Tables, h: Handle, items: seq<AdvertiseItem>, k: nat): (n: nat)
    requires k <= |items|
    ensures k <= n <= |items|
    decreases |items| - k
  {
    if k == |items| || items[k].BadItem? then k
    else if Ends(ros, p, h, items, k) then k + 1
    else Handled(ros, p, h, items, k + 1)
  }

  lemma {:induction false} HandledHandles(ros: Ros, p: Tables, h: Handle, items: seq<AdvertiseItem>, k: nat)
    requires k <= |items|
    requires forall j | 0 <= j < k :: items[j].Item? && !Ends(ros, p, h, items, j)
    ensures Handles(ros, p, h, items, Handled(ros, p, h, items, k))
    decreases |items| - k
  {
    if k < |items| && items[k].Item? && !Ends(ros, p, h, items, k) {
      HandledHandles(ros, p, h, items, k + 1);
    }
  }

  /** The message from its `k`-th item on. */
  lemma {:induction false} ItemsTables(ros: Ros, p: Tables, h: Handle, items: seq<AdvertiseItem>, k: nat,
                                       q: Tables, first: bool)
    requires first == (h !in p.clientChannels)
    requires HandleOk(p, h) && k <= |items| && After(ros, p, h, items, k, q)
    ensures After(ros, p, h, items, Handled(ros, p, h, items, k),
                  AdvertiseItems(ros, q, h, first, items[k..]).tables)
    decreases |items| - k
  {
    if k < |items| {
      assert items[k..][0] == items[k] && items[k..][1..] == items[k + 1..];
      if items[k].Item? {
        OneHandled(ros, p, h, items, k, q);
        if !Ends(ros, p, h, items, k) {
          ItemsTables(ros, p, h, items, k + 1,
                      AdvertiseOne(ros, q, h, first, items[k]).tables, first);
        }
      }
    }
  }

  lemma ErrorsAppend(a: seq<StatusLevel>, m: nat, b: seq<StatusLevel>, n: nat)
    requires ErrorsOnly(a, m) && ErrorsOnly(b, n)
    ensures ErrorsOnly(a + b, m + n)
  {}

  lemma {:induction false} ItemsReplies(ros: Ros, p: Tables, h: Handle, items: seq<AdvertiseItem>, k: nat,
                                        q: Tables, first: bool)
    requires first == (h !in p.clientChannels)
    requires HandleOk(p, h) && k <= |items| && After(ros, p, h, items, k, q)
    ensures ErrorsOnly(AdvertiseItems(ros, q, h, first, items[k..]).replies, Errors(ros, p, h, items, k))
    decreases |items| - k
  {
    if k < |items| {
      assert items[k..][0] == items[k] && items[k..][1..] == items[k + 1..];
      if items[k].Item? {
        OneHandled(ros, p, h, items, k, q);
        var one := AdvertiseOne(ros, q, h, first, items[k]);
        if !one.stop {
          ItemsReplies(ros, p, h, items, k + 1, one.tables, first);
          ErrorsAppend(one.replies, if TurnedAway(p, h, items, k) then 1 else 0,
                       AdvertiseItems(ros, one.tables, h, first, items[k + 1..]).replies,
                       Errors(ros, p, h, items, k + 1));
        }
      }
    }
  }

  /**
   An advertise message, the first or a later one, handles its items up to the first that does not
   parse or whose creation throws.  Afterwards the server has exactly the channels from before and
   those of the handled items, each as the first item for it says, and the bridge exactly the
   publishers from before and those ROS created; each item that was turned away, threw or did
   not parse is answered with one error.
   */
  lemma AdvertiseExact(ros: Ros, p: Tables, h: Handle, items: seq<AdvertiseItem>) returns (n: nat)
    requires TablesOk(p) && h in p.advertised
    ensures Handles(ros, p, h, items, n)
    ensures var o := AdvertiseMessage(ros, p, h, items);
      && After(ros, p, h, items, n, o.tables)
      && ErrorsOnly(o.replies, Errors(ros, p, h, items, 0))
  {
    assert HandleOk(p, h);
    var q := p.(clientChannels := p.clientChannels[h := ChannelsOf(p, h)]);
    assert items[0..] == items;
    n := Handled(ros, p, h, items, 0);
    HandledHandles(ros, p, h, items, 0);
    ItemsTables(ros, p, h, items, 0, q, h !in p.clientChannels);
    ItemsReplies(ros, p, h, items, 0, q, h !in p.clientChannels);
  }

  /** The number of handled items is determined. */
  lemma HandlesUnique(ros: Ros, p: Tables, h: Handle, items: seq<AdvertiseItem>, m: nat, n: nat)
    requires Handles(ros, p, h, items, m) && Handles(ros, p, h, items, n)
    ensures m == n
  {}
}
