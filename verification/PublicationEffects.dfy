/**
 What connects, disconnects and messages do to the tables of client channels, told without the
 functions that compute it.
 */
module PublicationEffects {
  import opened Common
  import opened Registry
  import opened Publications
  import opened PublicationSafety

  // ------------------------------------------------------------------ other clients

  /** Nothing about the client has changed. */
  ghost predicate SameFor(p: Tables, p': Tables, h: Handle) {
    && (h in p'.advertised <==> h in p.advertised)
    && (h in p.advertised ==> p'.advertised[h] == p.advertised[h])
    && (h in p'.clientChannels <==> h in p.clientChannels)
    && ChannelsOf(p', h) == ChannelsOf(p, h)
    && PublishersOf(p'.publishers, h) == PublishersOf(p.publishers, h)
  }

  /** A connect gives a new client empty tables and leaves everybody else alone. */
  lemma OpenExact(p: Tables, h: Handle)
    ensures var p' := OpenTables(p, h);
      && (h !in p.advertised ==> h in p'.advertised && p'.advertised[h] == {})
      && (h in p.advertised ==> SameFor(p, p', h))
      && (forall h': Handle | h' != h :: SameFor(p, p', h'))
  {}

  /** A disconnect takes the client out of all tables and leaves everybody else alone. */
  lemma CloseExact(p: Tables, h: Handle)
    requires TablesOk(p) && h in p.advertised
    ensures var p' := CloseTables(p, h);
      && h !in p'.advertised && h !in p'.clientChannels && PublishersOf(p'.publishers, h) == map[]
      && (forall h': Handle | h' != h :: SameFor(p, p', h'))
      && (forall h': Handle, id: u32 | h' != h :: PublisherFor(p', h', id) == PublisherFor(p, h', id))
  {
    CloseKeeps(p, h);
    assert HandleOk(p, h);
    forall h': Handle | h' != h ensures SameFor(p, CloseTables(p, h), h') {
      assert PublishersOf(UnadvertiseAll(p.publishers, h, p.advertised[h]), h')
          == PublishersOf(p.publishers, h');
    }
  }

  lemma OneFrame(ros: Ros, p: Tables, h: Handle, first: bool, item: AdvertiseItem, h': Handle)
    requires h in p.advertised && h' != h
    ensures SameFor(p, AdvertiseOne(ros, p, h, first, item).tables, h')
    ensures h in AdvertiseOne(ros, p, h, first, item).tables.advertised
  {}

  lemma {:induction false} AdvertiseItemsFrame(ros: Ros, p: Tables, h: Handle, first: bool,
                                               items: seq<AdvertiseItem>, h': Handle)
    requires h in p.advertised && h' != h
    ensures SameFor(p, AdvertiseItems(ros, p, h, first, items).tables, h')
    decreases |items|
  {
    if items != [] {
      OneFrame(ros, p, h, first, items[0], h');
      var one := AdvertiseOne(ros, p, h, first, items[0]);
      if !one.stop {
        AdvertiseItemsFrame(ros, one.tables, h, first, items[1..], h');
      }
    }
  }

  lemma AdvertiseFrame(ros: Ros, p: Tables, h: Handle, items: seq<AdvertiseItem>, h': Handle)
    requires h' != h
    ensures SameFor(p, AdvertiseMessage(ros, p, h, items).tables, h')
  {
    if h in p.advertised {
      AdvertiseItemsFrame(ros, p.(clientChannels := p.clientChannels[h := ChannelsOf(p, h)]), h,
                          h !in p.clientChannels, items, h');
    }
  }

  lemma {:induction false} UnadvertiseItemsFrame(p: Tables, h: Handle, ids: seq<Option<u32>>, h': Handle)
    requires h in p.clientChannels && h' != h
    ensures SameFor(p, UnadvertiseItems(p, h, ids).tables, h')
    decreases |ids|
  {
    if ids != [] && ids[0].Some? {
      if ids[0].value in p.clientChannels[h] {
        UnadvertiseItemsFrame(
          p.(clientChannels := p.clientChannels[h := p.clientChannels[h] - {ids[0].value}],
             publishers := UnadvertiseHandler(p.publishers, h, ids[0].value)),
          h, ids[1..], h');
      } else {
        UnadvertiseItemsFrame(p, h, ids[1..], h');
      }
    }
  }

  lemma UnadvertiseFrame(p: Tables, h: Handle, ids: seq<Option<u32>>, h': Handle)
    requires h' != h
    ensures SameFor(p, UnadvertiseMessage(p, h, ids).tables, h')
  {
    if h in p.advertised && h in p.clientChannels {
      UnadvertiseItemsFrame(p, h, ids, h');
    }
  }

  // ------------------------------------------------------------------ unadvertise messages

  /** An id that the message names before its first malformed item. */
  ghost predicate Named(ids: seq<Option<u32>>, id: u32) {
    exists k | 0 <= k < |ids| :: ids[k] == Some(id) && forall j | 0 <= j < k :: ids[j].Some?
  }

  lemma NamedTail(ids: seq<Option<u32>>, id: u32)
    requires ids != []
    ensures Named(ids, id) <==> ids[0].Some? && (ids[0].value == id || Named(ids[1..], id))
  {
    var tail := ids[1..];
    if Named(ids, id) {
      var k :| 0 <= k < |ids| && ids[k] == Some(id) && forall j | 0 <= j < k :: ids[j].Some?;
      if k > 0 {
        assert tail[k - 1] == Some(id) && forall j | 0 <= j < k - 1 :: tail[j] == ids[j + 1];
        assert ids[0].Some? && Named(tail, id);
      }
    }
    if ids[0].Some? && Named(tail, id) {
      var k :| 0 <= k < |tail| && tail[k] == Some(id) && forall j | 0 <= j < k :: tail[j].Some?;
      forall j | 0 <= j < k + 1 ensures ids[j].Some? {
        assert j > 0 ==> ids[j] == tail[j - 1];
      }
      assert ids[k + 1] == Some(id);
    }
    if ids[0] == Some(id) {
      assert Named(ids, id);
    }
  }

  lemma {:induction false} UnadvertiseItemsExact(p: Tables, h: Handle, ids: seq<Option<u32>>, id: u32)
    requires h in p.clientChannels && HandleOk(p, h)
    ensures var p' := UnadvertiseItems(p, h, ids).tables;
      && p'.advertised == p.advertised && h in p'.clientChannels
      && (id in ChannelsOf(p', h) <==> id in ChannelsOf(p, h) && !Named(ids, id))
      && (id in ChannelsOf(p', h) ==> ChannelsOf(p', h)[id] == ChannelsOf(p, h)[id])
      && (id in PublishersOf(p'.publishers, h)
          <==> id in PublishersOf(p.publishers, h) && !Named(ids, id))
      && (id in PublishersOf(p'.publishers, h) ==>
            PublishersOf(p'.publishers, h)[id] == PublishersOf(p.publishers, h)[id])
    decreases |ids|
  {
    if ids != [] {
      NamedTail(ids, id);
      if ids[0].Some? {
        var first := ids[0].value;
        if first in p.clientChannels[h] {
          UnadvertiseHandlerRemoves(p.publishers, h, first);
          UnadvertiseItemsExact(
            p.(clientChannels := p.clientChannels[h := p.clientChannels[h] - {first}],
               publishers := UnadvertiseHandler(p.publishers, h, first)),
            h, ids[1..], id);
        } else {
          UnadvertiseItemsExact(p, h, ids[1..], id);
        }
      }
    }
  }

  /**
   An unadvertise message takes exactly the channels it names before its first malformed item,
   unknown ones in between notwithstanding, from the server and their publishers from the bridge.
   */
  lemma UnadvertiseExact(p: Tables, h: Handle, ids: seq<Option<u32>>, id: u32)
    requires TablesOk(p) && h in p.advertised
    ensures var p' := UnadvertiseMessage(p, h, ids).tables;
      && p'.advertised == p.advertised
      && (id in ChannelsOf(p', h) <==> id in ChannelsOf(p, h) && !Named(ids, id))
      && (id in ChannelsOf(p', h) ==> ChannelsOf(p', h)[id] == ChannelsOf(p, h)[id])
      && (id in PublishersOf(p'.publishers, h)
          <==> id in PublishersOf(p.publishers, h) && !Named(ids, id))
      && (id in PublishersOf(p'.publishers, h) ==>
            PublishersOf(p'.publishers, h)[id] == PublishersOf(p.publishers, h)[id])
  {
    assert HandleOk(p, h);
    if h in p.clientChannels {
      UnadvertiseItemsExact(p, h, ids, id);
    }
  }

  /** One error for a client without channels or for a malformed item, and no other reply. */
  lemma {:induction false} UnadvertiseItemsReplies(p: Tables, h: Handle, ids: seq<Option<u32>>)
    requires h in p.clientChannels
    ensures UnadvertiseItems(p, h, ids).replies
            == if forall k | 0 <= k < |ids| :: ids[k].Some? then [] else [Error]
    decreases |ids|
  {
    if ids != [] && ids[0].Some? {
      var tail := ids[1..];
      assert (forall k | 0 <= k < |ids| :: ids[k].Some?) <==> forall k | 0 <= k < |tail| :: tail[k].Some? by {
        assert forall k | 0 <= k < |tail| :: tail[k] == ids[k + 1];
        assert forall k | 0 < k < |ids| :: ids[k] == tail[k - 1];
      }
      if ids[0].value in p.clientChannels[h] {
        UnadvertiseItemsReplies(
          p.(clientChannels := p.clientChannels[h := p.clientChannels[h] - {ids[0].value}],
             publishers := UnadvertiseHandler(p.publishers, h, ids[0].value)),
          h, tail);
      } else {
        UnadvertiseItemsReplies(p, h, tail);
      }
    }
  }

  lemma UnadvertiseReplies(p: Tables, h: Handle, ids: seq<Option<u32>>)
    requires h in p.advertised
    ensures UnadvertiseMessage(p, h, ids).replies
            == if h in p.clientChannels && forall k | 0 <= k < |ids| :: ids[k].Some? then [] else [Error]
  {
    if h in p.clientChannels {
      UnadvertiseItemsReplies(p, h, ids);
    }
  }
}
