/** What every message and every disconnect keeps of the channels that clients advertise. */
module PublicationSafety {
  import opened Common
  import opened Registry
  import opened Publications

  /** A handle's publishers are among its server channels, those among all it ever advertised. */
  ghost predicate HandleOk(p: Tables, h: Handle) {
    && PublishersOf(p.publishers, h).Keys <= ChannelsOf(p, h).Keys
    && (h in p.clientChannels ==> h in p.advertised && p.clientChannels[h].Keys <= p.advertised[h])
  }

  ghost predicate TablesOk(p: Tables) {
    forall h: Handle :: HandleOk(p, h)
  }

  lemma OpenKeeps(p: Tables, h: Handle)
    requires TablesOk(p)
    ensures TablesOk(OpenTables(p, h))
  {
    forall h': Handle ensures HandleOk(OpenTables(p, h), h') {
      assert HandleOk(p, h');
    }
  }

  lemma CloseKeeps(p: Tables, h: Handle)
    requires TablesOk(p)
    ensures TablesOk(CloseTables(p, h))
    ensures h !in CloseTables(p, h).advertised
    ensures PublishersOf(CloseTables(p, h).publishers, h) == map[]
  {
    var p' := CloseTables(p, h);
    assert HandleOk(p, h);
    assert PublishersOf(p'.publishers, h).Keys == {};
    forall h': Handle ensures HandleOk(p', h') {
      assert HandleOk(p, h');
    }
  }

  /** The bridge's handlers touch one client only. */
  lemma HandlersFrame(ros: Ros, publishers: PublisherTable, h: Handle, adv: ClientAdvertisement,
                      creation: Creation, id: u32, h': Handle)
    requires h' != h
    ensures PublishersOf(AdvertiseHandler(ros, publishers, h, adv, creation), h')
            == PublishersOf(publishers, h')
    ensures PublishersOf(UnadvertiseHandler(publishers, h, id), h') == PublishersOf(publishers, h')
  {}

  lemma UnadvertiseHandlerRemoves(publishers: PublisherTable, h: Handle, id: u32)
    ensures PublishersOf(UnadvertiseHandler(publishers, h, id), h)
            == PublishersOf(publishers, h) - {id}
  {}

  lemma {:induction false} AdvertiseItemsKeep(ros: Ros, p: Tables, h: Handle, first: bool,
                                              items: seq<AdvertiseItem>)
    requires TablesOk(p) && h in p.advertised
    ensures var p' := AdvertiseItems(ros, p, h, first, items).tables;
      TablesOk(p') && p'.advertised.Keys == p.advertised.Keys
    decreases |items|
  {
    if items != [] && items[0].Item? {
      var adv, creation := items[0].adv, items[0].creation;
      if !first && adv.channelId in ChannelsOf(p, h) {
        AdvertiseItemsKeep(ros, p, h, first, items[1..]);
      } else {
        var publishers := AdvertiseHandler(ros, p.publishers, h, adv, creation);
        var p' := StoreAdvertisement(p, h, adv).(publishers := publishers);
        forall h': Handle ensures HandleOk(p', h') {
          assert HandleOk(p, h');
          if h' != h {
            HandlersFrame(ros, p.publishers, h, adv, creation, 0, h');
          }
        }
        AdvertiseItemsKeep(ros, p', h, first, items[1..]);
      }
    }
  }

  lemma AdvertiseKeeps(ros: Ros, p: Tables, h: Handle, items: seq<AdvertiseItem>)
    requires TablesOk(p)
    ensures var p' := AdvertiseMessage(ros, p, h, items).tables;
      TablesOk(p') && p'.advertised.Keys == p.advertised.Keys
  {
    if h in p.advertised {
      var p' := p.(clientChannels := p.clientChannels[h := ChannelsOf(p, h)]);
      forall h': Handle ensures HandleOk(p', h') {
        assert HandleOk(p, h');
      }
      AdvertiseItemsKeep(ros, p', h, h !in p.clientChannels, items);
    }
  }

  lemma {:induction false} UnadvertiseItemsKeep(p: Tables, h: Handle, ids: seq<Option<u32>>)
    requires TablesOk(p) && h in p.clientChannels
    ensures var p' := UnadvertiseItems(p, h, ids).tables;
      TablesOk(p') && p'.advertised == p.advertised
    decreases |ids|
  {
    if ids != [] && ids[0].Some? {
      var id := ids[0].value;
      if id !in p.clientChannels[h] {
        UnadvertiseItemsKeep(p, h, ids[1..]);
      } else {
        var p' := p.(clientChannels := p.clientChannels[h := p.clientChannels[h] - {id}],
                     publishers := UnadvertiseHandler(p.publishers, h, id));
        UnadvertiseHandlerRemoves(p.publishers, h, id);
        forall h': Handle ensures HandleOk(p', h') {
          assert HandleOk(p, h');
        }
        UnadvertiseItemsKeep(p', h, ids[1..]);
      }
    }
  }

  lemma UnadvertiseKeeps(p: Tables, h: Handle, ids: seq<Option<u32>>)
    requires TablesOk(p)
    ensures var p' := UnadvertiseMessage(p, h, ids).tables;
      TablesOk(p') && p'.advertised == p.advertised
  {
    if h in p.advertised && h in p.clientChannels {
      UnadvertiseItemsKeep(p, h, ids);
    }
  }

  // ------------------------------------------------------------------ failed creations

  /** The server knows the channel, the bridge has no publisher for it. */
  ghost predicate Mute(p: Tables, h: Handle, id: u32) {
    id in ChannelsOf(p, h) && id !in PublishersOf(p.publishers, h)
  }

  /** Advertising a channel again, by anyone, does not help one whose publisher is missing. */
  lemma {:induction false} MuteItemsStay(ros: Ros, p: Tables, h: Handle, id: u32, h': Handle,
                                         first: bool, items: seq<AdvertiseItem>)
    requires Mute(p, h, id) && h' in p.advertised && (h' == h ==> !first)
    ensures Mute(AdvertiseItems(ros, p, h', first, items).tables, h, id)
    decreases |items|
  {
    if items != [] && items[0].Item? {
      var adv, creation := items[0].adv, items[0].creation;
      if !first && adv.channelId in ChannelsOf(p, h') {
        MuteItemsStay(ros, p, h, id, h', first, items[1..]);
      } else {
        var publishers := AdvertiseHandler(ros, p.publishers, h', adv, creation);
        var p' := StoreAdvertisement(p, h', adv).(publishers := publishers);
        if h' != h {
          HandlersFrame(ros, p.publishers, h', adv, creation, 0, h);
        }
        MuteItemsStay(ros, p', h, id, h', first, items[1..]);
      }
    }
  }

  lemma MuteStaysMute(ros: Ros, p: Tables, h: Handle, id: u32, h': Handle,
                      items: seq<AdvertiseItem>)
    requires Mute(p, h, id)
    ensures Mute(AdvertiseMessage(ros, p, h', items).tables, h, id)
  {
    if h' in p.advertised {
      var p' := p.(clientChannels := p.clientChannels[h' := ChannelsOf(p, h')]);
      assert ChannelsOf(p', h) == ChannelsOf(p, h);
      MuteItemsStay(ros, p', h, id, h', h' !in p.clientChannels, items);
    }
  }

  /** Unadvertising and advertising again does. */
  lemma UnadvertiseRecovers(p: Tables, h: Handle, adv: ClientAdvertisement)
    requires TablesOk(p) && Mute(p, h, adv.channelId)
    ensures var p1 := UnadvertiseMessage(p, h, [Some(adv.channelId)]).tables;
      var p2 := AdvertiseMessage(Ros2, p1, h, [Item(adv, Created)]).tables;
      PublisherFor(p2, h, adv.channelId) == Some(Publisher(adv.topic, adv.schemaName))
  {
    var id := adv.channelId;
    assert HandleOk(p, h);
    var ids: seq<Option<u32>> := [Some(id)];
    var p1 := p.(clientChannels := p.clientChannels[h := p.clientChannels[h] - {id}]);
    assert UnadvertiseHandler(p.publishers, h, id) == p.publishers;
    assert ids[1..] == [] && UnadvertiseItems(p1, h, []).tables == p1;
    assert UnadvertiseMessage(p, h, ids).tables == p1;
    AdvertiseCreates(p1, h, adv);
  }

  /** Advertising a new channel whose publisher ROS creates. */
  lemma AdvertiseCreates(p: Tables, h: Handle, adv: ClientAdvertisement)
    requires h in p.advertised && adv.channelId !in ChannelsOf(p, h)
    requires adv.channelId !in PublishersOf(p.publishers, h)
    ensures var p' := AdvertiseMessage(Ros2, p, h, [Item(adv, Created)]).tables;
      PublisherFor(p', h, adv.channelId) == Some(Publisher(adv.topic, adv.schemaName))
  {
    var items := [Item(adv, Created)];
    var p0 := p.(clientChannels := p.clientChannels[h := ChannelsOf(p, h)]);
    var p1 := StoreAdvertisement(p0, h, adv)
      .(publishers := AdvertiseHandler(Ros2, p.publishers, h, adv, Created));
    assert items[1..] == [];
    assert AdvertiseItems(Ros2, p1, h, h !in p.clientChannels, []).tables == p1;
    assert AdvertiseMessage(Ros2, p, h, items).tables == p1;
  }
}
