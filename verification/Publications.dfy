/**
 Channels advertised by clients: the server's two tables and the bridge's ROS publishers.
 Only the WebSocket thread touches this state, so whole messages are the steps here.
 */
module Publications {
  import opened Common
  import opened Registry

  datatype ClientAdvertisement =
    ClientAdvertisement(channelId: u32, topic: string, encoding: string, schemaName: string)

  datatype Publisher = Publisher(topic: string, schemaName: string)

  type PublisherTable = map<Handle, map<u32, Publisher>>

  /**
   `advertised[h]` is `_clients[h].advertisedChannels`, `clientChannels` the server's table of
   client channels and `publishers` the bridge's `_clientAdvertisedTopics`.
   */
  datatype Tables = Tables(
    advertised: map<Handle, set<u32>>,
    clientChannels: map<Handle, map<u32, ClientAdvertisement>>,
    publishers: PublisherTable)

  const NoTables := Tables(map[], map[], map[])

  /** Creating a ROS publisher succeeds, is refused without an exception (ROS 1), or throws. */
  datatype Creation = Created | Refused | Threw

  datatype AdvertiseItem = BadItem | Item(adv: ClientAdvertisement, creation: Creation)

  function PublishersOf(publishers: PublisherTable, h: Handle): map<u32, Publisher> {
    if h in publishers then publishers[h] else map[]
  }

  function ChannelsOf(p: Tables, h: Handle): map<u32, ClientAdvertisement> {
    if h in p.clientChannels then p.clientChannels[h] else map[]
  }

  // ------------------------------------------------------------------ bridge handlers

  /** ROS 1 turns other encodings away before it looks at its table. */
  predicate Unsupported(ros: Ros, adv: ClientAdvertisement) {
    ros.Ros1? && adv.encoding != "ros1"
  }

  function AdvertiseHandler(ros: Ros, publishers: PublisherTable, h: Handle,
                            adv: ClientAdvertisement, creation: Creation): PublisherTable
  {
    var mine := PublishersOf(publishers, h);
    if Unsupported(ros, adv) || adv.channelId in mine then publishers
    else if creation.Created? then
      publishers[h := mine[adv.channelId := Publisher(adv.topic, adv.schemaName)]]
    else publishers[h := mine]
  }

  predicate AdvertiseThrows(ros: Ros, publishers: PublisherTable, h: Handle,
                            adv: ClientAdvertisement, creation: Creation)
  {
    !Unsupported(ros, adv) && adv.channelId !in PublishersOf(publishers, h) && creation.Threw?
  }

  function UnadvertiseHandler(publishers: PublisherTable, h: Handle, id: u32): PublisherTable {
    if id !in PublishersOf(publishers, h) then publishers
    else
      var rest := publishers[h] - {id};
      if rest == map[] then publishers - {h} else publishers[h := rest]
  }

  // ------------------------------------------------------------------ server messages

  /** The tables after a message and the status levels it sends back. */
  datatype Outcome = Outcome(tables: Tables, replies: seq<StatusLevel>)

  function StoreAdvertisement(p: Tables, h: Handle, adv: ClientAdvertisement): Tables
    requires h in p.advertised
  {
    var mine: map<u32, ClientAdvertisement> := ChannelsOf(p, h);
    p.(clientChannels := p.clientChannels[h := if adv.channelId in mine then mine
                                               else mine[adv.channelId := adv]],
       advertised := p.advertised[h := p.advertised[h] + {adv.channelId}])
  }

  /** What one item of an advertise message does, and whether it ends the message. */
  datatype Step = Step(tables: Tables, replies: seq<StatusLevel>, stop: bool)

  /** In the first message of a client (`first`) the check for an id advertised before is skipped. */
  function AdvertiseOne(ros: Ros, p: Tables, h: Handle, first: bool, item: AdvertiseItem): Step
    requires h in p.advertised
  {
    match item
    case BadItem => Step(p, [Error], true)
    case Item(adv, creation) =>
      if !first && adv.channelId in ChannelsOf(p, h) then Step(p, [Error], false)
      else
        var p' := StoreAdvertisement(p, h, adv).(
                  publishers := AdvertiseHandler(ros, p.publishers, h, adv, creation));
        if AdvertiseThrows(ros, p.publishers, h, adv, creation) then Step(p', [Error], true)
        else Step(p', [], false)
  }

  function AdvertiseItems(ros: Ros, p: Tables, h: Handle, first: bool,
                          items: seq<AdvertiseItem>): Outcome
    requires h in p.advertised
    decreases |items|
  {
    if items == [] then Outcome(p, [])
    else
      var one := AdvertiseOne(ros, p, h, first, items[0]);
      if one.stop then Outcome(one.tables, one.replies)
      else
        var rest := AdvertiseItems(ros, one.tables, h, first, items[1..]);
        Outcome(rest.tables, one.replies + rest.replies)
  }

  function AdvertiseMessage(ros: Ros, p: Tables, h: Handle, items: seq<AdvertiseItem>): Outcome {
    if h !in p.advertised then Outcome(p, [Error])
    else
      var first := h !in p.clientChannels;
      AdvertiseItems(ros, p.(clientChannels := p.clientChannels[h := ChannelsOf(p, h)]),
                     h, first, items)
  }

  function UnadvertiseItems(p: Tables, h: Handle, ids: seq<Option<u32>>): Outcome
    requires h in p.clientChannels
    decreases |ids|
  {
    if ids == [] then Outcome(p, [])
    else match ids[0]
      case None => Outcome(p, [Error])
      case Some(id) =>
        if id !in p.clientChannels[h] then UnadvertiseItems(p, h, ids[1..])
        else
          UnadvertiseItems(
            p.(clientChannels := p.clientChannels[h := p.clientChannels[h] - {id}],
               publishers := UnadvertiseHandler(p.publishers, h, id)),
            h, ids[1..])
  }

  function UnadvertiseMessage(p: Tables, h: Handle, ids: seq<Option<u32>>): Outcome {
    if h !in p.advertised || h !in p.clientChannels then Outcome(p, [Error])
    else UnadvertiseItems(p, h, ids)
  }

  function OpenTables(p: Tables, h: Handle): Tables {
    if h in p.advertised then p else p.(advertised := p.advertised[h := {}])
  }

  /** The unadvertise loop of a closed connection over a set of ids, in any order. */
  function UnadvertiseAll(publishers: PublisherTable, h: Handle, ids: set<u32>): PublisherTable {
    var mine := PublishersOf(publishers, h);
    var rest := mine - ids;
    if rest == mine then publishers
    else if rest == map[] then publishers - {h}
    else publishers[h := rest]
  }

  function CloseTables(p: Tables, h: Handle): Tables {
    if h !in p.advertised then p
    else Tables(p.advertised - {h}, p.clientChannels - {h},
                UnadvertiseAll(p.publishers, h, p.advertised[h]))
  }

  /** What a binary message that names channel `id` reaches: the publisher, or nobody. */
  function PublisherFor(p: Tables, h: Handle, id: u32): Option<Publisher> {
    if id in ChannelsOf(p, h) && id in PublishersOf(p.publishers, h)
    then Some(p.publishers[h][id]) else None
  }
}
