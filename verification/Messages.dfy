/** The effect of one text message of a client, when nobody else runs in between. */
module Messages {
  import opened Common
  import opened Registry
  import P = Publications

  /** A text message after parsing and dispatch on its operation. */
  datatype TextMessage =
    | Unparsable
    | UnknownOperation
    | SubscribeMessage(items: seq<SubscribeItem>)
    | UnsubscribeMessage(ids: seq<Option<u32>>)
    | AdvertiseMessage(ads: seq<P.AdvertiseItem>)
    | UnadvertiseMessage(ids: seq<Option<u32>>)

  /** The registry and the tables of client channels. */
  datatype Whole = Whole(sides: Sides, tables: P.Tables)

  function Replied(w: Whole, h: Handle, o: P.Outcome): Whole {
    Whole(w.sides.(server := Send(w.sides.server, h, Replies(o.replies))), o.tables)
  }

  /** Everything that goes wrong before an operation starts ends in one error status. */
  ghost function Effect(ros: Ros, w: Whole, h: Handle, msg: TextMessage): Whole {
    if h !in w.sides.server.subs || msg.Unparsable? || msg.UnknownOperation? then
      w.(sides := w.sides.(server := Send(w.sides.server, h, [Status(Error)])))
    else match msg
      case SubscribeMessage(items) => w.(sides := SubscribeBatch(w.sides, h, items))
      case UnsubscribeMessage(ids) => w.(sides := UnsubscribeBatch(w.sides, h, ids))
      case AdvertiseMessage(ads) => Replied(w, h, P.AdvertiseMessage(ros, w.tables, h, ads))
      case UnadvertiseMessage(ids) => Replied(w, h, P.UnadvertiseMessage(w.tables, h, ids))
  }
}
