/** The binary frames of the Foxglove WebSocket protocol, version 1, on hosts of either byte order. */
module Frames {
  import opened Common
  import P = Publications

  type byte = n: int | 0 <= n < 256


  type u64 = n: int | 0 <= n < LONG_SPACE

  datatype Host = LittleEndianHost | BigEndianHost

  // ------------------------------------------------------------------ byte order

  function Power256(n: nat): nat {
    if n == 0 then 1 else 256 * Power256(n - 1)
  }

  /** The `n` low bytes of a value, lowest first. */
  function LittleEndian(v: nat, n: nat): (bytes: seq<byte>)
    ensures |bytes| == n
  {
    if n == 0 then [] else [v % 256] + LittleEndian(v / 256, n - 1)
  }

  function ValueOf(bytes: seq<byte>): (v: nat)
    ensures v < Power256(|bytes|)
  {
    if bytes == [] then 0 else bytes[0] + 256 * ValueOf(bytes[1..])
  }

  function Reversed(bytes: seq<byte>): (r: seq<byte>)
    ensures |r| == |bytes|
    ensures forall i | 0 <= i < |bytes| :: r[i] == bytes[|bytes| - 1 - i]
  {
    if bytes == [] then [] else Reversed(bytes[1..]) + [bytes[0]]
  }

  /** Storing an integer through a pointer of its own type. */
  function NativeStore(host: Host, v: nat, n: nat): (bytes: seq<byte>)
    ensures |bytes| == n
  {
    if host.LittleEndianHost? then LittleEndian(v, n) else Reversed(LittleEndian(v, n))
  }

  function NativeLoad(host: Host, bytes: seq<byte>): (v: nat)
    ensures v < Power256(|bytes|)
  {
    ValueOf(if host.LittleEndianHost? then bytes else Reversed(bytes))
  }

  /** `v >> 8 * k` */
  function ShiftedBytes(v: nat, k: nat): nat {
    if k == 0 then v else ShiftedBytes(v / 256, k - 1)
  }

  /** Byte `k` of the little-endian form is the value shifted and masked. */
  lemma {:induction false} ShiftAndMask(v: nat, n: nat, k: nat)
    requires k < n
    ensures LittleEndian(v, n)[k] == ShiftedBytes(v, k) % 256
    decreases n
  {
    if k > 0 {
      ShiftAndMask(v / 256, n - 1, k - 1);
    }
  }

  lemma {:induction false} ValueOfLittleEndian(v: nat, n: nat)
    requires v < Power256(n)
    ensures ValueOf(LittleEndian(v, n)) == v
    decreases n
  {
    if n > 0 {
      ValueOfLittleEndian(v / 256, n - 1);
      assert LittleEndian(v, n)[1..] == LittleEndian(v / 256, n - 1);
    }
  }

  /** Different byte strings of one length have different values. */
  lemma {:induction false} ValueOfInjective(a: seq<byte>, b: seq<byte>)
    requires |a| == |b| && ValueOf(a) == ValueOf(b)
    ensures a == b
    decreases |a|
  {
    if a != [] {
      var x, y := ValueOf(a[1..]), ValueOf(b[1..]);
      assert a[0] + 256 * x == b[0] + 256 * y;
      assert a[0] == (a[0] + 256 * x) % 256 && b[0] == (b[0] + 256 * y) % 256;
      ValueOfInjective(a[1..], b[1..]);
      assert a == [a[0]] + a[1..] && b == [b[0]] + b[1..];
    }
  }

  lemma Sizes()
    ensures Power256(4) == ID_SPACE && Power256(8) == LONG_SPACE
  {
    assert Power256(4) == 256 * 256 * Power256(2);
    assert Power256(8) == 256 * 256 * 256 * 256 * Power256(4);
  }

  /** Shifts and masks on a big-endian host, one native store on a little-endian one. */
  method WriteUint32LE(host: Host, buf: array<byte>, at: nat, val: u32)
    requires at + 4 <= buf.Length
    modifies buf
    ensures buf[..] == old(buf[..at]) + LittleEndian(val, 4) + old(buf[at + 4..])
  {
    if host.BigEndianHost? {
      forall k: nat | k < 4 ensures LittleEndian(val, 4)[k] == ShiftedBytes(val, k) % 256 {
        ShiftAndMask(val, 4, k);
      }
      buf[at] := ShiftedBytes(val, 0) % 256;
      buf[at + 1] := ShiftedBytes(val, 1) % 256;
      buf[at + 2] := ShiftedBytes(val, 2) % 256;
      buf[at + 3] := ShiftedBytes(val, 3) % 256;
    } else {
      forall k | 0 <= k < 4 {
        buf[at + k] := NativeStore(host, val, 4)[k];
      }
    }
  }

  method WriteUint64LE(host: Host, buf: array<byte>, at: nat, val: u64)
    requires at + 8 <= buf.Length
    modifies buf
    ensures buf[..] == old(buf[..at]) + LittleEndian(val, 8) + old(buf[at + 8..])
  {
    if host.BigEndianHost? {
      forall k: nat | k < 8 ensures LittleEndian(val, 8)[k] == ShiftedBytes(val, k) % 256 {
        ShiftAndMask(val, 8, k);
      }
      buf[at] := ShiftedBytes(val, 0) % 256;
      buf[at + 1] := ShiftedBytes(val, 1) % 256;
      buf[at + 2] := ShiftedBytes(val, 2) % 256;
      buf[at + 3] := ShiftedBytes(val, 3) % 256;
      buf[at + 4] := ShiftedBytes(val, 4) % 256;
      buf[at + 5] := ShiftedBytes(val, 5) % 256;
      buf[at + 6] := ShiftedBytes(val, 6) % 256;
      buf[at + 7] := ShiftedBytes(val, 7) % 256;
    } else {
      forall k | 0 <= k < 8 {
        buf[at + k] := NativeStore(host, val, 8)[k];
      }
    }
  }

  /** `memcpy` */
  method CopyTo(buf: array<byte>, at: nat, data: seq<byte>)
    requires at + |data| == buf.Length
    modifies buf
    ensures buf[..] == old(buf[..at]) + data
  {
    forall k | 0 <= k < |data| {
      buf[at + k] := data[k];
    }
  }

  // ------------------------------------------------------------------ the frames

  const MESSAGE_DATA: byte := 1

  /** Client Message Data: opcode, client channel id, payload. */
  function ClientFrame(channelId: u32, payload: seq<byte>): seq<byte> {
    [MESSAGE_DATA] + LittleEndian(channelId, 4) + payload
  }

  /** Message Data: opcode, subscription id, receive time, payload. */
  function DataFrame(subId: u32, timestamp: u64, payload: seq<byte>): seq<byte> {
    [MESSAGE_DATA] + LittleEndian(subId, 4) + LittleEndian(timestamp, 8) + payload
  }

  /** `Client::publish` up to the send. */
  method Publish(host: Host, channelId: u32, buffer: seq<byte>) returns (frame: seq<byte>)
    ensures frame == ClientFrame(channelId, buffer)
  {
    var payload := new byte[1 + 4 + |buffer|](_ => 0);
    payload[0] := MESSAGE_DATA;
    WriteUint32LE(host, payload, 1, channelId);
    assert payload[..5] == [MESSAGE_DATA] + LittleEndian(channelId, 4);
    CopyTo(payload, 5, buffer);
    return payload[..];
  }

  /** The frame that `sendMessage` assembles. */
  method AssembleDataFrame(host: Host, subId: u32, timestamp: u64, data: seq<byte>)
    returns (frame: seq<byte>)
    ensures frame == DataFrame(subId, timestamp, data)
  {
    var message := new byte[1 + 4 + 8 + |data|](_ => 0);
    message[0] := MESSAGE_DATA;
    WriteUint32LE(host, message, 1, subId);
    assert message[..5] == [MESSAGE_DATA] + LittleEndian(subId, 4);
    WriteUint64LE(host, message, 5, timestamp);
    assert message[..13] == [MESSAGE_DATA] + LittleEndian(subId, 4) + LittleEndian(timestamp, 8);
    CopyTo(message, 13, data);
    return message[..];
  }

  /** Reading a data frame as the protocol lays it out. */
  function DecodeDataFrame(frame: seq<byte>): Option<(nat, nat, seq<byte>)> {
    if |frame| < 13 || frame[0] != MESSAGE_DATA then None
    else Some((ValueOf(frame[1..5]), ValueOf(frame[5..13]), frame[13..]))
  }

  /** A data frame carries subscription id, time and payload unchanged. */
  lemma DataFrameRoundTrip(subId: u32, timestamp: u64, payload: seq<byte>)
    ensures DecodeDataFrame(DataFrame(subId, timestamp, payload))
            == Some((subId, timestamp, payload))
  {
    var frame := DataFrame(subId, timestamp, payload);
    Sizes();
    ValueOfLittleEndian(subId, 4);
    ValueOfLittleEndian(timestamp, 8);
    assert frame[1..5] == LittleEndian(subId, 4);
    assert frame[5..13] == LittleEndian(timestamp, 8);
    assert frame[13..] == payload;
  }

  /** The bytes of a frame: opcode 1, then the numbers with their lowest byte first. */
  lemma FrameLayout(subId: u32, timestamp: u64, payload: seq<byte>)
    ensures var frame := DataFrame(subId, timestamp, payload);
      && |frame| == 13 + |payload| && frame[0] == 1 && frame[13..] == payload
      && frame[1] == subId % 256 && frame[2] == subId / 0x100 % 256
      && frame[3] == subId / 0x1_0000 % 256 && frame[4] == subId / 0x100_0000
      && (forall k | 0 <= k < 8 :: frame[5 + k] == ShiftedBytes(timestamp, k) % 256)
    ensures var frame := ClientFrame(subId, payload);
      && |frame| == 5 + |payload| && frame[0] == 1 && frame[5..] == payload
      && frame[1] == subId % 256 && frame[2] == subId / 0x100 % 256
      && frame[3] == subId / 0x1_0000 % 256 && frame[4] == subId / 0x100_0000
  {
    var bytes, stamp := LittleEndian(subId, 4), LittleEndian(timestamp, 8);
    FourBytes(subId);
    var frame := DataFrame(subId, timestamp, payload);
    assert frame[1..5] == bytes && frame[5..13] == stamp && frame[13..] == payload;
    forall k | 0 <= k < 8 ensures frame[5 + k] == ShiftedBytes(timestamp, k) % 256 {
      ShiftAndMask(timestamp, 8, k);
      assert frame[5 + k] == frame[5..13][k];
    }
    assert ClientFrame(subId, payload)[1..5] == bytes;
    assert forall k | 0 <= k < 4 :: frame[1 + k] == frame[1..5][k];
  }

  lemma FourBytes(v: u32)
    ensures LittleEndian(v, 4) == [v % 256, v / 0x100 % 256, v / 0x1_0000 % 256, v / 0x100_0000]
  {
    assert LittleEndian(v, 4) == [v % 256] + LittleEndian(v / 256, 3);
    assert LittleEndian(v / 256, 3) == [v / 256 % 256] + LittleEndian(v / 256 / 256, 2);
    assert LittleEndian(v / 256 / 256, 2)
        == [v / 256 / 256 % 256] + LittleEndian(v / 256 / 256 / 256, 1);
    var top := v / 256 / 256 / 256;
    assert LittleEndian(top, 1) == [top % 256] + LittleEndian(top / 256, 0);
  }

  // ------------------------------------------------------------------ client messages

  /** What a binary message leads to. */
  datatype BinaryOutcome =
    | Rejected                                             // an error status goes back
    | Dropped                                              // no ROS publisher for the channel
    | Published(publisher: P.Publisher, payload: seq<byte>)

  /** The channel id is read natively. */
  function ChannelIdOf(host: Host, msg: seq<byte>): u32
    requires |msg| >= 5
  {
    Sizes();
    NativeLoad(host, msg[1..5])
  }

  /** `handleBinaryMessage` followed by the bridge's `clientMessageHandler`. */
  function HandleBinary(host: Host, p: P.Tables, h: Handle, msg: seq<byte>): BinaryOutcome {
    if msg == [] || h !in p.clientChannels || msg[0] != MESSAGE_DATA || |msg| < 5 then Rejected
    else
      var id := ChannelIdOf(host, msg);
      if id !in p.clientChannels[h] then Rejected
      else if id !in P.PublishersOf(p.publishers, h) then Dropped
      else Published(p.publishers[h][id], msg[5..])
  }

  /**
   A published frame is read back with its own channel id on every little-endian host, and on a
   big-endian host exactly when the four bytes of the id read the same in both directions.
   */
  lemma PublishedIdRoundTrip(host: Host, channelId: u32, payload: seq<byte>)
    ensures |ClientFrame(channelId, payload)| >= 5
    ensures ClientFrame(channelId, payload)[5..] == payload
    ensures ChannelIdOf(host, ClientFrame(channelId, payload)) == channelId
            <==> host.LittleEndianHost?
                 || Reversed(LittleEndian(channelId, 4)) == LittleEndian(channelId, 4)
  {
    var frame, bytes := ClientFrame(channelId, payload), LittleEndian(channelId, 4);
    assert frame[1..5] == bytes;
    Sizes();
    ValueOfLittleEndian(channelId, 4);
    if ValueOf(Reversed(bytes)) == ValueOf(bytes) {
      ValueOfInjective(Reversed(bytes), bytes);
    }
  }

  /** On a little-endian host a published payload reaches exactly the publisher of its channel. */
  lemma PublishReachesPublisher(p: P.Tables, h: Handle, channelId: u32, payload: seq<byte>)
    ensures var outcome := HandleBinary(LittleEndianHost, p, h, ClientFrame(channelId, payload));
      match P.PublisherFor(p, h, channelId)
      case Some(publisher) => outcome == Published(publisher, payload)
      case None => outcome == if channelId in P.ChannelsOf(p, h) then Dropped else Rejected
  {
    PublishedIdRoundTrip(LittleEndianHost, channelId, payload);
  }

  function Weighted(a: nat, b: nat, c: nat, d: nat): nat {
    a + 0x100 * b + 0x1_0000 * c + 0x100_0000 * d
  }

  /** The bytes of a message that make up the channel id, by the host's byte order. */
  lemma ChannelIdBytes(msg: seq<byte>)
    requires |msg| >= 5
    ensures ChannelIdOf(LittleEndianHost, msg)
            == Weighted(msg[1], msg[2], msg[3], msg[4])
    ensures ChannelIdOf(BigEndianHost, msg)
            == Weighted(msg[4], msg[3], msg[2], msg[1])
  {
    var bytes := msg[1..5];
    FourValue(bytes);
    FourReversed(bytes);
    FourValue(Reversed(bytes));
  }

  lemma FourValue(b: seq<byte>)
    requires |b| == 4
    ensures ValueOf(b) == Weighted(b[0], b[1], b[2], b[3])
  {
    assert b[1..][1..] == b[2..] && b[2..][1..] == b[3..] && b[3..][1..] == b[4..] && b[4..] == [];
    assert ValueOf(b[4..]) == 0 && ValueOf(b[3..]) == b[3] as nat;
    assert ValueOf(b[2..]) == b[2] as nat + 256 * ValueOf(b[3..]);
    assert ValueOf(b[1..]) == b[1] as nat + 256 * ValueOf(b[2..]);
  }

  lemma FourReversed(b: seq<byte>)
    requires |b| == 4
    ensures Reversed(b) == [b[3], b[2], b[1], b[0]]
  {
    assert b[1..][1..] == b[2..] && b[2..][1..] == b[3..] && b[3..][1..] == b[4..] && b[4..] == [];
    assert Reversed(b[3..]) == [b[3]] && Reversed(b[2..]) == [b[3], b[2]];
  }

  /**
   A binary message is accepted exactly if it has opcode 1 and names a channel of its sender; then
   everything from the sixth byte on reaches the channel's publisher, if there is one.
   */
  lemma BinaryExact(host: Host, p: P.Tables, h: Handle, msg: seq<byte>)
    ensures var outcome := HandleBinary(host, p, h, msg);
      && (outcome.Rejected? <==> !(|msg| >= 5 && msg[0] == 1 && h in p.clientChannels
                                   && ChannelIdOf(host, msg) in p.clientChannels[h]))
      && (outcome.Published? ==>
            && ChannelIdOf(host, msg) in P.PublishersOf(p.publishers, h)
            && outcome.publisher == P.PublishersOf(p.publishers, h)[ChannelIdOf(host, msg)]
            && outcome.payload == msg[5..])
      && (outcome.Dropped? ==> ChannelIdOf(host, msg) !in P.PublishersOf(p.publishers, h))
  {}
}
