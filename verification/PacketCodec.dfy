/**
 The packet stream (common/Protocol.h, MsgNode.cc, SendNode; GatewayLinkSession.cc, ReadHead and ReadData):
 a ten byte big-endian header and a body.
 */
module PacketCodec {
  type Byte = n: nat | n < 256

  const MAGIC: nat := 0x5254
  const HEAD_LEN: nat := 10
  const MAX_BODY: nat := 65536

  const MAGIC_OFFSET: nat := 0
  const ID_OFFSET: nat := 2
  const FLAGS_OFFSET: nat := 4
  const LENGTH_OFFSET: nat := 6

  datatype Packet = Packet(msgId: nat, flags: nat, body: seq<Byte>) {
    /** The fields fit their width. */
    predicate Fits() { msgId < 0x1_0000 && flags < 0x1_0000 && |body| < 0x1_0000_0000 }

    /** A packet the reader accepts. */
    predicate Sendable() { Fits() && msgId != 0 && |body| <= MAX_BODY }
  }

  // ---- numbers on the wire ----

  function PutShort(n: nat): (s: seq<Byte>)
    requires n < 0x1_0000
    ensures |s| == 2
  {
    [n / 256, n % 256]
  }

  function PutLong(n: nat): (s: seq<Byte>)
    requires n < 0x1_0000_0000
    ensures |s| == 4
  {
    PutShort(n / 0x1_0000) + PutShort(n % 0x1_0000)
  }

  function GetShort(s: seq<Byte>): nat
    requires |s| == 2
  {
    var high: nat := s[0];
    high * 256 + s[1]
  }

  function GetLong(s: seq<Byte>): nat
    requires |s| == 4
  {
    GetShort(s[..2]) * 0x1_0000 + GetShort(s[2..])
  }

  lemma ShortRoundTrip(n: nat, s: seq<Byte>)
    requires n < 0x1_0000 && |s| == 2
    ensures GetShort(PutShort(n)) == n
    ensures GetShort(s) < 0x1_0000 && PutShort(GetShort(s)) == s
  {}

  lemma LongRoundTrip(n: nat, s: seq<Byte>)
    requires n < 0x1_0000_0000 && |s| == 4
    ensures GetLong(PutLong(n)) == n
    ensures GetLong(s) < 0x1_0000_0000 && PutLong(GetLong(s)) == s
  {
    ShortRoundTrip(n / 0x1_0000, s[..2]);
    ShortRoundTrip(n % 0x1_0000, s[2..]);
    assert PutLong(n)[..2] == PutShort(n / 0x1_0000) && PutLong(n)[2..] == PutShort(n % 0x1_0000);
    var hi, lo := GetShort(s[..2]), GetShort(s[2..]);
    assert GetLong(s) / 0x1_0000 == hi && GetLong(s) % 0x1_0000 == lo;
    assert s == s[..2] + s[2..];
  }

  // ---- encoding ----

  function Head(p: Packet): (s: seq<Byte>)
    requires p.Fits()
    ensures |s| == HEAD_LEN
  {
    PutShort(MAGIC) + PutShort(p.msgId) + PutShort(p.flags) + PutLong(|p.body|)
  }

  function Encode(p: Packet): (s: seq<Byte>)
    requires p.Fits()
    ensures |s| == HEAD_LEN + |p.body|
  {
    Head(p) + p.body
  }

  function EncodeAll(ps: seq<Packet>): seq<Byte>
    requires forall i | 0 <= i < |ps| :: ps[i].Fits()
  {
    if ps == [] then [] else Encode(ps[0]) + EncodeAll(ps[1..])
  }

  // ---- decoding ----

  datatype Header = Header(msgId: nat, flags: nat, length: nat) | BadHeader

  /** A header is refused for a wrong magic number, message id zero or a body that is too long. */
  function ParseHead(s: seq<Byte>): Header
    requires |s| == HEAD_LEN
  {
    var msgId, length := GetShort(s[2..4]), GetLong(s[6..10]);
    if GetShort(s[..2]) != MAGIC || msgId == 0 || length > MAX_BODY then BadHeader
    else Header(msgId, GetShort(s[4..6]), length)
  }

  /** What reading from a stream comes to: a packet and what is left, not enough yet, or a closed link. */
  datatype Read = Got(packet: Packet, rest: seq<Byte>) | NeedMore | Broken

  function Decode(s: seq<Byte>): Read {
    if |s| < HEAD_LEN then NeedMore
    else
      match ParseHead(s[..HEAD_LEN])
      case BadHeader => Broken
      case Header(msgId, flags, length) =>
        if |s| < HEAD_LEN + length then NeedMore
        else Got(Packet(msgId, flags, s[HEAD_LEN..HEAD_LEN + length]), s[HEAD_LEN + length..])
  }

  /** All packets that can be read, and how it ends. */
  function DecodeAll(s: seq<Byte>): (seq<Packet>, Read)
    ensures !DecodeAll(s).1.Got?
    decreases |s|
  {
    match Decode(s)
    case Got(p, rest) =>
      var (ps, end) := DecodeAll(rest);
      ([p] + ps, end)
    case end => ([], end)
  }

  // ---- the two are inverse ----

  lemma HeadParses(p: Packet)
    requires p.Sendable()
    ensures ParseHead(Head(p)) == Header(p.msgId, p.flags, |p.body|)
  {
    var h := Head(p);
    assert h[..2] == PutShort(MAGIC) && h[2..4] == PutShort(p.msgId) && h[4..6] == PutShort(p.flags);
    assert h[6..10] == PutLong(|p.body|);
    ShortRoundTrip(MAGIC, h[..2]);
    ShortRoundTrip(p.msgId, h[..2]);
    ShortRoundTrip(p.flags, h[..2]);
    LongRoundTrip(|p.body|, h[6..10]);
  }

  lemma DecodeEncode(p: Packet, rest: seq<Byte>)
    requires p.Sendable()
    ensures Decode(Encode(p) + rest) == Got(p, rest)
  {
    hide ParseHead, Head;
    HeadParses(p);
    var s := Encode(p) + rest;
    assert s[..HEAD_LEN] == Head(p);
    assert s[HEAD_LEN..HEAD_LEN + |p.body|] == p.body;
    assert s[HEAD_LEN + |p.body|..] == rest;
  }

  lemma HeadUnparses(s: seq<Byte>)
    requires |s| == HEAD_LEN && ParseHead(s).Header?
    ensures var h := ParseHead(s);
            && 0 < h.msgId < 0x1_0000 && h.flags < 0x1_0000 && h.length <= MAX_BODY
            && PutShort(MAGIC) + PutShort(h.msgId) + PutShort(h.flags) + PutLong(h.length) == s
  {
    ShortRoundTrip(0, s[..2]);
    ShortRoundTrip(0, s[2..4]);
    ShortRoundTrip(0, s[4..6]);
    LongRoundTrip(0, s[6..10]);
    assert s == s[..2] + s[2..4] + s[4..6] + s[6..10];
  }

  /** Whatever is read was written by the encoder: nothing else decodes to this packet. */
  lemma EncodeDecode(s: seq<Byte>)
    requires Decode(s).Got?
    ensures Decode(s).packet.Sendable() && s == Encode(Decode(s).packet) + Decode(s).rest
  {
    HeadUnparses(s[..HEAD_LEN]);
    hide ParseHead, PutShort, PutLong;
    var h := ParseHead(s[..HEAD_LEN]);
    assert s == s[..HEAD_LEN] + s[HEAD_LEN..HEAD_LEN + h.length] + s[HEAD_LEN + h.length..];
  }

  /** A packet of which a byte is missing is not read, and not taken for a bad one. */
  lemma DecodeTruncated(p: Packet, n: nat)
    requires p.Sendable() && n < |Encode(p)|
    ensures Decode(Encode(p)[..n]) == NeedMore
  {
    hide ParseHead, Head;
    HeadParses(p);
    var s := Encode(p)[..n];
    if n >= HEAD_LEN { assert s[..HEAD_LEN] == Head(p); }
  }

  /** How many whole packets the first n bytes of the stream hold. */
  function Whole(ps: seq<Packet>, n: nat): (k: nat)
    requires forall i | 0 <= i < |ps| :: ps[i].Fits()
    ensures k <= |ps|
  {
    if ps == [] || n < |Encode(ps[0])| then 0 else 1 + Whole(ps[1..], n - |Encode(ps[0])|)
  }

  /** It is the largest number of packets that fit. */
  lemma {:induction false} WholeIsLargest(ps: seq<Packet>, n: nat)
    requires forall i | 0 <= i < |ps| :: ps[i].Fits()
    ensures var k := Whole(ps, n);
            && |EncodeAll(ps[..k])| <= n && (k < |ps| ==> n < |EncodeAll(ps[..k + 1])|)
  {
    if ps != [] {
      var first, k := |Encode(ps[0])|, Whole(ps, n);
      if n >= first {
        WholeIsLargest(ps[1..], n - first);
        assert ps[..k][1..] == ps[1..][..k - 1];
        if k < |ps| { assert ps[..k + 1][1..] == ps[1..][..k]; }
      } else {
        assert ps[..1][1..] == [];
      }
    }
    hide Encode;
  }

  /**
   The stream, cut anywhere: decoding the first n bytes of any sequence of packets gives exactly the
   packets that are complete, in order, and then waits for more. The whole stream gives them all.
   */
  lemma {:induction false} StreamRoundTrip(ps: seq<Packet>, n: nat)
    requires forall i | 0 <= i < |ps| :: ps[i].Fits() && ps[i].Sendable()
    requires n <= |EncodeAll(ps)|
    ensures DecodeAll(EncodeAll(ps)[..n]) == (ps[..Whole(ps, n)], NeedMore)
    ensures n == |EncodeAll(ps)| ==> Whole(ps, n) == |ps|
  {
    hide Decode, Encode;
    if ps == [] {
      DecodeNothing();
    } else {
      var p, all := ps[0], EncodeAll(ps);
      var first := |Encode(p)|;
      if n < first {
        assert all[..n] == Encode(p)[..n];
        DecodeTruncated(p, n);
      } else {
        var rest := EncodeAll(ps[1..])[..n - first];
        assert all[..n] == Encode(p) + rest;
        DecodeEncode(p, rest);
        StreamRoundTrip(ps[1..], n - first);
        var k := Whole(ps, n);
        assert ps[..k] == [p] + ps[1..][..k - 1];
      }
    }
  }

  lemma DecodeNothing()
    ensures DecodeAll([]) == ([], NeedMore)
  {}

  // ---- taking a built packet apart ----

  /** The body of a packet that carries a header; other data as it is. */
  function Payload(s: seq<Byte>): seq<Byte> {
    if |s| >= HEAD_LEN && GetShort(s[..2]) == MAGIC then s[HEAD_LEN..] else s
  }

  lemma PayloadOfEncoded(p: Packet)
    requires p.Fits()
    ensures Payload(Encode(p)) == p.body
  {
    var s := Encode(p);
    assert s[..2] == PutShort(MAGIC);
    ShortRoundTrip(MAGIC, s[..2]);
    assert s[HEAD_LEN..] == p.body;
  }

  // ---- the buffers ----

  /** An outgoing packet, laid out in a byte buffer field by field. */
  class SendNode {
    const data: array<Byte>
    const msgId: nat
    const flags: nat

    constructor (msg: seq<Byte>, msgId: nat, flags: nat)
      requires Packet(msgId, flags, msg).Fits()
      ensures fresh(data) && data[..] == Encode(Packet(msgId, flags, msg))
      ensures this.msgId == msgId && this.flags == flags
    {
      this.msgId, this.flags := msgId, flags;
      data := new Byte[|msg| + HEAD_LEN](_ => 0);
      new;
      hide PutShort, PutLong;
      Place(data, MAGIC_OFFSET, PutShort(MAGIC));
      Place(data, ID_OFFSET, PutShort(msgId));
      assert data[..4] == data[..2] + data[2..4];
      Place(data, FLAGS_OFFSET, PutShort(flags));
      assert data[..6] == data[..4] + data[4..6];
      Place(data, LENGTH_OFFSET, PutLong(|msg|));
      assert data[..10] == data[..6] + data[6..10];
      if |msg| > 0 {
        Place(data, HEAD_LEN, msg);
      }
      assert data[..] == data[..10] + data[10..];
    }

    method ExtractPayload() returns (body: seq<Byte>)
      ensures body == Payload(data[..])
    {
      if data.Length >= HEAD_LEN {
        var high: nat := data[0];
        var magic := high * 256 + data[1];
        assert data[..][..2] == [data[0], data[1]];
        if magic == MAGIC {
          return data[HEAD_LEN..];
        }
      }
      body := data[..];
    }
  }

  /** Copy bytes into a buffer at an offset. */
  method Place(data: array<Byte>, at: nat, bytes: seq<Byte>)
    requires at + |bytes| <= data.Length
    modifies data
    ensures data[at..at + |bytes|] == bytes
    ensures data[..at] == old(data[..at]) && data[at + |bytes|..] == old(data[at + |bytes|..])
  {
    for i := 0 to |bytes|
      invariant forall j | 0 <= j < i :: data[at + j] == bytes[j]
      invariant forall j | 0 <= j < data.Length && !(at <= j < at + i) :: data[j] == old(data[j])
    {
      data[at + i] := bytes[i];
    }
  }

  /** The reading end of a link: a buffer that each header and each body is read into. */
  class PacketReader {
    const buffer: array<Byte>
    var closed: bool

    ghost predicate Valid()
      reads this
    {
      buffer.Length == MAX_BODY
    }

    constructor ()
      ensures Valid() && !closed && fresh(buffer)
    {
      buffer := new Byte[MAX_BODY](_ => 0);
      closed := false;
    }

    /** Read and check a header; a bad one closes the link. */
    method ReadHead(stream: seq<Byte>) returns (header: Header)
      requires Valid() && !closed && |stream| >= HEAD_LEN
      modifies this`closed, buffer
      ensures Valid() && header == ParseHead(stream[..HEAD_LEN]) && closed == header.BadHeader?
    {
      Place(buffer, 0, stream[..HEAD_LEN]);
      var magic := GetShort(buffer[MAGIC_OFFSET..ID_OFFSET]);
      var msgId := GetShort(buffer[ID_OFFSET..FLAGS_OFFSET]);
      var flags := GetShort(buffer[FLAGS_OFFSET..LENGTH_OFFSET]);
      var length := GetLong(buffer[LENGTH_OFFSET..HEAD_LEN]);
      SlicesOf(buffer, stream[..HEAD_LEN]);
      if magic != MAGIC || msgId == 0 || length > MAX_BODY {
        closed := true;
        return BadHeader;
      }
      header := Header(msgId, flags, length);
    }

    method ReadData(stream: seq<Byte>, length: nat) returns (body: seq<Byte>)
      requires Valid() && length <= |stream| && length <= MAX_BODY
      modifies buffer
      ensures body == stream[..length]
    {
      if length == 0 {
        return [];
      }
      Place(buffer, 0, stream[..length]);
      body := buffer[..length];
    }

    /**
     The read loop on the bytes that have arrived: the packets passed on. When the stream has ended, or
     reading fails, the next read closes the link.
     */
    method HandleRead(stream: seq<Byte>, ended: bool) returns (packets: seq<Packet>)
      requires Valid() && !closed
      modifies this`closed, buffer
      ensures Valid() && packets == DecodeAll(stream).0 && closed == (ended || DecodeAll(stream).1.Broken?)
    {
      hide ParseHead;
      var rest := stream;
      packets := [];
      assert packets + DecodeAll(rest).0 == DecodeAll(rest).0;
      while !closed && |rest| >= HEAD_LEN
        invariant Valid()
        invariant !closed ==>
                    DecodeAll(stream).0 == packets + DecodeAll(rest).0 && DecodeAll(stream).1 == DecodeAll(rest).1
        invariant closed ==> DecodeAll(stream) == (packets, Broken)
        decreases |rest|, !closed
      {
        var header := ReadHead(rest);
        if header.BadHeader? {
          assert packets + [] == packets;
        } else {
          HeadUnparses(rest[..HEAD_LEN]);
          if |rest| < HEAD_LEN + header.length {
            assert packets + [] == packets;
            closed := ended;
            return;
          }
          var body := ReadData(rest[HEAD_LEN..], header.length);
          assert body == rest[HEAD_LEN..HEAD_LEN + header.length];
          var p, left := Packet(header.msgId, header.flags, body), rest[HEAD_LEN + header.length..];
          assert packets + ([p] + DecodeAll(left).0) == packets + [p] + DecodeAll(left).0;
          packets, rest := packets + [p], left;
        }
      }
      assert !closed ==> packets + [] == packets;
      closed := closed || ended;
    }
  }

  lemma SlicesOf(buffer: array<Byte>, s: seq<Byte>)
    requires |s| == HEAD_LEN <= buffer.Length && buffer[..HEAD_LEN] == s
    ensures buffer[0..2] == s[..2] && buffer[2..4] == s[2..4] && buffer[4..6] == s[4..6] && buffer[6..10] == s[6..10]
  {
    assert buffer[..HEAD_LEN][..2] == buffer[0..2] && buffer[..HEAD_LEN][2..4] == buffer[2..4];
    assert buffer[..HEAD_LEN][4..6] == buffer[4..6] && buffer[..HEAD_LEN][6..10] == buffer[6..10];
  }
}
