/** RTP packets: the packet on the wire (section 5.1 of RFC 3550), the sender's mutable packet
    buffer, and the act of sending one packet over an interleaved TCP connection or over UDP. */
module Rtp {
  import opened Bytes
  import Interleaved

  const RTP_HEADER_SIZE := 12
  const PTK_RTP_TCP_MAX := 1400
  const PAYLOAD_CAPACITY := 4 * 1024 * 1024 - RTP_HEADER_SIZE
  const RTP_VERSION := 2
  const RTP_PAYLOAD_TYPE_H26X: PayloadType := 96
  const RTP_PAYLOAD_TYPE_AAC: PayloadType := 97
  const RTP_PAYLOAD_TYPE_PCMA: PayloadType := 8
  const SSRC: u32 := 0x8892_3423

  type PayloadType = x: int | 0 <= x < 128

  datatype Packet = Packet(marker: bool, payloadType: PayloadType, seqNo: u16, timestamp: u32, ssrc: u32,
                           payload: seq<byte>)

  function Wire(p: Packet): seq<byte> {
    [RTP_VERSION * 64, (if p.marker then 128 else 0) + p.payloadType]
    + Be16(p.seqNo) + Be32(p.timestamp) + Be32(p.ssrc) + p.payload
  }

  function FromBe32(b: seq<byte>): u32
    requires |b| == 4
  {
    FromBe16(b[0], b[1]) * 0x1_0000 + FromBe16(b[2], b[3])
  }

  /** A receiver that understands version 2 without padding, extension or contributing sources. */
  function Parse(w: seq<byte>): Option<Packet> {
    if |w| < RTP_HEADER_SIZE || w[0] != RTP_VERSION * 64 then None
    else Some(Packet(w[1] >= 128, w[1] % 128, FromBe16(w[2], w[3]), FromBe32(w[4..8]), FromBe32(w[8..12]),
                     w[12..]))
  }

  lemma FromBe32Inverts(x: u32)
    ensures FromBe32(Be32(x)) == x
  {
  }

  lemma MarkerAndType(marker: bool, payloadType: PayloadType)
    ensures var b := (if marker then 128 else 0) + payloadType; (b >= 128 <==> marker) && b % 128 == payloadType
  {
  }

  lemma ParseInvertsWire(p: Packet)
    ensures Parse(Wire(p)) == Some(p)
    ensures |Wire(p)| == RTP_HEADER_SIZE + |p.payload|
  {
    hide Be16, Be32, FromBe16, FromBe32;
    var w := Wire(p);
    MarkerAndType(p.marker, p.payloadType);
    FromBe16Inverts(p.seqNo);
    assert w[2..4] == Be16(p.seqNo);
    FromBe32Inverts(p.timestamp);
    FromBe32Inverts(p.ssrc);
    assert w[4..8] == Be32(p.timestamp);
    assert w[8..12] == Be32(p.ssrc);
    assert w[12..] == p.payload;
  }

  /** The packet on the wire, byte by byte: version 2 with nothing optional, marker and type, then the numbers with
      their most significant byte first, then the payload. */
  lemma WireImage(p: Packet)
    ensures var w := Wire(p);
            && |w| == 12 + |p.payload| && w[12..] == p.payload
            && w[0] == 0x80
            && w[1] == p.payloadType + (if p.marker then 0x80 else 0)
            && BigEndian(w[2..4]) == p.seqNo && BigEndian(w[4..8]) == p.timestamp && BigEndian(w[8..12]) == p.ssrc
  {
    hide BigEndian, Be16, Be32;
    var w := Wire(p);
    assert w[2..4] == Be16(p.seqNo) && w[4..8] == Be32(p.timestamp) && w[8..12] == Be32(p.ssrc);
    assert w[12..] == p.payload;
    BigEndian16(p.seqNo);
    BigEndian32(p.timestamp);
    BigEndian32(p.ssrc);
  }

  /** The number that some bytes stand for, the most significant first. */
  function BigEndian(b: seq<byte>): nat {
    if b == [] then 0 else BigEndian(b[..|b| - 1]) * 0x100 + b[|b| - 1]
  }

  lemma BigEndian16(x: u16)
    ensures BigEndian(Be16(x)) == x
  {
    var hi := Be16(x)[..1];
    assert BigEndian(hi) == BigEndian(hi[..0]) * 0x100 + hi[0];
  }

  lemma BigEndian32(x: u32)
    ensures BigEndian(Be32(x)) == x
  {
    var b := Be32(x);
    var first := b[..2];
    assert first == Be16(x / 0x1_0000) && b[2] == Be16(x % 0x1_0000)[0] && b[3] == Be16(x % 0x1_0000)[1];
    BigEndian16(x / 0x1_0000);
    assert b[..3][..2] == first;
    assert BigEndian(b[..3]) == BigEndian(first) * 0x100 + b[2];
  }

  /** Which socket a packet leaves by. */
  datatype Route = Tcp(channel: byte) | Udp | NoRoute

  /** An interleaved header and a channel make it TCP; otherwise a client address and port make it UDP. */
  function RouteOf(hasTcpHeader: bool, sig: int, hasClientIp: bool, clientPort: int): Route {
    if hasTcpHeader && sig != -1 then Tcp(sig % 256)
    else if clientPort != -1 && hasClientIp then Udp
    else NoRoute
  }

  /** The socket writes that carry one packet. */
  function Writes(route: Route, p: Packet): seq<seq<byte>> {
    match route
    case Tcp(channel) => [Interleaved.Header(channel, |Wire(p)|), Wire(p)]
    case Udp => [Wire(p)]
    case NoRoute => []
  }

  function WritesAll(route: Route, ps: seq<Packet>): seq<seq<byte>> {
    if ps == [] then [] else Writes(route, ps[0]) + WritesAll(route, ps[1..])
  }

  lemma {:induction false} WritesAllAppend(route: Route, a: seq<Packet>, b: seq<Packet>)
    ensures WritesAll(route, a + b) == WritesAll(route, a) + WritesAll(route, b)
  {
    if a == [] {
      assert a + b == b;
    } else {
      assert (a + b)[1..] == a[1..] + b;
      WritesAllAppend(route, a[1..], b);
      Assoc(Writes(route, a[0]), WritesAll(route, a[1..]), WritesAll(route, b));
    }
  }

  lemma WritesAllOne(route: Route, p: Packet)
    ensures WritesAll(route, [p]) == Writes(route, p)
  {
    assert WritesAll(route, [p]) == Writes(route, p) + WritesAll(route, []);
  }

  /** The payload of one packet to be, and its marker bit. */
  datatype Chunk = Chunk(marker: bool, payload: seq<byte>)

  /** The packet in front of which n others have been sent. */
  function After(first: Packet, n: nat): Packet {
    first.(seqNo := (first.seqNo + n) % 0x1_0000)
  }

  lemma AfterSum(first: Packet, m: nat, n: nat)
    ensures After(first, 0) == first
    ensures After(After(first, m), n) == After(first, m + n)
  {
    SumModulo(first.seqNo + m, n);
  }

  lemma SumModulo(a: nat, n: nat)
    ensures (a % 0x1_0000 + n) % 0x1_0000 == (a + n) % 0x1_0000
  {
    var q, r := a / 0x1_0000, a % 0x1_0000;
    var q', r' := (r + n) / 0x1_0000, (r + n) % 0x1_0000;
    assert a + n == 0x1_0000 * (q + q') + r';
  }

  /** Chunks as packets with consecutive sequence numbers and everything else alike. */
  function Packets(chunks: seq<Chunk>, first: Packet): seq<Packet> {
    if chunks == [] then []
    else [first.(marker := chunks[0].marker, payload := chunks[0].payload)] + Packets(chunks[1..], After(first, 1))
  }

  function Payloads(chunks: seq<Chunk>): (r: seq<seq<byte>>)
    ensures |r| == |chunks|
  {
    if chunks == [] then [] else [chunks[0].payload] + Payloads(chunks[1..])
  }

  lemma {:induction false} PacketsAppend(a: seq<Chunk>, b: seq<Chunk>, first: Packet)
    ensures Packets(a + b, first) == Packets(a, first) + Packets(b, After(first, |a|))
    decreases |a|
  {
    hide After;
    if a == [] {
      assert a + b == b;
      AfterSum(first, 0, 0);
    } else {
      assert (a + b)[1..] == a[1..] + b;
      PacketsAppend(a[1..], b, After(first, 1));
      AfterSum(first, 1, |a| - 1);
      Assoc(Packets(a, first)[..1], Packets(a[1..], After(first, 1)), Packets(b, After(first, |a|)));
    }
  }

  lemma {:induction false} PacketNumbers(chunks: seq<Chunk>, first: Packet, i: nat)
    requires i < |chunks|
    ensures |Packets(chunks, first)| == |chunks|
    ensures Packets(chunks, first)[i]
            == After(first, i).(marker := chunks[i].marker, payload := chunks[i].payload)
    decreases |chunks|
  {
    hide After;
    AfterSum(first, 0, 0);
    if i > 0 {
      PacketNumbers(chunks[1..], After(first, 1), i - 1);
      AfterSum(first, 1, i - 1);
    } else if |chunks| > 1 {
      PacketNumbers(chunks[1..], After(first, 1), 0);
    }
  }

  lemma PacketsAllNumbered(chunks: seq<Chunk>, first: Packet)
    ensures var ps := Packets(chunks, first);
            && |ps| == |chunks|
            && forall i :: 0 <= i < |ps| ==> ps[i].seqNo == (first.seqNo + i) % 0x1_0000 && ps[i].ssrc == first.ssrc
  {
    forall i | 0 <= i < |chunks|
      ensures |Packets(chunks, first)| == |chunks|
      ensures var p := Packets(chunks, first)[i]; p.seqNo == (first.seqNo + i) % 0x1_0000 && p.ssrc == first.ssrc
    {
      PacketNumbers(chunks, first, i);
    }
  }

  /** The socket writes that carry the chunks of one unit. */
  function Plan(route: Route, chunks: seq<Chunk>, first: Packet): seq<seq<byte>> {
    WritesAll(route, Packets(chunks, first))
  }

  lemma PlanAppend(route: Route, a: seq<Chunk>, b: seq<Chunk>, first: Packet)
    ensures Plan(route, a + b, first) == Plan(route, a, first) + Plan(route, b, After(first, |a|))
  {
    PacketsAppend(a, b, first);
    WritesAllAppend(route, Packets(a, first), Packets(b, After(first, |a|)));
  }

  lemma PlanOne(route: Route, c: Chunk, first: Packet)
    ensures Plan(route, [c], first) == Writes(route, first.(marker := c.marker, payload := c.payload))
  {
    var p := first.(marker := c.marker, payload := c.payload);
    assert Packets([c], first) == [p] + Packets([], After(first, 1));
    WritesAllOne(route, p);
  }

  function Min(a: int, b: int): int {
    if a < b then a else b
  }

  /** Of the planned writes, as many happened as the peer would take, in order. */
  ghost predicate Wrote(plan: seq<seq<byte>>, sent: seq<seq<byte>>, quota: nat, sent': seq<seq<byte>>, quota': nat) {
    var done := Min(quota, |plan|);
    sent' == sent + plan[..done] && quota' == quota - done
  }

  /** There is a way to send, and the peer takes all of the planned writes. */
  predicate TakesAll(route: Route, plan: seq<seq<byte>>, quota: nat) {
    route != NoRoute && |plan| <= quota
  }

  /** The writes that could happen did, and the sender reports success exactly when that is all of them and there
      was a way to send. */
  ghost predicate Outcome(route: Route, plan: seq<seq<byte>>, sent: seq<seq<byte>>, quota: nat,
                          sent': seq<seq<byte>>, quota': nat, ok: bool)
  {
    Wrote(plan, sent, quota, sent', quota') && (ok <==> TakesAll(route, plan, quota))
  }

  /** A first part went out in full; what the next write does settles the whole, or carries on. */
  lemma OutcomeStep(route: Route, a: seq<seq<byte>>, w: seq<seq<byte>>, b: seq<seq<byte>>,
                    sent: seq<seq<byte>>, quota: nat, sent': seq<seq<byte>>, quota': nat, ok: bool)
    requires |a| <= quota && Outcome(route, w, sent + a, quota - |a|, sent', quota', ok)
    requires w == [] <==> route == NoRoute
    requires route == NoRoute ==> b == []
    ensures ok ==> sent' == sent + (a + w) && quota' == quota - |a + w|
    ensures !ok ==> Outcome(route, a + w + b, sent, quota, sent', quota', false)
  {
    var done := Min(quota - |a|, |w|);
    Assoc(sent, a, w[..done]);
    assert w[..|w|] == w;
    assert (a + w + b)[..|a| + done] == a + w[..done];
  }

  /** All writes for these chunks happened. */
  ghost predicate Sent(route: Route, chunks: seq<Chunk>, first: Packet, sent: seq<seq<byte>>, quota: nat,
                       sent': seq<seq<byte>>, quota': nat)
  {
    var plan := Plan(route, chunks, first);
    |plan| <= quota && sent' == sent + plan && quota' == quota - |plan|
  }

  lemma SentIsOutcome(route: Route, chunks: seq<Chunk>, first: Packet, sent: seq<seq<byte>>, quota: nat,
                      sent': seq<seq<byte>>, quota': nat)
    requires route != NoRoute && Sent(route, chunks, first, sent, quota, sent', quota')
    ensures Outcome(route, Plan(route, chunks, first), sent, quota, sent', quota', true)
  {
    var plan := Plan(route, chunks, first);
    assert plan[..|plan|] == plan;
  }

  /** Sending one more chunk, seen against the plan for all of them. */
  lemma PlanStep(route: Route, before: seq<Chunk>, c: Chunk, behind: seq<Chunk>, first: Packet,
                 sent: seq<seq<byte>>, quota: nat, sent1: seq<seq<byte>>, quota1: nat,
                 sent': seq<seq<byte>>, quota': nat, ok: bool)
    requires Sent(route, before, first, sent, quota, sent1, quota1)
    requires var p := After(first, |before|).(marker := c.marker, payload := c.payload);
             Outcome(route, Writes(route, p), sent1, quota1, sent', quota', ok)
    ensures ok ==> route != NoRoute && Sent(route, before + [c], first, sent, quota, sent', quota')
    ensures !ok ==> Outcome(route, Plan(route, before + ([c] + behind), first), sent, quota, sent', quota', false)
  {
    var next := After(first, |before|);
    PlanOne(route, c, next);
    PlanAppend(route, before, [c], first);
    PlanAppend(route, before + [c], behind, first);
    Assoc(before, [c], behind);
    if route == NoRoute {
      PlanNoRoute(behind, After(first, |before| + 1));
    }
    OutcomeStep(route, Plan(route, before, first), Plan(route, [c], next), Plan(route, behind, After(first, |before| + 1)),
                sent, quota, sent', quota', ok);
  }

  lemma {:induction false} PlanNoRoute(chunks: seq<Chunk>, first: Packet)
    ensures Plan(NoRoute, chunks, first) == []
    decreases |chunks|
  {
    if chunks != [] {
      PlanNoRoute(chunks[1..], After(first, 1));
      PlanOne(NoRoute, chunks[0], first);
      PlanAppend(NoRoute, chunks[..1], chunks[1..], first);
      assert chunks[..1] + chunks[1..] == chunks;
    }
  }

  /** A socket: the byte strings handed over by the writes that succeeded, and how many more
      writes the peer will take before every further one fails. */
  class Socket {
    var sent: seq<seq<byte>>
    var quota: nat

    constructor (quota: nat)
      ensures sent == [] && this.quota == quota
    {
      this.sent, this.quota := [], quota;
    }

    /** `send` and `sendto`: all bytes or none. */
    method Send(data: seq<byte>) returns (ret: int)
      requires data != []
      modifies this
      ensures old(quota) == 0 ==> ret == -1 && sent == old(sent) && quota == 0
      ensures old(quota) > 0 ==> ret == |data| && sent == old(sent) + [data] && quota == old(quota) - 1
    {
      if quota == 0 {
        return -1;
      }
      sent, quota := sent + [data], quota - 1;
      return |data|;
    }
  }

  /** The four bytes in front of each packet on a TCP connection. */
  class TcpHeader {
    var magic: byte
    var channel: byte
    var rtpLen16: u16

    constructor ()
    {
      magic, channel, rtpLen16 := 0, 0, 0;
    }

    ghost function Memory(): seq<byte>
      reads this
    {
      [magic, channel] + Memory16(rtpLen16)
    }

    /** Fills in the header for a packet of the given length and writes it out. */
    method SendFor(sock: Socket, channel: byte, length: nat) returns (ret: int)
      modifies this, sock
      ensures old(sock.quota) == 0 ==> ret <= 0 && sock.sent == old(sock.sent) && sock.quota == 0
      ensures old(sock.quota) > 0 ==> && ret > 0
                                      && sock.sent == old(sock.sent) + [Interleaved.Header(channel, length)]
                                      && sock.quota == old(sock.quota) - 1
    {
      magic := Interleaved.MAGIC;
      rtpLen16 := length % 0x1_0000;
      Swap16Twice(rtpLen16);
      rtpLen16 := Swap16(rtpLen16);
      this.channel := channel;
      assert Memory() == Interleaved.Header(channel, length);
      ret := sock.Send([magic, this.channel] + Memory16(rtpLen16));
      rtpLen16 := Swap16(rtpLen16);
    }
  }

  /** The sender's packet buffer. The three numbers are kept in host order between packets and
      turned into network order in place for the duration of a write. */
  class RtpPacket {
    var marker: bool
    const payloadType: PayloadType
    var seqNo: u16
    var timestamp: u32
    var ssrc: u32
    const payload: array<byte>

    ghost predicate Valid() {
      payload.Length == PAYLOAD_CAPACITY
    }

    constructor (payloadType: PayloadType)
      ensures Valid() && fresh(payload)
      ensures this.payloadType == payloadType && seqNo == 0 && ssrc == SSRC
    {
      this.payloadType := payloadType;
      marker, seqNo, timestamp, ssrc := false, 0, 0, SSRC;
      payload := new byte[PAYLOAD_CAPACITY];
    }

    /** The packet a receiver should see, while the fields are in host order. */
    ghost function Content(n: nat): Packet
      requires Valid() && n <= PAYLOAD_CAPACITY
      reads this, payload
    {
      Packet(marker, payloadType, seqNo, timestamp, ssrc, payload[..n])
    }

    method SwapOrder()
      modifies this`seqNo, this`timestamp, this`ssrc
      ensures seqNo == Swap16(old(seqNo)) && timestamp == Swap32(old(timestamp)) && ssrc == Swap32(old(ssrc))
    {
      seqNo, timestamp, ssrc := Swap16(seqNo), Swap32(timestamp), Swap32(ssrc);
    }

    /** `memcpy(payload + at, data, |data|)` */
    method Store(at: nat, data: seq<byte>)
      requires Valid() && at + |data| <= PAYLOAD_CAPACITY
      modifies payload
      ensures payload[at..at + |data|] == data
      ensures payload[..at] == old(payload[..at])
    {
      forall k | 0 <= k < |data| {
        payload[at + k] := data[k];
      }
    }

    /** Writes the packet itself, in network order, and returns the fields to host order with the
        next sequence number when the write succeeded. */
    method WriteTo(sock: Socket, n: nat) returns (ret: int)
      requires Valid() && n <= PAYLOAD_CAPACITY
      modifies this`seqNo, this`timestamp, this`ssrc, sock
      ensures old(sock.quota) == 0 ==> && ret <= 0 && sock.sent == old(sock.sent) && sock.quota == 0
                                       && seqNo == Swap16(old(seqNo)) && ssrc == Swap32(old(ssrc))
      ensures old(sock.quota) > 0 ==> && ret == RTP_HEADER_SIZE + n
                                      && sock.sent == old(sock.sent) + [Wire(old(Content(n)))]
                                      && sock.quota == old(sock.quota) - 1
                                      && seqNo == (old(seqNo) + 1) % 0x1_0000
                                      && timestamp == old(timestamp) && ssrc == old(ssrc)
    {
      ghost var p := Content(n);
      ParseInvertsWire(p);
      Swap16Twice(seqNo);
      Swap32Twice(timestamp);
      Swap32Twice(ssrc);
      SwapOrder();
      var image := [RTP_VERSION * 64, (if marker then 128 else 0) + payloadType]
                   + Memory16(seqNo) + Memory32(timestamp) + Memory32(ssrc) + payload[..n];
      assert image == Wire(p);
      ret := sock.Send(image);
      if ret > 0 {
        SwapOrder();
        seqNo := (seqNo + 1) % 0x1_0000;
      }
    }

    /** Sends one packet with n bytes of payload: the interleaved header if the route is TCP, then
        the packet. A write that fails leaves the fields in whatever order they are in. */
    method SendTo(sock: Socket, tcp: TcpHeader, route: Route, n: nat) returns (ret: int)
      requires Valid() && n <= PAYLOAD_CAPACITY
      modifies this`seqNo, this`timestamp, this`ssrc, sock, tcp
      ensures Outcome(route, Writes(route, old(Content(n))), old(sock.sent), old(sock.quota), sock.sent, sock.quota, ret > 0)
      ensures ret > 0 ==> && ret == RTP_HEADER_SIZE + n
                          && seqNo == (old(seqNo) + 1) % 0x1_0000
                          && timestamp == old(timestamp) && ssrc == old(ssrc)
      ensures ret <= 0 ==> || (seqNo == old(seqNo) && ssrc == old(ssrc))
                           || (seqNo == Swap16(old(seqNo)) && ssrc == Swap32(old(ssrc)))
    {
      ghost var p := Content(n);
      ParseInvertsWire(p);
      match route {
        case NoRoute =>
          SwapOrder();
          ret := -1;
        case Udp =>
          ret := WriteTo(sock, n);
        case Tcp(channel) =>
          ret := tcp.SendFor(sock, channel, RTP_HEADER_SIZE + n);
          if ret > 0 {
            ret := WriteTo(sock, n);
          }
      }
    }

    /** Puts a payload made of two parts into the buffer and sends it. */
    method SendPayload(sock: Socket, tcp: TcpHeader, route: Route, head: seq<byte>, bytes: seq<byte>) returns (ret: int)
      requires Valid() && |head| + |bytes| <= PAYLOAD_CAPACITY
      modifies this`seqNo, this`timestamp, this`ssrc, payload, sock, tcp
      ensures Outcome(route, Writes(route, Packet(marker, payloadType, old(seqNo), old(timestamp), old(ssrc), head + bytes)),
                      old(sock.sent), old(sock.quota), sock.sent, sock.quota, ret > 0)
      ensures ret > 0 ==> && ret == RTP_HEADER_SIZE + |head| + |bytes|
                          && seqNo == (old(seqNo) + 1) % 0x1_0000
                          && timestamp == old(timestamp) && ssrc == old(ssrc)
      ensures ret <= 0 ==> || (seqNo == old(seqNo) && ssrc == old(ssrc))
                           || (seqNo == Swap16(old(seqNo)) && ssrc == Swap32(old(ssrc)))
    {
      Store(0, head);
      Store(|head|, bytes);
      assert payload[..|head| + |bytes|] == head + bytes;
      ret := SendTo(sock, tcp, route, |head| + |bytes|);
    }

    /** Sends the chunk that follows those in `before`; the ghost arguments say where the sending of
        the whole unit began and what would come behind this chunk. */
    method SendChunk(sock: Socket, tcp: TcpHeader, route: Route, head: seq<byte>, bytes: seq<byte>, ghost c: Chunk,
                     ghost before: seq<Chunk>, ghost behind: seq<Chunk>, ghost first: Packet,
                     ghost sent: seq<seq<byte>>, ghost quota: nat) returns (ret: int)
      requires Valid() && |head| + |bytes| <= PAYLOAD_CAPACITY
      requires c == Chunk(marker, head + bytes)
      requires After(first, |before|).(marker := c.marker, payload := c.payload)
               == Packet(marker, payloadType, seqNo, timestamp, ssrc, head + bytes)
      requires Sent(route, before, first, sent, quota, sock.sent, sock.quota)
      modifies this`seqNo, this`timestamp, this`ssrc, payload, sock, tcp
      ensures ret > 0 ==> && route != NoRoute
                          && Sent(route, before + [c], first, sent, quota, sock.sent, sock.quota)
                          && seqNo == (old(seqNo) + 1) % 0x1_0000
                          && timestamp == old(timestamp) && ssrc == old(ssrc)
      ensures ret <= 0 ==> Outcome(route, Plan(route, before + ([c] + behind), first),
                                   sent, quota, sock.sent, sock.quota, false)
    {
      ghost var sent1, quota1 := sock.sent, sock.quota;
      ret := SendPayload(sock, tcp, route, head, bytes);
      PlanStep(route, before, c, behind, first, sent, quota, sent1, quota1, sock.sent, sock.quota, ret > 0);
    }
  }
}
