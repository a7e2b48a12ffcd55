/** `rtpSendAACFrame` and `rtpSendPCMAFrame`: one packet per audio frame. AAC frames travel behind an
    AU-header section (AAC-hbr, section 3.3.6 of RFC 3640), PCMA frames as they are. */
module AudioSender {
  import opened Bytes
  import opened Bits
  import opened Rtp

  lemma AuSizeBits(size: nat)
    ensures BitAnd(size, 0x1FE0) / 32 == size / 32 % 256
    ensures BitAnd(size, 0x1F) == size % 32
  {
    hide BitAnd, BitOr;
    Masks32(size / 32, size % 32, 0xFF);
    Powers();
    AndLow(size / 32 / 256, size / 32 % 256, 8);
  }

  /** AU-headers-length of 16 bits, then 13 bits of size and 3 bits of index. */
  function AacPayload(data: seq<byte>): seq<byte> {
    AuSizeBits(|data|);
    [0x00, 0x10, BitAnd(|data|, 0x1FE0) / 32, BitAnd(|data|, 0x1F) * 8] + data
  }

  function AuSize(hi: int, lo: int): int {
    hi * 32 + lo / 8
  }

  /** A receiver of AAC-hbr that expects one access unit with index 0 in each packet. */
  function AacUnit(payload: seq<byte>): Option<seq<byte>> {
    if |payload| < 4 || payload[0] != 0 || payload[1] != 16 || payload[3] % 8 != 0 then None
    else if AuSize(payload[2], payload[3]) == |payload| - 4 then Some(payload[4..])
    else None
  }

  lemma AuSizeIs(size: nat)
    ensures size / 32 % 256 * 32 + size % 32 == size % 0x2000
  {
  }

  /** The size field has 13 bits: a frame arrives exactly when it is shorter than 8192 bytes. */
  lemma AacRoundTrip(data: seq<byte>)
    ensures AacUnit(AacPayload(data)) == Some(data) <==> |data| < 0x2000
  {
    hide BitAnd;
    AuSizeBits(|data|);
    var payload := AacPayload(data);
    assert payload[4..] == data;
    assert AuSize(payload[2], payload[3]) == |data| / 32 % 256 * 32 + |data| % 32;
    AuSizeIs(|data|);
  }

  /** What a call of an audio sender does. Over UDP the source adds a variable that it never set to the count it
      returns, so what a caller sees of a success there may have any sign. */
  ghost predicate AudioOutcome(route: Route, plan: seq<seq<byte>>, sent: seq<seq<byte>>, quota: nat,
                               sent': seq<seq<byte>>, quota': nat, ret: int)
  {
    && Wrote(plan, sent, quota, sent', quota')
    && (!TakesAll(route, plan, quota) ==> ret == -1)
    && (TakesAll(route, plan, quota) && route.Tcp? ==> ret > 0)
  }

  method RtpSendAACFrame(sock: Socket, tcp: TcpHeader, rtp: RtpPacket, data: seq<byte>, timestamp: u32, route: Route)
    returns (ret: int)
    requires rtp.Valid() && 4 + |data| <= PAYLOAD_CAPACITY
    modifies rtp, rtp.payload, sock, tcp
    ensures var first := Packet(true, rtp.payloadType, old(rtp.seqNo), timestamp, old(rtp.ssrc), []);
            var plan := Plan(route, [Chunk(true, AacPayload(data))], first);
            && AudioOutcome(route, plan, old(sock.sent), old(sock.quota), sock.sent, sock.quota, ret)
            && (TakesAll(route, plan, old(sock.quota)) ==>
                  rtp.seqNo == After(first, 1).seqNo && rtp.ssrc == old(rtp.ssrc))
  {
    ghost var first := Packet(true, rtp.payloadType, rtp.seqNo, timestamp, rtp.ssrc, []);
    PlanOne(route, Chunk(true, AacPayload(data)), first);
    if route == NoRoute {
      return -1;
    }
    rtp.timestamp := timestamp;
    rtp.marker := true;
    var size := |data|;
    AuSizeBits(size);
    ret := rtp.SendPayload(sock, tcp, route, [0x00, 0x10, BitAnd(size, 0x1FE0) / 32, BitAnd(size, 0x1F) * 8], data);
    ret := SendBytes(route, ret);
  }

  /** The count that is returned: the interleaved header's four bytes, or the unset variable, and the packet's. */
  method SendBytes(route: Route, ret: int) returns (sendBytes: int)
    ensures ret <= 0 ==> sendBytes == -1
    ensures ret > 0 && route.Tcp? ==> sendBytes == 4 + ret
  {
    if ret <= 0 {
      return -1;
    }
    if route.Tcp? {
      sendBytes := 4;
    } else {
      sendBytes := *;
    }
    sendBytes := sendBytes + ret;
  }

  method RtpSendPCMAFrame(sock: Socket, tcp: TcpHeader, rtp: RtpPacket, data: seq<byte>, timestamp: u32, route: Route)
    returns (ret: int)
    requires rtp.Valid() && |data| <= PAYLOAD_CAPACITY
    modifies rtp, rtp.payload, sock, tcp
    ensures var first := Packet(true, rtp.payloadType, old(rtp.seqNo), timestamp, old(rtp.ssrc), []);
            var plan := Plan(route, [Chunk(true, data)], first);
            && AudioOutcome(route, plan, old(sock.sent), old(sock.quota), sock.sent, sock.quota, ret)
            && (TakesAll(route, plan, old(sock.quota)) ==>
                  rtp.seqNo == After(first, 1).seqNo && rtp.ssrc == old(rtp.ssrc))
  {
    ghost var first := Packet(true, rtp.payloadType, rtp.seqNo, timestamp, rtp.ssrc, []);
    PlanOne(route, Chunk(true, data), first);
    if route == NoRoute {
      return -1;
    }
    rtp.timestamp := timestamp;
    rtp.marker := true;
    assert [] + data == data;
    ret := rtp.SendPayload(sock, tcp, route, [], data);
    ret := SendBytes(route, ret);
  }
}
