/** `rtpSendH265Frame`: single NAL unit packets and fragmentation units. */
module H265Sender {
  import opened Bytes
  import opened Bits
  import opened Rtp
  import opened NalUnits
  import opened FragmentSender

  /** The first `frameSize` bytes of the buffer are the unit; `timestamp` is the clock reading. */
  method RtpSendH265Frame(sock: Socket, tcp: TcpHeader, rtp: RtpPacket, frame: seq<byte>, frameSize: nat,
                          timestamp: u32, route: Route) returns (ret: int)
    requires rtp.Valid() && 0 < frameSize && Carried(H265, frameSize) <= |frame|
    modifies rtp, rtp.payload, sock, tcp
    ensures var first := Packet(true, rtp.payloadType, old(rtp.seqNo), timestamp, old(rtp.ssrc), []);
            var chunks := Chunks(H265, frame, frameSize);
            && Outcome(route, Plan(route, chunks, first), old(sock.sent), old(sock.quota), sock.sent, sock.quota, ret > 0)
            && (ret > 0 ==> rtp.seqNo == After(first, |chunks|).seqNo && rtp.ssrc == old(rtp.ssrc))
  {
    rtp.marker := false;
    rtp.timestamp := timestamp;
    if frameSize <= PTK_RTP_TCP_MAX {
      rtp.marker := true;
      ghost var first := Packet(true, rtp.payloadType, rtp.seqNo, timestamp, rtp.ssrc, []);
      PlanOne(route, Chunk(true, frame[..frameSize]), first);
      assert [] + frame[..frameSize] == frame[..frameSize];
      ret := rtp.SendPayload(sock, tcp, route, [], frame[..frameSize]);
    } else {
      ret := SendFu(sock, tcp, rtp, frame, frameSize, route);
    }
  }

  /** The FU header byte as the sender computes it. */
  lemma FuHead(nal: seq<byte>)
    requires |nal| >= 2
    ensures var kind := BitAnd(nal[0], 0x7E) / 2;
            && FuPrefix(H265, nal) == [BitOr(BitAnd(nal[0], 0x81), FU * 2), nal[1]]
            && NalType(H265, nal) == kind
            && kind == FuHeader(kind, false, false)
            && BitOr(kind, 0x80) == FuHeader(kind, true, false)
            && BitOr(kind, 0x40) == FuHeader(kind, false, true)
  {
    FlagBits(NalType(H265, nal));
  }

  method SendFu(sock: Socket, tcp: TcpHeader, rtp: RtpPacket, frame: seq<byte>, frameSize: nat, route: Route)
    returns (ret: int)
    requires rtp.Valid() && PTK_RTP_TCP_MAX < frameSize && Carried(H265, frameSize) <= |frame|
    modifies rtp, rtp.payload, sock, tcp
    ensures var first := Packet(true, rtp.payloadType, old(rtp.seqNo), old(rtp.timestamp), old(rtp.ssrc), []);
            var chunks := Chunks(H265, frame, frameSize);
            && Outcome(route, Plan(route, chunks, first), old(sock.sent), old(sock.quota), sock.sent, sock.quota, ret > 0)
            && (ret > 0 ==> rtp.seqNo == After(first, |chunks|).seqNo && rtp.ssrc == old(rtp.ssrc))
  {
    hide Pending, Sent, Outcome, Plan, BitAnd, BitOr, FuPrefix, NalType, Chunks, FuChunks;
    var naluType := BitAnd(frame[0], 0x7E) / 2;
    var pktNum := frameSize / PTK_RTP_TCP_MAX;
    var remainPktSize := frameSize % PTK_RTP_TCP_MAX;
    var sendBytes, pos, i := 0, 2, 0;
    var payload0, payload1 := BitOr(BitAnd(frame[0], 0x81), FU * 2), frame[1];
    ghost var first := Packet(true, rtp.payloadType, rtp.seqNo, rtp.timestamp, rtp.ssrc, []);
    ghost var sent, quota := sock.sent, sock.quota;
    ghost var before: seq<Chunk> := [];
    FuHead(frame);
    NothingSent(H265, frame, frameSize, route, first, sent, quota);
    while i < pktNum
      invariant 0 <= i <= pktNum && pos == 2 + i * PTK_RTP_TCP_MAX
      invariant |before| == i && Pending(H265, frame, frameSize, before, pos)
      invariant Sent(route, before, first, sent, quota, sock.sent, sock.quota)
      invariant rtp.seqNo == After(first, i).seqNo && rtp.ssrc == first.ssrc && rtp.timestamp == first.timestamp
      invariant i > 0 ==> sendBytes > 0 && route != NoRoute
    {
      rtp.marker := false;
      var fuHeader := naluType;
      if i == 0 {
        fuHeader := BitOr(fuHeader, 0x80);
      } else if remainPktSize == 0 && i == pktNum - 1 {
        fuHeader := BitOr(fuHeader, 0x40);
        rtp.marker := true;
      }
      ret, before := SendFragment(sock, tcp, rtp, route, H265, frame, frameSize, pos, PTK_RTP_TCP_MAX,
                                  [payload0, payload1, fuHeader], before, first, sent, quota);
      if ret <= 0 {
        return -1;
      }
      sendBytes := sendBytes + ret;
      pos := pos + PTK_RTP_TCP_MAX;
      i := i + 1;
    }
    if remainPktSize > 0 {
      rtp.marker := true;
      var fuHeader := BitOr(naluType, 0x40);
      ret, before := SendFragment(sock, tcp, rtp, route, H265, frame, frameSize, pos, remainPktSize,
                                  [payload0, payload1, fuHeader], before, first, sent, quota);
      if ret <= 0 {
        return -1;
      }
      sendBytes := sendBytes + ret;
    }
    AllSent(H265, frame, frameSize, before, route, first, sent, quota, sock.sent, sock.quota);
    return sendBytes;
  }
}
