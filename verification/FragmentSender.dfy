/** One fragment of a unit on its way out: the step the H.264 and H.265 senders have in common. */
module FragmentSender {
  import opened Bytes
  import opened Rtp
  import opened NalUnits

  /** Where the sending of a unit stands: the chunks in `before` are out, the rest of the data follows. */
  ghost predicate Pending(codec: Codec, frame: seq<byte>, frameSize: nat, before: seq<Chunk>, pos: nat)
  {
    && PTK_RTP_TCP_MAX < frameSize
    && HeaderSize(codec) <= pos <= Carried(codec, frameSize) <= |frame|
    && Chunks(codec, frame, frameSize)
       == before + FuChunks(FuPrefix(codec, frame), NalType(codec, frame), frame[pos..Carried(codec, frameSize)],
                            before == [])
  }

  lemma NothingSent(codec: Codec, frame: seq<byte>, frameSize: nat, route: Route, first: Packet, sent: seq<seq<byte>>,
                    quota: nat)
    requires PTK_RTP_TCP_MAX < frameSize && Carried(codec, frameSize) <= |frame|
    ensures Pending(codec, frame, frameSize, [], HeaderSize(codec))
    ensures Sent(route, [], first, sent, quota, sent, quota)
  {
  }

  lemma PendingStep(codec: Codec, frame: seq<byte>, frameSize: nat, before: seq<Chunk>, pos: nat, n: nat, c: Chunk)
    requires Pending(codec, frame, frameSize, before, pos)
    requires 0 < n == Min(Carried(codec, frameSize) - pos, PTK_RTP_TCP_MAX)
    requires var last := pos + n == Carried(codec, frameSize);
             c == Chunk(last, FuPrefix(codec, frame) + [FuHeader(NalType(codec, frame), before == [], last)]
                              + frame[pos..pos + n])
    ensures Pending(codec, frame, frameSize, before + [c], pos + n)
    ensures Chunks(codec, frame, frameSize)
            == before + ([c] + FuChunks(FuPrefix(codec, frame), NalType(codec, frame),
                                        frame[pos + n..Carried(codec, frameSize)], false))
  {
    var end := Carried(codec, frameSize);
    Slices(frame, pos, end, n);
    Assoc(before, [c], FuChunks(FuPrefix(codec, frame), NalType(codec, frame), frame[pos + n..end], false));
  }

  /** Sends the n bytes at `pos` behind the given fragment header. */
  method SendFragment(sock: Socket, tcp: TcpHeader, rtp: RtpPacket, route: Route, codec: Codec, frame: seq<byte>,
                      frameSize: nat, pos: nat, n: nat, head: seq<byte>, ghost before: seq<Chunk>, ghost first: Packet,
                      ghost sent: seq<seq<byte>>, ghost quota: nat) returns (ret: int, ghost now: seq<Chunk>)
    requires rtp.Valid() && Pending(codec, frame, frameSize, before, pos)
    requires 0 < n == Min(Carried(codec, frameSize) - pos, PTK_RTP_TCP_MAX)
    requires rtp.marker == (pos + n == Carried(codec, frameSize))
    requires head == FuPrefix(codec, frame) + [FuHeader(NalType(codec, frame), before == [], rtp.marker)]
    requires first.payloadType == rtp.payloadType && first.ssrc == rtp.ssrc && first.timestamp == rtp.timestamp
    requires rtp.seqNo == After(first, |before|).seqNo
    requires Sent(route, before, first, sent, quota, sock.sent, sock.quota)
    modifies rtp`seqNo, rtp`timestamp, rtp`ssrc, rtp.payload, sock, tcp
    ensures |now| == |before| + 1
    ensures ret > 0 ==> && route != NoRoute
                        && Pending(codec, frame, frameSize, now, pos + n)
                        && Sent(route, now, first, sent, quota, sock.sent, sock.quota)
                        && rtp.seqNo == After(first, |now|).seqNo
                        && rtp.timestamp == first.timestamp && rtp.ssrc == first.ssrc
    ensures ret <= 0 ==> Outcome(route, Plan(route, Chunks(codec, frame, frameSize), first),
                                 sent, quota, sock.sent, sock.quota, false)
  {
    hide Outcome, Sent, Plan, FuHeader, NalType;
    ghost var c := Chunk(rtp.marker, head + frame[pos..pos + n]);
    ghost var behind := FuChunks(FuPrefix(codec, frame), NalType(codec, frame),
                                 frame[pos + n..Carried(codec, frameSize)], false);
    PendingStep(codec, frame, frameSize, before, pos, n, c);
    now := before + [c];
    ret := rtp.SendChunk(sock, tcp, route, head, frame[pos..pos + n], c, before, behind, first, sent, quota);
  }

  lemma AllSent(codec: Codec, frame: seq<byte>, frameSize: nat, before: seq<Chunk>, route: Route, first: Packet,
                sent: seq<seq<byte>>, quota: nat, sent': seq<seq<byte>>, quota': nat)
    requires Pending(codec, frame, frameSize, before, Carried(codec, frameSize))
    requires route != NoRoute && Sent(route, before, first, sent, quota, sent', quota')
    ensures before == Chunks(codec, frame, frameSize)
    ensures Outcome(route, Plan(route, before, first), sent, quota, sent', quota', true)
  {
    SentIsOutcome(route, before, first, sent, quota, sent', quota');
  }
}
