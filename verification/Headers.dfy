/** What the headers of a client's packets say over a whole run: types, markers and times, over TCP and over UDP. */
module Headers {
  import opened Bytes
  import opened Rtp
  import opened Interleaved
  import opened NalUnits
  import opened ClientRun
  import UdpRun

  /** The payload type by its number: 96 for video, 97 for AAC, 8 for PCMA. */
  function TypeNumber(cfg: Config, track: Track): nat {
    match track
    case Video => 96
    case Audio => match cfg.audio case AAC => 97 case PCMA => 8
  }

  /** The packets of one unit: exactly the last is marked, and all have the track's type, one time and one source. */
  ghost predicate OneUnit(cfg: Config, s: Sent) {
    && s.rtp != []
    && forall i :: 0 <= i < |s.rtp| ==>
         && (s.rtp[i].marker <==> i == |s.rtp| - 1)
         && s.rtp[i].payloadType == TypeNumber(cfg, s.packet.track)
         && s.rtp[i].timestamp == s.rtp[0].timestamp
         && s.rtp[i].ssrc == 0x8892_3423
  }

  lemma RtpIsOneUnit(cfg: Config, c: Client, tail: Tail, timestamp: u32)
    requires c.node.Some?
    ensures OneUnit(cfg, Sent(c.node.value, tail, RtpFor(cfg, c, tail, timestamp)))
  {
    hide Chunks, AudioPayload;
    var p := c.node.value;
    var chunks, first := ChunksOf(cfg, p, tail), FirstOf(cfg, c, p.track, timestamp);
    var rtp := RtpFor(cfg, c, tail, timestamp);
    PacketsAllNumbered(chunks, first);
    if p.track == Video {
      SomeChunks(cfg.video, p.data + tail, |p.data|);
    }
    forall i | 0 <= i < |rtp|
      ensures && (rtp[i].marker <==> i == |rtp| - 1)
              && rtp[i].payloadType == TypeNumber(cfg, p.track)
              && rtp[i].timestamp == timestamp && rtp[i].ssrc == 0x8892_3423
    {
      PacketNumbers(chunks, first, i);
      if p.track == Video {
        MarkerOnLast(cfg.video, p.data + tail, |p.data|, first, i);
      }
    }
  }

  lemma SomeChunks(codec: Codec, buffer: seq<byte>, size: nat)
    requires 0 < size && Carried(codec, size) <= |buffer|
    ensures Chunks(codec, buffer, size) != []
  {
  }

  lemma {:induction false} EveryUnit(cfg: Config, events: seq<Event>)
    ensures forall s <- Run(cfg, events).done :: OneUnit(cfg, s)
  {
    hide OneUnit, RtpFor;
    if events != [] {
      var c, e := Run(cfg, events[..|events| - 1]), events[|events| - 1];
      EveryUnit(cfg, events[..|events| - 1]);
      if e.Transmit? && c.node.Some? {
        RtpIsOneUnit(cfg, c, e.tail, e.timestamp);
      }
    }
  }

  function CountMarked(ps: seq<Packet>): nat {
    if ps == [] then 0 else CountMarked(ps[..|ps| - 1]) + (if ps[|ps| - 1].marker then 1 else 0)
  }

  lemma {:induction false} CountUnmarked(before: seq<Packet>, more: seq<Packet>)
    requires forall p <- more :: !p.marker
    ensures CountMarked(before + more) == CountMarked(before)
  {
    if more == [] {
      assert before + more == before;
    } else {
      var n := |more| - 1;
      assert (before + more)[..|before| + n] == before + more[..n];
      CountUnmarked(before, more[..n]);
    }
  }

  lemma CountUnit(cfg: Config, before: seq<Packet>, s: Sent)
    requires OneUnit(cfg, s)
    ensures CountMarked(before + s.rtp) == CountMarked(before) + 1
  {
    var n := |s.rtp| - 1;
    var ps := before + s.rtp;
    assert ps[..|ps| - 1] == before + s.rtp[..n];
    CountUnmarked(before, s.rtp[..n]);
  }

  /** The packets of a track have its type, and as many of them are marked as there are units. */
  lemma {:induction false} TrackHeaders(cfg: Config, done: seq<Sent>, track: Track)
    requires forall s <- done :: OneUnit(cfg, s)
    ensures forall p <- TrackPackets(done, track) :: p.payloadType == TypeNumber(cfg, track)
    ensures CountMarked(TrackPackets(done, track)) == |Expected(cfg, done, track)|
  {
    hide CountMarked;
    if done != [] {
      var before, s := done[..|done| - 1], done[|done| - 1];
      assert s in done;
      TrackHeaders(cfg, before, track);
      CountUnit(cfg, TrackPackets(before, track), s);
    } else {
      NothingMarked();
    }
  }

  lemma NothingMarked()
    ensures CountMarked([]) == 0
  {
  }

  /** Over TCP: every packet on the video channel has type 96, and every packet on the audio channel 97 or 8, as the
      session's audio is AAC or PCMA; and the marked packets on a channel are as many as the units that arrive. */
  lemma OnTheWire(cfg: Config, events: seq<Event>)
    requires GoodConfig(cfg) && AllFit(cfg, events)
    ensures var wire := Flatten(Run(cfg, events).writes);
            var video, audio := PacketsOn(Deframe(wire).frames, cfg.sig0), PacketsOn(Deframe(wire).frames, cfg.sig2);
            && (forall p <- video :: p.payloadType == 96)
            && (forall p <- audio :: p.payloadType == (match cfg.audio case AAC => 97 case PCMA => 8))
            && CountMarked(video) == |VideoArrivals(cfg, wire)|
            && CountMarked(audio) == |AudioArrivals(cfg, wire)|
  {
    hide OneUnit, CountMarked, TrackPackets;
    var c := Run(cfg, events);
    InvAlways(cfg, events);
    assert AllSetUp(cfg, c.done);
    AllFramesFit(cfg, c.done);
    UniquelyDecodable(AllFrames(cfg, c.done));
    TracksArrive(cfg, c.done);
    EveryUnit(cfg, events);
    TrackHeaders(cfg, c.done, Video);
    TrackHeaders(cfg, c.done, Audio);
  }

  /** The same for the datagrams on either socket of a UDP client. */
  lemma InDatagrams(cfg: Config, track: Track, port: int, events: seq<Event>)
    requires AllFit(cfg, events)
    ensures var f := UdpRun.RunFlow(UdpRun.Alone(cfg, track, port), events);
            var ps := ParseAll(f.datagrams);
            && (track == Video ==> forall p <- ps :: p.payloadType == 96)
            && (track == Audio ==> forall p <- ps :: p.payloadType == (match cfg.audio case AAC => 97 case PCMA => 8))
            && CountMarked(ps) == |UdpRun.UnitsOf(cfg, track, f.datagrams)|
  {
    hide OneUnit, CountMarked, TrackPackets, Numbered, UdpRun.UnitsOf;
    var alone := UdpRun.Alone(cfg, track, port);
    var f := UdpRun.RunFlow(alone, events);
    assert AllFit(alone, events);
    UdpRun.FlowIsRun(alone, events);
    UdpRun.FlowIsPackets(alone, events, track);
    UdpRun.FlowArrives(cfg, track, port, events);
    ParseAllInvertsWires(TrackPackets(f.client.done, track));
    EveryUnit(alone, events);
    TrackHeaders(alone, f.client.done, track);
    UdpRun.SameExpected(cfg, alone, f.client.done, track);
  }
}
