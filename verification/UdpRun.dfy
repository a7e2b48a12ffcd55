/** One socket of a UDP client over a whole run: the client keeps a ring, a header and a socket for each track, and
    each packet is a datagram of its own. */
module UdpRun {
  import opened Bytes
  import opened Rtp
  import opened NalUnits
  import opened ClientRun

  /** A client of one track only; without a port the track is not set up. */
  function Alone(cfg: Config, track: Track, port: int): Config {
    var sig := if port == -1 then -1 else 0;
    cfg.(sig0 := if track == Video then sig else -1, sig2 := if track == Audio then sig else -1)
  }

  /** The track's ring, packet in hand and sequence number, as in the run of a client of that track alone, whose
      interleaved writes do not happen here; and the datagrams that do. */
  datatype Flow = Flow(client: Client, datagrams: seq<seq<byte>>)

  function StepFlow(cfg: Config, f: Flow, e: Event): Flow {
    Flow(Step(cfg, f.client, e), f.datagrams + Datagrams(cfg, f.client, e))
  }

  function Datagrams(cfg: Config, c: Client, e: Event): seq<seq<byte>> {
    if e.Transmit? && c.node.Some? then WritesAll(Udp, RtpFor(cfg, c, e.tail, e.timestamp)) else []
  }

  const Opened := Flow(Joined, [])

  function RunFlow(cfg: Config, events: seq<Event>): Flow {
    if events == [] then Opened else StepFlow(cfg, RunFlow(cfg, events[..|events| - 1]), events[|events| - 1])
  }

  // ---------------------------------------------------------------- the client's side

  function UnitsOf(cfg: Config, track: Track, datagrams: seq<seq<byte>>): seq<seq<byte>> {
    var payloads := PayloadsIn(ParseAll(datagrams));
    if track == Video then ReceiveAll(cfg.video, Silent, payloads).units else AudioUnits(cfg.audio, payloads)
  }

  // ---------------------------------------------------------------- the run

  lemma {:induction false} FlowIsRun(cfg: Config, events: seq<Event>)
    ensures RunFlow(cfg, events).client == Run(cfg, events)
  {
    if events != [] {
      FlowIsRun(cfg, events[..|events| - 1]);
    }
  }

  lemma {:induction false} DatagramsAreWires(ps: seq<Packet>)
    ensures WritesAll(Udp, ps) == Wires(ps)
  {
    if ps != [] {
      DatagramsAreWires(ps[1..]);
    }
  }

  ghost predicate OnTrack(done: seq<Sent>, track: Track) {
    forall s <- done :: s.packet.track == track
  }

  lemma TransmitDatagrams(cfg: Config, c: Client, tail: Tail, timestamp: u32, track: Track)
    requires c.node.Some? && c.node.value.track == track
    ensures var done' := Step(cfg, c, Transmit(tail, timestamp)).done;
            && (OnTrack(c.done, track) ==> OnTrack(done', track))
            && Wires(TrackPackets(done', track))
               == Wires(TrackPackets(c.done, track)) + Datagrams(cfg, c, Transmit(tail, timestamp))
  {
    hide RtpFor, Wires, TrackPackets, WritesAll;
    var rtp := RtpFor(cfg, c, tail, timestamp);
    TransmitTracks(c.done, Sent(c.node.value, tail, rtp), track);
    DatagramsAreWires(rtp);
    WiresAppend(TrackPackets(c.done, track), rtp);
  }

  /** The datagrams are the packets of the track, in order. */
  lemma {:induction false} FlowIsPackets(cfg: Config, events: seq<Event>, track: Track)
    requires GoodConfig(cfg) && AllFit(cfg, events)
    requires forall other :: Sig(cfg, other) != -1 ==> other == track
    ensures var f := RunFlow(cfg, events);
            OnTrack(f.client.done, track) && f.datagrams == Wires(TrackPackets(f.client.done, track))
  {
    hide Wires, TrackPackets, RtpFor, WritesAll, AllFrames, NonEmpty, Numbered, Faithful, Fit;
    if events != [] {
      var before, e := events[..|events| - 1], events[|events| - 1];
      var f := RunFlow(cfg, before);
      FlowIsPackets(cfg, before, track);
      FlowIsRun(cfg, before);
      InvAlways(cfg, before);
      if e.Transmit? && f.client.node.Some? {
        assert f.client.node.value in Held(f.client);
        TransmitDatagrams(cfg, f.client, e.tail, e.timestamp, track);
      }
    } else {
      NoPackets(track);
    }
  }

  lemma NoPackets(track: Track)
    ensures Wires(TrackPackets([], track)) == []
  {
  }

  /** Whatever the order of callbacks, dequeues and sends: the receiver on a UDP client's socket recovers, in order,
      exactly the packets of the track sent so far, numbered from 0 on, and nothing is lost or doubled between the
      media thread and the socket. */
  lemma FlowArrives(cfg: Config, track: Track, port: int, events: seq<Event>)
    requires AllFit(cfg, events)
    ensures var alone := Alone(cfg, track, port);
            var f := RunFlow(alone, events);
            && UnitsOf(cfg, track, f.datagrams) == Expected(cfg, f.client.done, track)
            && Numbered(ParseAll(f.datagrams), SeqOf(f.client, track))
            && NonEmpty(f.client.accepted) == PacketsSent(f.client.done) + Held(f.client) + NonEmpty(f.client.queue)
  {
    var alone := Alone(cfg, track, port);
    var f := RunFlow(alone, events);
    assert AllFit(alone, events);
    InvAlways(alone, events);
    FlowIsRun(alone, events);
    FlowIsPackets(alone, events, track);
    ParseAllInvertsWires(TrackPackets(f.client.done, track));
    VideoUnitsArrive(alone, f.client.done);
    AudioUnitsArrive(alone, f.client.done);
    SameExpected(cfg, alone, f.client.done, track);
  }

  lemma {:induction false} SameExpected(cfg: Config, alone: Config, done: seq<Sent>, track: Track)
    requires alone.video == cfg.video
    ensures Expected(alone, done, track) == Expected(cfg, done, track)
  {
    if done != [] {
      SameExpected(cfg, alone, done[..|done| - 1], track);
    }
  }

  /** What a track's socket was given is what the callbacks brought for that track. */
  lemma {:induction false} FlowAccepts(cfg: Config, track: Track, port: int, events: seq<Event>)
    requires port != -1
    ensures RunFlow(Alone(cfg, track, port), events).client.accepted == Offered(events, track)
  {
    if events != [] {
      FlowAccepts(cfg, track, port, events[..|events| - 1]);
    }
  }

  function Offered(events: seq<Event>, track: Track): seq<MediaPacket> {
    if events == [] then []
    else
      var e, before := events[|events| - 1], Offered(events[..|events| - 1], track);
      if e.Callback? && e.packet.track == track then before + [e.packet] else before
  }
}
