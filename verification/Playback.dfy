/** From the splitter to the client: what a TCP client recovers of the units of one buffer. */
module Playback {
  import opened Bytes
  import opened Rtp
  import opened NalUnits
  import opened AnnexB
  import opened Media
  import opened ClientRun

  function VideoPackets(units: seq<seq<byte>>): (packets: seq<MediaPacket>)
    ensures |packets| == |units|
    ensures forall i :: 0 <= i < |units| ==> packets[i] == MediaPacket(Video, units[i])
  {
    seq(|units|, i requires 0 <= i < |units| => MediaPacket(Video, units[i]))
  }

  /** What the callback copies of each delivery. */
  function Copies(deliveries: seq<Delivery>): (packets: seq<MediaPacket>)
    ensures |packets| == |deliveries|
    ensures forall i :: 0 <= i < |deliveries| ==> packets[i] == MediaPacket(Video, deliveries[i].bytes)
  {
    seq(|deliveries|, i requires 0 <= i < |deliveries| => MediaPacket(Video, deliveries[i].bytes))
  }

  /** The packets of the callbacks among the events, in order. */
  function Given(events: seq<Event>): seq<MediaPacket> {
    if events == [] then []
    else
      var e, before := events[|events| - 1], Given(events[..|events| - 1]);
      if e.Callback? then before + [e.packet] else before
  }

  lemma {:induction false} DeliveriesAt(payloads: seq<seq<byte>>)
    ensures |Deliveries(payloads)| == |payloads|
    ensures forall i :: 0 <= i < |payloads| ==> Deliveries(payloads)[i] == Delivery(|payloads[i]|, payloads[i])
  {
    if payloads != [] {
      DeliveriesAt(payloads[1..]);
    }
  }

  /** The callback copies the units of a joined stream exactly as they were when they are separable. */
  lemma CopiesAreUnits(nals: seq<Nal>)
    requires Separable(nals)
    ensures Copies(ToDeliver(Join(nals), 0)) == VideoPackets(Datas(nals))
  {
    DeliversTheUnits(nals);
    DeliveriesAt(Datas(nals));
  }

  lemma {:induction false} AcceptedIsGiven(cfg: Config, events: seq<Event>)
    requires cfg.sig0 != -1 && forall p <- Given(events) :: p.track == Video
    ensures Run(cfg, events).accepted == Given(events)
  {
    if events != [] {
      var before, e := events[..|events| - 1], events[|events| - 1];
      assert forall p <- Given(before) :: p in Given(events);
      AcceptedIsGiven(cfg, before);
      if e.Callback? {
        assert Given(events)[|Given(before)|] == e.packet;
      }
    }
  }

  lemma {:induction false} GivenIsEvery(events: seq<Event>, e: Event)
    requires e in events && e.Callback?
    ensures e.packet in Given(events)
  {
    var before := events[..|events| - 1];
    if e in before {
      GivenIsEvery(before, e);
      assert forall p <- Given(before) :: p in Given(events);
    } else {
      assert Given(events)[|Given(before)|] == e.packet;
    }
  }

  lemma {:induction false} SentAt(done: seq<Sent>)
    ensures |PacketsSent(done)| == |done|
    ensures forall i :: 0 <= i < |done| ==> PacketsSent(done)[i] == done[i].packet
  {
    if done != [] {
      SentAt(done[..|done| - 1]);
    }
  }

  /** What arrives of each packet sent when all of them are video. */
  lemma {:induction false} ExpectedAt(cfg: Config, done: seq<Sent>)
    requires forall i :: 0 <= i < |done| ==> done[i].packet.track == Video
    ensures |Expected(cfg, done, Video)| == |done|
    ensures forall i :: 0 <= i < |done| ==> Expected(cfg, done, Video)[i] == Arrival(cfg, done[i])
  {
    hide Arrival;
    if done != [] {
      ExpectedAt(cfg, done[..|done| - 1]);
    }
  }

  lemma {:induction false} NonEmptyIsSome(packets: seq<MediaPacket>)
    ensures forall p <- NonEmpty(packets) :: p in packets
  {
    if packets != [] {
      NonEmptyIsSome(packets[1..]);
    }
  }

  /** What has arrived of some units: the first of the non-empty ones, in order, each followed by its known tail if
      it was fragmented. */
  ghost predicate PlayedBack(cfg: Config, units: seq<MediaPacket>, done: seq<Sent>, arrivals: seq<seq<byte>>) {
    && |arrivals| == |done| <= |NonEmpty(units)|
    && forall i :: 0 <= i < |done| ==> done[i].packet == NonEmpty(units)[i] && arrivals[i] == Arrival(cfg, done[i])
  }

  /** From the units of a buffer to the client: for separable units that the payload format can carry, whatever the
      interleaving of the splitter's callbacks, the dequeues and the sends, exactly the units are accepted, the
      client recovers the first of the non-empty ones in order, and all of them once everything has been sent. */
  lemma UnitsReachTheClient(cfg: Config, nals: seq<Nal>, events: seq<Event>)
    requires GoodConfig(cfg) && cfg.sig0 != -1
    requires Separable(nals) && forall nal <- nals :: Fit(cfg, MediaPacket(Video, nal.data))
    requires Given(events) == Copies(ToDeliver(Join(nals), 0))
    ensures var c, units := Run(cfg, events), VideoPackets(Datas(nals));
            var arrivals := VideoArrivals(cfg, Flatten(c.writes));
            && c.accepted == units
            && PlayedBack(cfg, units, c.done, arrivals)
            && (c.queue == [] && c.node == None ==> |arrivals| == |NonEmpty(units)|)
  {
    var c, units := Run(cfg, events), VideoPackets(Datas(nals));
    CopiesAreUnits(nals);
    UnitsFit(cfg, nals, events);
    AcceptedIsGiven(cfg, events);
    EndToEnd(cfg, events);
    AllPlayed(cfg, units, c);
  }

  lemma {:induction false} DatasAt(nals: seq<Nal>)
    ensures |Datas(nals)| == |nals|
    ensures forall i :: 0 <= i < |nals| ==> Datas(nals)[i] == nals[i].data
  {
    if nals != [] {
      DatasAt(nals[1..]);
    }
  }

  lemma UnitsFit(cfg: Config, nals: seq<Nal>, events: seq<Event>)
    requires forall nal <- nals :: Fit(cfg, MediaPacket(Video, nal.data))
    requires Given(events) == VideoPackets(Datas(nals))
    ensures AllFit(cfg, events)
  {
    DatasAt(nals);
    forall e | e in events && e.Callback?
      ensures Fit(cfg, e.packet)
    {
      GivenIsEvery(events, e);
      var i :| 0 <= i < |nals| && Given(events)[i] == e.packet;
      assert nals[i] in nals;
    }
  }

  lemma AllPlayed(cfg: Config, units: seq<MediaPacket>, c: Client)
    requires forall p <- units :: p.track == Video
    requires NonEmpty(units) == PacketsSent(c.done) + Held(c) + NonEmpty(c.queue)
    ensures PlayedBack(cfg, units, c.done, Expected(cfg, c.done, Video))
    ensures c.queue == [] && c.node == None ==> |c.done| == |NonEmpty(units)|
  {
    SentAt(c.done);
    NonEmptyIsSome(units);
    forall i | 0 <= i < |c.done|
      ensures c.done[i].packet == NonEmpty(units)[i] && c.done[i].packet.track == Video
    {
      assert NonEmpty(units)[i] in NonEmpty(units);
    }
    ExpectedAt(cfg, c.done);
  }
}
