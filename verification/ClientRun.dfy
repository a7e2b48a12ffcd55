/** One TCP client over a whole run: media callbacks put packets into its ring, the epoll thread takes
    them out and sends them, in any interleaving; and what arrives at the client. */
module ClientRun {
  import opened Bytes
  import opened Rtp
  import opened Interleaved
  import opened NalUnits
  import opened AudioSender

  datatype Track = Video | Audio

  /** `MediaPacket_st` */
  datatype MediaPacket = MediaPacket(track: Track, data: seq<byte>)

  datatype AudioCodec = AAC | PCMA

  /** The media of the session, and the client's two interleaved channels (-1 for a track not set up). */
  datatype Config = Config(video: Codec, audio: AudioCodec, sig0: int, sig2: int)

  function Sig(cfg: Config, track: Track): int {
    if track == Video then cfg.sig0 else cfg.sig2
  }

  function TypeOf(cfg: Config, track: Track): PayloadType {
    if track == Video then RTP_PAYLOAD_TYPE_H26X
    else if cfg.audio == AAC then RTP_PAYLOAD_TYPE_AAC
    else RTP_PAYLOAD_TYPE_PCMA
  }

  /** The two bytes that lie behind the packet in the buffer it is sent from. */
  type Tail = t: seq<byte> | |t| == 2 witness [0, 0]

  function AudioPayload(audio: AudioCodec, data: seq<byte>): seq<byte> {
    match audio case AAC => AacPayload(data) case PCMA => data
  }

  /** Empty packets are dropped when they are taken out of the ring. */
  type Loaded = p: MediaPacket | p.data != [] witness MediaPacket(Video, [0])

  function ChunksOf(cfg: Config, p: Loaded, tail: Tail): seq<Chunk> {
    if p.track == Video then Chunks(cfg.video, p.data + tail, |p.data|)
    else [Chunk(true, AudioPayload(cfg.audio, p.data))]
  }

  // ---------------------------------------------------------------- the run

  /** A packet that went out in full, from a buffer with this tail, as these RTP packets. */
  datatype Sent = Sent(packet: Loaded, tail: Tail, rtp: seq<Packet>)

  /** The ring, the packet the epoll thread holds between taking it and sending it, the RTP sequence
      numbers, the socket writes; and, for the record, the packets accepted and the packets sent. */
  datatype Client = Client(queue: seq<MediaPacket>, node: Option<Loaded>, videoSeq: u16, audioSeq: u16,
                           writes: seq<seq<byte>>, accepted: seq<MediaPacket>, done: seq<Sent>)

  datatype Event =
    | Callback(packet: MediaPacket)              // the media thread delivers to the client
    | Take                                       // the epoll thread takes a packet out of the ring
    | Transmit(tail: Tail, timestamp: u32)       // and sends it

  const Joined := Client([], None, 0, 0, [], [], [])

  function SeqOf(c: Client, track: Track): u16 {
    if track == Video then c.videoSeq else c.audioSeq
  }

  function FirstOf(cfg: Config, c: Client, track: Track, timestamp: u32): Packet {
    Packet(true, TypeOf(cfg, track), SeqOf(c, track), timestamp, SSRC, [])
  }

  function RouteFor(cfg: Config, track: Track): Route {
    RouteOf(true, Sig(cfg, track), false, -1)
  }

  /** The RTP packets that carry the packet the epoll thread holds. */
  function RtpFor(cfg: Config, c: Client, tail: Tail, timestamp: u32): seq<Packet>
    requires c.node.Some?
  {
    var p := c.node.value;
    Packets(ChunksOf(cfg, p, tail), FirstOf(cfg, c, p.track, timestamp))
  }

  function Step(cfg: Config, c: Client, e: Event): Client {
    match e
    case Callback(p) =>
      if Sig(cfg, p.track) == -1 then c
      else c.(queue := c.queue + [p], accepted := c.accepted + [p])
    case Take =>
      if c.node.Some? || c.queue == [] then c
      else c.(queue := c.queue[1..], node := if c.queue[0].data == [] then None else Some(c.queue[0]))
    case Transmit(tail, timestamp) =>
      if c.node == None then c
      else
        var p, rtp := c.node.value, RtpFor(cfg, c, tail, timestamp);
        c.(node := None,
           videoSeq := if p.track == Video then (c.videoSeq + |rtp|) % 0x1_0000 else c.videoSeq,
           audioSeq := if p.track == Audio then (c.audioSeq + |rtp|) % 0x1_0000 else c.audioSeq,
           writes := c.writes + WritesAll(RouteFor(cfg, p.track), rtp),
           done := c.done + [Sent(p, tail, rtp)])
  }

  function Run(cfg: Config, events: seq<Event>): Client {
    if events == [] then Joined else Step(cfg, Run(cfg, events[..|events| - 1]), events[|events| - 1])
  }

  // ---------------------------------------------------------------- the client's side

  /** The RTP packets of one interleaved channel; frames that hold no packet are ignored. */
  function PacketsOn(frames: seq<Frame>, sig: int): seq<Packet> {
    if 0 <= sig < 256 then ParseAll(OnChannel(frames, sig)) else []
  }

  function ParseAll(data: seq<seq<byte>>): seq<Packet> {
    if data == [] then []
    else (var p := Parse(data[0]); if p.Some? then [p.value] else []) + ParseAll(data[1..])
  }

  function PayloadsIn(packets: seq<Packet>): seq<seq<byte>> {
    if packets == [] then [] else [packets[0].payload] + PayloadsIn(packets[1..])
  }

  function AudioUnits(audio: AudioCodec, payloads: seq<seq<byte>>): seq<seq<byte>> {
    if payloads == [] then []
    else (match audio
          case PCMA => [payloads[0]]
          case AAC => var unit := AacUnit(payloads[0]); if unit.Some? then [unit.value] else [])
         + AudioUnits(audio, payloads[1..])
  }

  const Silent := Receiver([], None)

  /** The video units and the audio frames a client makes of the byte stream. */
  function VideoArrivals(cfg: Config, wire: seq<byte>): seq<seq<byte>> {
    ReceiveAll(cfg.video, Silent, PayloadsIn(PacketsOn(Deframe(wire).frames, cfg.sig0))).units
  }

  function AudioArrivals(cfg: Config, wire: seq<byte>): seq<seq<byte>> {
    AudioUnits(cfg.audio, PayloadsIn(PacketsOn(Deframe(wire).frames, cfg.sig2)))
  }

  // ---------------------------------------------------------------- what ought to arrive

  /** A fragmented unit drags the one or two bytes behind it along. */
  function Arrival(cfg: Config, s: Sent): seq<byte> {
    if s.packet.track == Video && |s.packet.data| > PTK_RTP_TCP_MAX then
      s.packet.data + s.tail[..HeaderSize(cfg.video)]
    else s.packet.data
  }

  function Expected(cfg: Config, done: seq<Sent>, track: Track): seq<seq<byte>> {
    if done == [] then []
    else
      var s, before := done[|done| - 1], Expected(cfg, done[..|done| - 1], track);
      if s.packet.track == track then before + [Arrival(cfg, s)] else before
  }

  function PacketsSent(done: seq<Sent>): seq<MediaPacket> {
    if done == [] then [] else PacketsSent(done[..|done| - 1]) + [done[|done| - 1].packet]
  }

  function NonEmpty(packets: seq<MediaPacket>): seq<MediaPacket> {
    if packets == [] then []
    else (if packets[0].data == [] then [] else [packets[0]]) + NonEmpty(packets[1..])
  }

  function Held(c: Client): seq<MediaPacket> {
    if c.node.Some? then [c.node.value] else []
  }

  /** The channels can be told apart. */
  predicate GoodConfig(cfg: Config) {
    && -1 <= cfg.sig0 < 256
    && -1 <= cfg.sig2 < 256
    && (cfg.sig0 == cfg.sig2 ==> cfg.sig0 == -1)
  }

  /** Packets that the payload formats can carry (empty ones are dropped on the way). */
  predicate Fit(cfg: Config, p: MediaPacket) {
    match p.track
    case Video => |p.data| == 0 || |p.data| > PTK_RTP_TCP_MAX || Deliverable(cfg.video, p.data)
    case Audio => |p.data| < (if cfg.audio == AAC then 0x2000 else 0x1_0000 - RTP_HEADER_SIZE)
  }

  ghost predicate AllFit(cfg: Config, events: seq<Event>) {
    forall e <- events :: e.Callback? ==> Fit(cfg, e.packet)
  }

  // ---------------------------------------------------------------- the stream as frames and packets

  function PacketFrames(channel: byte, ps: seq<Packet>): seq<Frame> {
    if ps == [] then [] else [Frame(channel, Wire(ps[0]))] + PacketFrames(channel, ps[1..])
  }

  function Channel(cfg: Config, track: Track): byte {
    Sig(cfg, track) % 256
  }

  function AllFrames(cfg: Config, done: seq<Sent>): seq<Frame> {
    if done == [] then []
    else
      var s := done[|done| - 1];
      AllFrames(cfg, done[..|done| - 1]) + PacketFrames(Channel(cfg, s.packet.track), s.rtp)
  }

  function TrackPackets(done: seq<Sent>, track: Track): seq<Packet> {
    if done == [] then []
    else
      var s, before := done[|done| - 1], TrackPackets(done[..|done| - 1], track);
      if s.packet.track == track then before + s.rtp else before
  }

  lemma FlattenTwo<T>(a: seq<T>, b: seq<T>)
    ensures Flatten([a, b]) == a + b
  {
    assert [a, b][1..] == [b];
    assert Flatten([b]) == b + [];
  }

  /** Over TCP the writes for some packets are the interleaved frames that carry them. */
  lemma {:induction false} WritesAreFrames(channel: byte, ps: seq<Packet>)
    ensures Flatten(WritesAll(Tcp(channel), ps)) == PrintAll(PacketFrames(channel, ps))
  {
    if ps != [] {
      var f := Frame(channel, Wire(ps[0]));
      var two := Writes(Tcp(channel), ps[0]);
      WritesAreFrames(channel, ps[1..]);
      FlattenAppend(two, WritesAll(Tcp(channel), ps[1..]));
      FlattenTwo(two[0], two[1]);
      assert two == [two[0], two[1]];
      assert Flatten(two) == Print(f);
      assert ([f] + PacketFrames(channel, ps[1..]))[1..] == PacketFrames(channel, ps[1..]);
    }
  }

  // ---------------------------------------------------------------- the invariant of every run

  predicate Carries(cfg: Config, p: MediaPacket) {
    Sig(cfg, p.track) != -1 && Fit(cfg, p)
  }

  /** A record of `done` says what was sent. */
  ghost predicate Faithful(cfg: Config, s: Sent) {
    && Carries(cfg, s.packet)
    && exists first :: s.rtp == Packets(ChunksOf(cfg, s.packet, s.tail), first)
  }

  /** The packets of a track are numbered from 0 on, modulo 2^16, under one source identifier, and
      `next` is the number of the next one. */
  ghost predicate Numbered(ps: seq<Packet>, next: u16) {
    && next == |ps| % 0x1_0000
    && forall i :: 0 <= i < |ps| ==> ps[i].seqNo == i % 0x1_0000 && ps[i].ssrc == SSRC
  }

  ghost predicate Inv(cfg: Config, c: Client) {
    && (forall p <- c.queue :: Carries(cfg, p))
    && (forall p <- Held(c) :: Carries(cfg, p))
    && (forall s <- c.done :: Faithful(cfg, s))
    && NonEmpty(c.accepted) == PacketsSent(c.done) + Held(c) + NonEmpty(c.queue)
    && Flatten(c.writes) == PrintAll(AllFrames(cfg, c.done))
    && Numbered(TrackPackets(c.done, Video), c.videoSeq)
    && Numbered(TrackPackets(c.done, Audio), c.audioSeq)
  }

  lemma {:induction false} NonEmptyAppend(a: seq<MediaPacket>, b: seq<MediaPacket>)
    ensures NonEmpty(a + b) == NonEmpty(a) + NonEmpty(b)
  {
    if a == [] {
      assert a + b == b;
    } else {
      assert (a + b)[1..] == a[1..] + b;
      NonEmptyAppend(a[1..], b);
      Assoc(NonEmpty(a[..1]), NonEmpty(a[1..]), NonEmpty(b));
    }
  }

  lemma NumberedAppend(ps: seq<Packet>, next: u16, more: seq<Packet>)
    requires Numbered(ps, next)
    requires forall j :: 0 <= j < |more| ==> more[j].seqNo == (next + j) % 0x1_0000 && more[j].ssrc == SSRC
    ensures Numbered(ps + more, (next + |more|) % 0x1_0000)
  {
    ModAdd(|ps|, |more|);
    forall i | |ps| <= i < |ps| + |more|
      ensures (ps + more)[i].seqNo == i % 0x1_0000 && (ps + more)[i].ssrc == SSRC
    {
      var j := i - |ps|;
      ModAdd(|ps|, j);
      assert (ps + more)[i] == more[j];
    }
  }

  lemma ModAdd(a: nat, b: nat)
    ensures (a % 0x1_0000 + b) % 0x1_0000 == (a + b) % 0x1_0000
  {
  }

  lemma CallbackKeepsInv(cfg: Config, c: Client, p: MediaPacket)
    requires Inv(cfg, c) && Fit(cfg, p)
    ensures Inv(cfg, Step(cfg, c, Callback(p)))
  {
    if Sig(cfg, p.track) != -1 {
      NonEmptyAppend(c.accepted, [p]);
      NonEmptyAppend(c.queue, [p]);
      Assoc(PacketsSent(c.done) + Held(c), NonEmpty(c.queue), NonEmpty([p]));
    }
  }

  lemma TakeKeepsInv(cfg: Config, c: Client)
    requires Inv(cfg, c)
    ensures Inv(cfg, Step(cfg, c, Take))
  {
    if c.node == None && c.queue != [] {
      var c' := Step(cfg, c, Take);
      assert c.queue[0] in c.queue;
      NonEmptyAppend(c.queue[..1], c.queue[1..]);
      assert c.queue[..1] + c.queue[1..] == c.queue;
      assert NonEmpty(c.queue[..1]) == Held(c');
      Assoc(PacketsSent(c.done), Held(c'), NonEmpty(c'.queue));
      assert PacketsSent(c.done) + Held(c) == PacketsSent(c.done);
    }
  }

  lemma TransmitWrites(cfg: Config, c: Client, p: Loaded, tail: Tail, rtp: seq<Packet>)
    requires GoodConfig(cfg) && Carries(cfg, p)
    requires Flatten(c.writes) == PrintAll(AllFrames(cfg, c.done))
    ensures Flatten(c.writes + WritesAll(RouteFor(cfg, p.track), rtp))
            == PrintAll(AllFrames(cfg, c.done + [Sent(p, tail, rtp)]))
  {
    var s, channel := Sent(p, tail, rtp), Channel(cfg, p.track);
    assert (c.done + [s])[..|c.done|] == c.done;
    FlattenAppend(c.writes, WritesAll(Tcp(channel), rtp));
    WritesAreFrames(channel, rtp);
    PrintAllAppend(AllFrames(cfg, c.done), PacketFrames(channel, rtp));
  }

  lemma TransmitNumbered(cfg: Config, c: Client, tail: Tail, timestamp: u32, rtp: seq<Packet>)
    requires c.node.Some? && rtp == RtpFor(cfg, c, tail, timestamp)
    requires Numbered(TrackPackets(c.done, c.node.value.track), SeqOf(c, c.node.value.track))
    ensures Numbered(TrackPackets(c.done, c.node.value.track) + rtp, (SeqOf(c, c.node.value.track) + |rtp|) % 0x1_0000)
  {
    var p := c.node.value;
    PacketsAllNumbered(ChunksOf(cfg, p, tail), FirstOf(cfg, c, p.track, timestamp));
    NumberedAppend(TrackPackets(c.done, p.track), SeqOf(c, p.track), rtp);
  }

  lemma SentIsFaithful(cfg: Config, c: Client, tail: Tail, timestamp: u32)
    requires Inv(cfg, c) && c.node.Some?
    ensures Faithful(cfg, Sent(c.node.value, tail, RtpFor(cfg, c, tail, timestamp)))
  {
    assert c.node.value in Held(c);
  }

  lemma TransmitAccounts(c: Client, s: Sent)
    requires c.node.Some? && s.packet == c.node.value
    ensures PacketsSent(c.done + [s]) == PacketsSent(c.done) + Held(c)
  {
    assert (c.done + [s])[..|c.done|] == c.done;
  }

  lemma TransmitTracks(done: seq<Sent>, s: Sent, track: Track)
    ensures TrackPackets(done + [s], track)
         == if s.packet.track == track then TrackPackets(done, track) + s.rtp else TrackPackets(done, track)
  {
    assert (done + [s])[..|done|] == done;
  }

  lemma TransmitKeepsInv(cfg: Config, c: Client, tail: Tail, timestamp: u32)
    requires Inv(cfg, c) && GoodConfig(cfg)
    ensures Inv(cfg, Step(cfg, c, Transmit(tail, timestamp)))
  {
    hide Carries, Faithful, Numbered, NonEmpty, PacketsSent, AllFrames, TrackPackets, RtpFor, WritesAll, RouteFor;
    if c.node.Some? {
      var p, rtp := c.node.value, RtpFor(cfg, c, tail, timestamp);
      var s := Sent(p, tail, rtp);
      assert p in Held(c);
      TransmitAccounts(c, s);
      assert PacketsSent(c.done + [s]) + [] == PacketsSent(c.done) + Held(c);
      TransmitWrites(cfg, c, p, tail, rtp);
      TransmitNumbered(cfg, c, tail, timestamp, rtp);
      TransmitTracks(c.done, s, Video);
      TransmitTracks(c.done, s, Audio);
      SentIsFaithful(cfg, c, tail, timestamp);
    }
  }

  lemma {:induction false} InvAlways(cfg: Config, events: seq<Event>)
    requires GoodConfig(cfg) && AllFit(cfg, events)
    ensures Inv(cfg, Run(cfg, events))
  {
    if events != [] {
      var before, e := events[..|events| - 1], events[|events| - 1];
      InvAlways(cfg, before);
      match e
      case Callback(p) => CallbackKeepsInv(cfg, Run(cfg, before), p);
      case Take => TakeKeepsInv(cfg, Run(cfg, before));
      case Transmit(tail, timestamp) => TransmitKeepsInv(cfg, Run(cfg, before), tail, timestamp);
    }
  }

  // ---------------------------------------------------------------- from frames back to units

  function Wires(ps: seq<Packet>): seq<seq<byte>> {
    if ps == [] then [] else [Wire(ps[0])] + Wires(ps[1..])
  }

  lemma {:induction false} WiresAppend(a: seq<Packet>, b: seq<Packet>)
    ensures Wires(a + b) == Wires(a) + Wires(b)
  {
    if a == [] {
      assert a + b == b;
    } else {
      assert (a + b)[1..] == a[1..] + b;
      WiresAppend(a[1..], b);
      Assoc([Wire(a[0])], Wires(a[1..]), Wires(b));
    }
  }

  lemma {:induction false} PayloadsInAppend(a: seq<Packet>, b: seq<Packet>)
    ensures PayloadsIn(a + b) == PayloadsIn(a) + PayloadsIn(b)
  {
    if a == [] {
      assert a + b == b;
    } else {
      assert (a + b)[1..] == a[1..] + b;
      PayloadsInAppend(a[1..], b);
      Assoc([a[0].payload], PayloadsIn(a[1..]), PayloadsIn(b));
    }
  }

  lemma {:induction false} ParseAllInvertsWires(ps: seq<Packet>)
    ensures ParseAll(Wires(ps)) == ps
  {
    if ps != [] {
      ParseInvertsWire(ps[0]);
      assert Wires(ps)[1..] == Wires(ps[1..]);
      ParseAllInvertsWires(ps[1..]);
    }
  }

  lemma {:induction false} OnChannelFrames(channel: byte, ps: seq<Packet>, sig: byte)
    ensures OnChannel(PacketFrames(channel, ps), sig) == if channel == sig then Wires(ps) else []
  {
    if ps != [] {
      OnChannelFrames(channel, ps[1..], sig);
      assert PacketFrames(channel, ps)[1..] == PacketFrames(channel, ps[1..]);
    }
  }

  lemma ChannelsDiffer(cfg: Config, t: Track, track: Track)
    requires GoodConfig(cfg) && Sig(cfg, t) != -1 && Sig(cfg, track) != -1
    ensures Channel(cfg, t) == Sig(cfg, track) <==> t == track
  {
  }

  ghost predicate AllSetUp(cfg: Config, done: seq<Sent>) {
    forall s <- done :: Sig(cfg, s.packet.track) != -1
  }

  /** The frames of a channel are the packets of its track, in order, and nothing else. */
  lemma {:induction false} ChannelIsTrack(cfg: Config, done: seq<Sent>, track: Track)
    requires GoodConfig(cfg) && Sig(cfg, track) != -1 && AllSetUp(cfg, done)
    ensures OnChannel(AllFrames(cfg, done), Sig(cfg, track)) == Wires(TrackPackets(done, track))
  {
    if done != [] {
      var before, s := done[..|done| - 1], done[|done| - 1];
      var t := s.packet.track;
      assert s in done;
      ChannelsDiffer(cfg, t, track);
      ChannelIsTrack(cfg, before, track);
      ChannelStep(AllFrames(cfg, before), Channel(cfg, t), s.rtp, Sig(cfg, track), TrackPackets(before, track));
    }
  }

  lemma ChannelStep(frames: seq<Frame>, channel: byte, rtp: seq<Packet>, sig: byte, ps: seq<Packet>)
    requires OnChannel(frames, sig) == Wires(ps)
    ensures OnChannel(frames + PacketFrames(channel, rtp), sig) == Wires(if channel == sig then ps + rtp else ps)
  {
    OnChannelAppend(frames, PacketFrames(channel, rtp), sig);
    OnChannelFrames(channel, rtp, sig);
    WiresAppend(ps, rtp);
  }

  lemma {:induction false} NoSignalNoPackets(cfg: Config, done: seq<Sent>, track: Track)
    requires Sig(cfg, track) == -1 && AllSetUp(cfg, done)
    ensures TrackPackets(done, track) == []
  {
    if done != [] {
      assert done[|done| - 1] in done;
      NoSignalNoPackets(cfg, done[..|done| - 1], track);
    }
  }

  lemma {:induction false} PayloadsOfPackets(chunks: seq<Chunk>, first: Packet)
    ensures PayloadsIn(Packets(chunks, first)) == Payloads(chunks)
    decreases |chunks|
  {
    if chunks != [] {
      PayloadsOfPackets(chunks[1..], After(first, 1));
      assert Packets(chunks, first)[1..] == Packets(chunks[1..], After(first, 1));
    }
  }

  /** On a track's channel the receiver reads the packets of the track, and any further ones put there. */
  lemma PacketsArrive(cfg: Config, done: seq<Sent>, track: Track, more: seq<Packet>)
    requires GoodConfig(cfg) && AllSetUp(cfg, done)
    requires more != [] ==> Sig(cfg, track) != -1
    ensures PacketsOn(AllFrames(cfg, done) + PacketFrames(Channel(cfg, track), more), Sig(cfg, track))
            == TrackPackets(done, track) + more
  {
    if Sig(cfg, track) == -1 {
      NoSignalNoPackets(cfg, done, track);
      assert TrackPackets(done, track) + more == [];
    } else {
      ChannelsDiffer(cfg, track, track);
      ChannelIsTrack(cfg, done, track);
      ChannelStep(AllFrames(cfg, done), Channel(cfg, track), more, Sig(cfg, track), TrackPackets(done, track));
      ParseAllInvertsWires(TrackPackets(done, track) + more);
    }
  }

  lemma VideoUnitArrives(cfg: Config, s: Sent, rx: Receiver)
    requires s.packet.track == Video && Faithful(cfg, s) && rx.partial == None
    ensures ReceiveAll(cfg.video, rx, PayloadsIn(s.rtp)) == Receiver(rx.units + [Arrival(cfg, s)], None)
  {
    var data, buffer := s.packet.data, s.packet.data + s.tail;
    var first :| s.rtp == Packets(ChunksOf(cfg, s.packet, s.tail), first);
    PayloadsOfPackets(ChunksOf(cfg, s.packet, s.tail), first);
    if |data| > PTK_RTP_TCP_MAX {
      ReassembleFragments(cfg.video, buffer, |data|, rx);
      assert buffer[..HeaderSize(cfg.video) + |data|] == Arrival(cfg, s);
    } else {
      SinglePacketDelivery(cfg.video, buffer, |data|, rx);
      assert buffer[..|data|] == data;
    }
  }

  lemma {:induction false} VideoUnitsArrive(cfg: Config, done: seq<Sent>)
    requires forall s <- done :: Faithful(cfg, s)
    ensures ReceiveAll(cfg.video, Silent, PayloadsIn(TrackPackets(done, Video)))
            == Receiver(Expected(cfg, done, Video), None)
  {
    if done != [] {
      var before, s := done[..|done| - 1], done[|done| - 1];
      assert s in done;
      VideoUnitsArrive(cfg, before);
      if s.packet.track == Video {
        var rx := Receiver(Expected(cfg, before, Video), None);
        PayloadsInAppend(TrackPackets(before, Video), s.rtp);
        ReceiveAllAppend(cfg.video, Silent, PayloadsIn(TrackPackets(before, Video)), PayloadsIn(s.rtp));
        VideoUnitArrives(cfg, s, rx);
      }
    }
  }

  lemma {:induction false} AudioUnitsAppend(audio: AudioCodec, a: seq<seq<byte>>, b: seq<seq<byte>>)
    ensures AudioUnits(audio, a + b) == AudioUnits(audio, a) + AudioUnits(audio, b)
  {
    if a == [] {
      assert a + b == b;
    } else {
      assert (a + b)[1..] == a[1..] + b;
      AudioUnitsAppend(audio, a[1..], b);
      Assoc(AudioUnits(audio, a[..1]), AudioUnits(audio, a[1..]), AudioUnits(audio, b));
    }
  }

  lemma AudioUnitArrives(cfg: Config, s: Sent)
    requires s.packet.track == Audio && Faithful(cfg, s)
    ensures AudioUnits(cfg.audio, PayloadsIn(s.rtp)) == [Arrival(cfg, s)]
  {
    var payload := AudioPayload(cfg.audio, s.packet.data);
    var first :| s.rtp == Packets(ChunksOf(cfg, s.packet, s.tail), first);
    PayloadsOfPackets(ChunksOf(cfg, s.packet, s.tail), first);
    assert Payloads([Chunk(true, payload)]) == [payload] + Payloads([]);
    assert AudioUnits(cfg.audio, [payload][1..]) == [];
    AacRoundTrip(s.packet.data);
  }

  lemma {:induction false} AudioUnitsArrive(cfg: Config, done: seq<Sent>)
    requires forall s <- done :: Faithful(cfg, s)
    ensures AudioUnits(cfg.audio, PayloadsIn(TrackPackets(done, Audio))) == Expected(cfg, done, Audio)
  {
    if done != [] {
      var before, s := done[..|done| - 1], done[|done| - 1];
      assert s in done;
      AudioUnitsArrive(cfg, before);
      if s.packet.track == Audio {
        PayloadsInAppend(TrackPackets(before, Audio), s.rtp);
        AudioUnitsAppend(cfg.audio, PayloadsIn(TrackPackets(before, Audio)), PayloadsIn(s.rtp));
        AudioUnitArrives(cfg, s);
      }
    }
  }

  // ---------------------------------------------------------------- the main results

  lemma {:induction false} PacketFramesFit(channel: byte, ps: seq<Packet>)
    requires forall p <- ps :: |p.payload| < 0x1_0000 - RTP_HEADER_SIZE
    ensures Fits(PacketFrames(channel, ps))
  {
    if ps != [] {
      ParseInvertsWire(ps[0]);
      PacketFramesFit(channel, ps[1..]);
    }
  }

  lemma ChunksFit(cfg: Config, p: Loaded, tail: Tail, i: nat)
    requires Fit(cfg, p) && i < |ChunksOf(cfg, p, tail)|
    ensures |ChunksOf(cfg, p, tail)[i].payload| < 0x1_0000 - RTP_HEADER_SIZE
  {
    if p.track == Video && |p.data| > PTK_RTP_TCP_MAX {
      var buffer := p.data + tail;
      FuChunkAt(FuPrefix(cfg.video, buffer), NalType(cfg.video, buffer),
                buffer[HeaderSize(cfg.video)..Carried(cfg.video, |p.data|)], true, i);
    }
  }

  lemma RtpFits(cfg: Config, p: Loaded, tail: Tail, first: Packet, channel: byte)
    requires Fit(cfg, p)
    ensures Fits(PacketFrames(channel, Packets(ChunksOf(cfg, p, tail), first)))
  {
    var chunks := ChunksOf(cfg, p, tail);
    forall q | q in Packets(chunks, first)
      ensures |q.payload| < 0x1_0000 - RTP_HEADER_SIZE
    {
      PacketsAllNumbered(chunks, first);
      var i :| 0 <= i < |chunks| && Packets(chunks, first)[i] == q;
      PacketNumbers(chunks, first, i);
      ChunksFit(cfg, p, tail, i);
    }
    PacketFramesFit(channel, Packets(chunks, first));
  }

  lemma {:induction false} AllFramesFit(cfg: Config, done: seq<Sent>)
    requires forall s <- done :: Faithful(cfg, s)
    ensures Fits(AllFrames(cfg, done))
  {
    if done != [] {
      var s := done[|done| - 1];
      assert s in done;
      var first :| s.rtp == Packets(ChunksOf(cfg, s.packet, s.tail), first);
      AllFramesFit(cfg, done[..|done| - 1]);
      RtpFits(cfg, s.packet, s.tail, first, Channel(cfg, s.packet.track));
    }
  }

  /** Whatever the order in which the media thread delivers, the epoll thread takes and the epoll thread
      sends: the client recovers, track by track and in order, exactly the packets sent so far, and
      nothing is lost or doubled between the media thread and the socket. */
  lemma EndToEnd(cfg: Config, events: seq<Event>)
    requires GoodConfig(cfg) && AllFit(cfg, events)
    ensures var c := Run(cfg, events);
            var wire := Flatten(c.writes);
            && Deframe(wire).rest == []
            && VideoArrivals(cfg, wire) == Expected(cfg, c.done, Video)
            && AudioArrivals(cfg, wire) == Expected(cfg, c.done, Audio)
            && NonEmpty(c.accepted) == PacketsSent(c.done) + Held(c) + NonEmpty(c.queue)
  {
    var c := Run(cfg, events);
    InvAlways(cfg, events);
    assert AllSetUp(cfg, c.done);
    AllFramesFit(cfg, c.done);
    UniquelyDecodable(AllFrames(cfg, c.done));
    TracksArrive(cfg, c.done);
  }

  lemma TracksArrive(cfg: Config, done: seq<Sent>)
    requires GoodConfig(cfg) && AllSetUp(cfg, done) && forall s <- done :: Faithful(cfg, s)
    ensures PacketsOn(AllFrames(cfg, done), cfg.sig0) == TrackPackets(done, Video)
    ensures PacketsOn(AllFrames(cfg, done), cfg.sig2) == TrackPackets(done, Audio)
    ensures ReceiveAll(cfg.video, Silent, PayloadsIn(TrackPackets(done, Video)))
         == Receiver(Expected(cfg, done, Video), None)
    ensures AudioUnits(cfg.audio, PayloadsIn(TrackPackets(done, Audio))) == Expected(cfg, done, Audio)
  {
    var frames := AllFrames(cfg, done);
    PacketsArrive(cfg, done, Video, []);
    PacketsArrive(cfg, done, Audio, []);
    assert frames + [] == frames;
    assert TrackPackets(done, Video) + [] == TrackPackets(done, Video);
    assert TrackPackets(done, Audio) + [] == TrackPackets(done, Audio);
    VideoUnitsArrive(cfg, done);
    AudioUnitsArrive(cfg, done);
  }

  /** On each channel the packets are numbered consecutively from 0, modulo 2^16, over the whole run. */
  lemma SequenceNumbers(cfg: Config, events: seq<Event>, track: Track)
    requires GoodConfig(cfg) && AllFit(cfg, events)
    ensures var c := Run(cfg, events);
            Numbered(PacketsOn(Deframe(Flatten(c.writes)).frames, Sig(cfg, track)), SeqOf(c, track))
  {
    var c := Run(cfg, events);
    InvAlways(cfg, events);
    assert AllSetUp(cfg, c.done);
    AllFramesFit(cfg, c.done);
    UniquelyDecodable(AllFrames(cfg, c.done));
    TracksArrive(cfg, c.done);
  }

  lemma {:induction false} TcpWriteCount(channel: byte, ps: seq<Packet>)
    ensures |WritesAll(Tcp(channel), ps)| == 2 * |ps|
  {
    if ps != [] {
      TcpWriteCount(channel, ps[1..]);
    }
  }

  lemma FirstWrites(channel: byte, ps: seq<Packet>, k: nat)
    requires k < 2 * |ps|
    ensures |WritesAll(Tcp(channel), ps)| == 2 * |ps|
    ensures WritesAll(Tcp(channel), ps)[..k]
            == WritesAll(Tcp(channel), ps[..k / 2])
               + (if k % 2 == 0 then [] else [Header(channel, |Wire(ps[k / 2])|)])
  {
    hide Wire, Header;
    var m := k / 2;
    assert ps == ps[..m] + ps[m..];
    WritesAllAppend(Tcp(channel), ps[..m], ps[m..]);
    TcpWriteCount(channel, ps);
    TcpWriteCount(channel, ps[..m]);
  }

  /** The first k writes for some packets: whole frames, and for an odd k the header of one more. */
  lemma BrokenWrites(channel: byte, ps: seq<Packet>, k: nat)
    requires k < 2 * |ps|
    ensures |WritesAll(Tcp(channel), ps)| == 2 * |ps|
    ensures Flatten(WritesAll(Tcp(channel), ps)[..k])
            == PrintAll(PacketFrames(channel, ps[..k / 2]))
               + (if k % 2 == 0 then [] else Header(channel, |Wire(ps[k / 2])|))
  {
    hide Wire, Header, WritesAll, PrintAll, PacketFrames;
    FirstWrites(channel, ps, k);
    WritesAreFrames(channel, ps[..k / 2]);
    var whole := WritesAll(Tcp(channel), ps[..k / 2]);
    if k % 2 == 0 {
      assert whole + [] == whole;
      assert Flatten(whole) + [] == Flatten(whole);
    } else {
      var header := Header(channel, |Wire(ps[k / 2])|);
      FlattenAppend(whole, [header]);
      assert Flatten([header]) == header + [];
    }
  }

  /** When the connection breaks during a send, what the client has by then is what had been sent before:
      the packet in flight is not delivered, neither in part nor as anything else. */
  lemma BrokenSend(cfg: Config, events: seq<Event>, tail: Tail, timestamp: u32, k: nat)
    requires GoodConfig(cfg) && AllFit(cfg, events)
    requires var c := Run(cfg, events);
             c.node.Some? && k < |WritesAll(RouteFor(cfg, c.node.value.track), RtpFor(cfg, c, tail, timestamp))|
    ensures var c := Run(cfg, events);
            var plan := WritesAll(RouteFor(cfg, c.node.value.track), RtpFor(cfg, c, tail, timestamp));
            var wire := Flatten(c.writes + plan[..k]);
            && VideoArrivals(cfg, wire) == Expected(cfg, c.done, Video)
            && AudioArrivals(cfg, wire) == Expected(cfg, c.done, Audio)
  {
    var c := Run(cfg, events);
    InvAlways(cfg, events);
    var p, rtp := c.node.value, RtpFor(cfg, c, tail, timestamp);
    assert p in Held(c);
    var channel := Channel(cfg, p.track);
    assert AllSetUp(cfg, c.done);
    TcpWriteCount(channel, rtp);
    PacketsAllNumbered(ChunksOf(cfg, p, tail), FirstOf(cfg, c, p.track, timestamp));
    BrokenStream(cfg, c.done, c.writes, channel, rtp, k, p, tail, FirstOf(cfg, c, p.track, timestamp));
    BrokenTracks(cfg, c.done, p, tail, FirstOf(cfg, c, p.track, timestamp), k / 2);
  }

  /** The receiver recognises the frames that were completed. */
  lemma BrokenStream(cfg: Config, done: seq<Sent>, writes: seq<seq<byte>>, channel: byte, rtp: seq<Packet>, k: nat,
                     p: Loaded, tail: Tail, first: Packet)
    requires forall s <- done :: Faithful(cfg, s)
    requires Flatten(writes) == PrintAll(AllFrames(cfg, done))
    requires Fit(cfg, p) && rtp == Packets(ChunksOf(cfg, p, tail), first) && k < 2 * |rtp|
    ensures |WritesAll(Tcp(channel), rtp)| == 2 * |rtp|
    ensures Deframe(Flatten(writes + WritesAll(Tcp(channel), rtp)[..k])).frames
            == AllFrames(cfg, done) + PacketFrames(channel, rtp[..k / 2])
  {
    var m := k / 2;
    var whole, more := AllFrames(cfg, done), PacketFrames(channel, rtp[..m]);
    var rest := if k % 2 == 0 then [] else Header(channel, |Wire(rtp[m])|);
    BrokenWrites(channel, rtp, k);
    FlattenAppend(writes, WritesAll(Tcp(channel), rtp)[..k]);
    PrintAllAppend(whole, more);
    Assoc(PrintAll(whole), PrintAll(more), rest);
    AllFramesFit(cfg, done);
    RtpFits(cfg, p, tail, first, channel);
    FramesAreFrames(channel, rtp, m);
    if k % 2 == 1 {
      var f := Frame(channel, Wire(rtp[m]));
      assert rest == Print(f)[..4];
      ParseInvertsWire(rtp[m]);
      assert Incomplete(rest, f);
    }
    DeframeInvertsPrint(whole + more, rest);
  }

  lemma {:induction false} FramesAreFrames(channel: byte, ps: seq<Packet>, m: nat)
    requires m < |ps| && Fits(PacketFrames(channel, ps))
    ensures Fits(PacketFrames(channel, ps[..m]))
    ensures |Wire(ps[m])| < 0x1_0000
    decreases m
  {
    var frames := PacketFrames(channel, ps);
    assert frames[0] in frames && frames[0] == Frame(channel, Wire(ps[0]));
    if m > 0 {
      assert frames[1..] == PacketFrames(channel, ps[1..]);
      FramesAreFrames(channel, ps[1..], m - 1);
      assert ps[..m][1..] == ps[1..][..m - 1];
    }
  }

  /** The completed packets of the interrupted unit add nothing to what was delivered. */
  lemma BrokenTracks(cfg: Config, done: seq<Sent>, p: Loaded, tail: Tail, first: Packet, m: nat)
    requires GoodConfig(cfg) && AllSetUp(cfg, done) && Carries(cfg, p)
    requires forall s <- done :: Faithful(cfg, s)
    requires m < |Packets(ChunksOf(cfg, p, tail), first)|
    ensures var frames := AllFrames(cfg, done)
                          + PacketFrames(Channel(cfg, p.track), Packets(ChunksOf(cfg, p, tail), first)[..m]);
            && ReceiveAll(cfg.video, Silent, PayloadsIn(PacketsOn(frames, cfg.sig0))).units == Expected(cfg, done, Video)
            && AudioUnits(cfg.audio, PayloadsIn(PacketsOn(frames, cfg.sig2))) == Expected(cfg, done, Audio)
  {
    var chunks := ChunksOf(cfg, p, tail);
    var rtp := Packets(chunks, first);
    var more := rtp[..m];
    var video, audio := TrackPackets(done, Video), TrackPackets(done, Audio);
    PacketsAllNumbered(chunks, first);
    TracksArrive(cfg, done);
    if p.track == Video {
      PacketsArrive(cfg, done, Video, more);
      OtherChannel(cfg, done, Video, Audio, more);
      PayloadsInAppend(video, more);
      BrokenPayloads(chunks, first, m);
      ReceiveAllAppend(cfg.video, Silent, PayloadsIn(video), PayloadsIn(more));
      CutShort(cfg.video, p.data + tail, |p.data|, Receiver(Expected(cfg, done, Video), None), m);
    } else {
      assert more == [];
      assert AllFrames(cfg, done) + [] == AllFrames(cfg, done);
    }
  }

  lemma BrokenPayloads(chunks: seq<Chunk>, first: Packet, m: nat)
    requires m <= |chunks| == |Packets(chunks, first)|
    ensures PayloadsIn(Packets(chunks, first)[..m]) == Payloads(chunks)[..m]
  {
    var rtp := Packets(chunks, first);
    PayloadsOfPackets(chunks, first);
    assert rtp == rtp[..m] + rtp[m..];
    PayloadsInAppend(rtp[..m], rtp[m..]);
    PayloadsInCount(rtp[..m]);
  }

  lemma {:induction false} PayloadsInCount(ps: seq<Packet>)
    ensures |PayloadsIn(ps)| == |ps|
  {
    if ps != [] {
      PayloadsInCount(ps[1..]);
    }
  }

  lemma OtherChannel(cfg: Config, done: seq<Sent>, t: Track, other: Track, more: seq<Packet>)
    requires GoodConfig(cfg) && AllSetUp(cfg, done) && t != other && Sig(cfg, t) != -1
    ensures PacketsOn(AllFrames(cfg, done) + PacketFrames(Channel(cfg, t), more), Sig(cfg, other))
         == TrackPackets(done, other)
  {
    if Sig(cfg, other) == -1 {
      NoSignalNoPackets(cfg, done, other);
    } else {
      ChannelsDiffer(cfg, t, other);
      ChannelIsTrack(cfg, done, other);
      ChannelStep(AllFrames(cfg, done), Channel(cfg, t), more, Sig(cfg, other), TrackPackets(done, other));
      ParseAllInvertsWires(TrackPackets(done, other));
    }
  }
}
