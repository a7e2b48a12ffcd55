/** A client as the server keeps it: two rings, two RTP packet buffers, its sockets; and the three things
    that happen to it. For a TCP client each of them is the corresponding step of `ClientRun`, for a UDP client
    the step of `UdpRun` on one of its sockets. */
module ClientInfo {
  import opened Bytes
  import opened Rtp
  import opened NalUnits
  import opened Ring
  import opened ClientRun
  import opened UdpRun
  import H264Sender
  import H265Sender
  import AudioSender

  /** What the epoll thread was woken for. */
  datatype Descriptor = TcpSocket | UdpVideo | UdpAudio

  class ClientInfo {
    const cfg: Config              // the session's media; the interleaved channels or -1
    const clientRtpPort: int       // UDP only, else -1
    const clientRtpPort1: int
    const sd: Socket
    const udpSdRtp: Socket
    const udpSdRtp1: Socket
    const rtpPacket: RtpPacket     // video
    const rtpPacket1: RtpPacket    // audio
    const tcpHeader: TcpHeader
    const ring: PacketRing<MediaPacket>
    const ring1: PacketRing<MediaPacket>

    ghost predicate Valid()
      reads this, ring, ring1, ring.packetList, ring1.packetList
    {
      && ring.Valid() && ring1.Valid() && ring != ring1 && ring.packetList != ring1.packetList
      && rtpPacket.Valid() && rtpPacket1.Valid() && rtpPacket != rtpPacket1 && rtpPacket.payload != rtpPacket1.payload
      && rtpPacket.payloadType == TypeOf(cfg, Video) && rtpPacket1.payloadType == TypeOf(cfg, Audio)
      && sd != udpSdRtp && sd != udpSdRtp1 && udpSdRtp != udpSdRtp1
    }

    constructor (cfg: Config, clientRtpPort: int, clientRtpPort1: int, sd: Socket, udpSdRtp: Socket, udpSdRtp1: Socket)
      requires sd != udpSdRtp && sd != udpSdRtp1 && udpSdRtp != udpSdRtp1
      ensures Valid() && fresh(ring) && fresh(ring1) && fresh(rtpPacket) && fresh(rtpPacket1) && fresh(tcpHeader)
      ensures this.cfg == cfg && this.clientRtpPort == clientRtpPort && this.clientRtpPort1 == clientRtpPort1
      ensures this.sd == sd && this.udpSdRtp == udpSdRtp && this.udpSdRtp1 == udpSdRtp1
      ensures ring.Contents() == [] == ring1.Contents()
      ensures rtpPacket.payloadType == 96 && rtpPacket1.payloadType == (match cfg.audio case AAC => 97 case PCMA => 8)
      ensures sd.sent == [] ==> Shows(Joined)
      ensures udpSdRtp.sent == [] ==> ShowsFlow(Video, Opened)
      ensures udpSdRtp1.sent == [] ==> ShowsFlow(Audio, Opened)
    {
      this.cfg, this.clientRtpPort, this.clientRtpPort1 := cfg, clientRtpPort, clientRtpPort1;
      this.sd, this.udpSdRtp, this.udpSdRtp1 := sd, udpSdRtp, udpSdRtp1;
      rtpPacket := new RtpPacket(TypeOf(cfg, Video));
      rtpPacket1 := new RtpPacket(TypeOf(cfg, Audio));
      tcpHeader := new TcpHeader();
      ring := new PacketRing<MediaPacket>();
      ring1 := new PacketRing<MediaPacket>();
    }

    /** The state of the run, seen in the fields. The packet between taking and sending is a local
        variable of the epoll thread. */
    ghost predicate Shows(c: Client)
      reads this, ring, ring.packetList, rtpPacket, rtpPacket1, sd
      requires ring.Valid()
    {
      && c.queue == ring.Contents()
      && c.videoSeq == rtpPacket.seqNo && rtpPacket.ssrc == SSRC
      && c.audioSeq == rtpPacket1.seqNo && rtpPacket1.ssrc == SSRC
      && c.writes == sd.sent
    }

    /** `sendData`: both rings get room, then the packet goes where this client keeps its track. */
    method SendData(nowStreamIsVideo: bool, nowStreamIsAudio: bool, data: seq<byte>)
      requires Valid() && !(nowStreamIsVideo && nowStreamIsAudio)
      modifies ring, ring1, ring.packetList, ring1.packetList
      ensures Valid()
      ensures ring.Contents() == old(ring.Contents())
                + (if nowStreamIsVideo && (cfg.sig0 != -1 || clientRtpPort != -1) then [MediaPacket(Video, data)] else [])
                + (if nowStreamIsAudio && clientRtpPort1 == -1 && cfg.sig2 != -1 then [MediaPacket(Audio, data)] else [])
      ensures ring1.Contents() == old(ring1.Contents())
                + (if nowStreamIsAudio && clientRtpPort1 != -1 then [MediaPacket(Audio, data)] else [])
      ensures ring.packetList == old(ring.packetList) || fresh(ring.packetList)
      ensures ring1.packetList == old(ring1.packetList) || fresh(ring1.packetList)
    {
      hide QueueOf, Wrap;
      ring.Increase();
      ring1.Increase();
      if nowStreamIsVideo && (cfg.sig0 != -1 || clientRtpPort != -1) {
        ring.Enqueue(MediaPacket(Video, data));
      }
      if nowStreamIsAudio && (cfg.sig2 != -1 || clientRtpPort1 != -1) {
        if clientRtpPort1 != -1 {
          ring1.Enqueue(MediaPacket(Audio, data));
        } else if cfg.sig2 != -1 {
          ring.Enqueue(MediaPacket(Audio, data));
        }
      }
    }

    /** `SendData` for a TCP client is the callback step. */
    method SendDataTcp(packet: MediaPacket, ghost c: Client)
      requires Valid() && clientRtpPort == -1 == clientRtpPort1 && Shows(c)
      modifies ring, ring1, ring.packetList, ring1.packetList
      ensures Valid() && Shows(Step(cfg, c, Callback(packet)))
    {
      SendData(packet.track == Video, packet.track == Audio, packet.data);
      assert c.queue + [] == c.queue;
    }

    /** The epoll thread's dequeue: the oldest packet of the ring that the descriptor stands for. A packet
        without data is taken out but not sent. */
    method TakePacket(fd: Descriptor) returns (node: Option<Loaded>)
      requires Valid()
      modifies ring, ring1
      ensures Valid() && ring.packetList == old(ring.packetList) && ring1.packetList == old(ring1.packetList)
      ensures var first := fd == UdpVideo || (fd == TcpSocket && (cfg.sig0 != -1 || cfg.sig2 != -1));
              var queue := if first then old(ring.Contents()) else old(ring1.Contents());
              var known := first || fd == UdpAudio;
              && ring.Contents() == (if first && queue != [] then queue[1..] else old(ring.Contents()))
              && ring1.Contents() == (if fd == UdpAudio && queue != [] then queue[1..] else old(ring1.Contents()))
              && node == (if known && queue != [] && queue[0].data != [] then Some(queue[0]) else None)
    {
      var taken: Option<MediaPacket> := None;
      if fd == TcpSocket && (cfg.sig0 != -1 || cfg.sig2 != -1) {
        taken := ring.Dequeue();
      } else if fd == UdpVideo {
        taken := ring.Dequeue();
      } else if fd == UdpAudio {
        taken := ring1.Dequeue();
      }
      node := if taken.Some? && taken.value.data != [] then Some(taken.value) else None;
    }

    /** `TakePacket` for a TCP client is the taking step. */
    method TakeTcp(ghost c: Client) returns (node: Option<Loaded>)
      requires Valid() && Shows(c) && c.node == None && (cfg.sig0 != -1 || cfg.sig2 != -1)
      modifies ring, ring1
      ensures Valid() && Shows(Step(cfg, c, Take)) && node == Step(cfg, c, Take).node
    {
      node := TakePacket(TcpSocket);
    }

    /** Sends a packet by the packetizer for its track. `tail` is what lies behind the packet in the buffer. */
    method SendPacket(node: Loaded, tail: Tail, timestamp: u32, overTcp: bool) returns (ret: int)
      requires Valid() && |node.data| <= 2 * 1024 * 1024
      modifies rtpPacket, rtpPacket.payload, rtpPacket1, rtpPacket1.payload, sd, udpSdRtp, udpSdRtp1, tcpHeader
      ensures var rtp := if node.track == Video then rtpPacket else rtpPacket1;
              var other := if node.track == Video then rtpPacket1 else rtpPacket;
              var sock := if overTcp then sd else if node.track == Video then udpSdRtp else udpSdRtp1;
              var port := if node.track == Video then clientRtpPort else clientRtpPort1;
              var route := if overTcp then RouteFor(cfg, node.track) else RouteOf(false, -1, true, port);
              var first := Packet(true, rtp.payloadType, old(rtp.seqNo), timestamp, old(rtp.ssrc), []);
              var chunks := ChunksOf(cfg, node, tail);
              var plan := Plan(route, chunks, first);
              && Wrote(plan, old(sock.sent), old(sock.quota), sock.sent, sock.quota)
              && (TakesAll(route, plan, old(sock.quota)) ==>
                    rtp.seqNo == After(first, |chunks|).seqNo && rtp.ssrc == old(rtp.ssrc))
              && (!TakesAll(route, plan, old(sock.quota)) ==> ret <= 0)
              && (TakesAll(route, plan, old(sock.quota)) && (overTcp || node.track == Video) ==> ret > 0)
              && other.seqNo == old(other.seqNo) && other.ssrc == old(other.ssrc)
              && (forall s: Socket | s in {sd, udpSdRtp, udpSdRtp1} && s != sock ::
                    s.sent == old(s.sent) && s.quota == old(s.quota))
    {
      hide QueueOf, Wrap, Wrote, Plan, Writes;
      if node.track == Video {
        var sock := if overTcp then sd else udpSdRtp;
        var route := if overTcp then RouteOf(true, cfg.sig0, false, -1) else RouteOf(false, -1, true, clientRtpPort);
        if cfg.video == H264 {
          ret := H264Sender.RtpSendH264Frame(sock, tcpHeader, rtpPacket, node.data + tail, |node.data|, timestamp, route);
        } else {
          ret := H265Sender.RtpSendH265Frame(sock, tcpHeader, rtpPacket, node.data + tail, |node.data|, timestamp, route);
        }
      } else {
        var sock := if overTcp then sd else udpSdRtp1;
        var route := if overTcp then RouteOf(true, cfg.sig2, false, -1) else RouteOf(false, -1, true, clientRtpPort1);
        if cfg.audio == AAC {
          ret := AudioSender.RtpSendAACFrame(sock, tcpHeader, rtpPacket1, node.data, timestamp, route);
        } else {
          ret := AudioSender.RtpSendPCMAFrame(sock, tcpHeader, rtpPacket1, node.data, timestamp, route);
        }
      }
    }

    /** `SendPacket` for a TCP client is the transmitting step if it succeeds; if it fails, a proper part of
        the writes of that step has happened. */
    method TransmitTcp(node: Loaded, tail: Tail, timestamp: u32, ghost c: Client) returns (ret: int)
      requires Valid() && Shows(c) && c.node == Some(node) && |node.data| <= 2 * 1024 * 1024
      requires GoodConfig(cfg) && Sig(cfg, node.track) != -1
      modifies rtpPacket, rtpPacket.payload, rtpPacket1, rtpPacket1.payload, sd, udpSdRtp, udpSdRtp1, tcpHeader
      ensures Valid()
      ensures ret > 0 ==> Shows(Step(cfg, c, Transmit(tail, timestamp)))
      ensures ret <= 0 ==> var plan := WritesAll(RouteFor(cfg, node.track), RtpFor(cfg, c, tail, timestamp));
                           old(sd.quota) < |plan| && sd.sent == c.writes + plan[..old(sd.quota)]
    {
      hide QueueOf, Wrap, Packets, Chunks, WritesAll;
      ghost var rtp := RtpFor(cfg, c, tail, timestamp);
      ghost var plan := WritesAll(RouteFor(cfg, node.track), rtp);
      PacketsAllNumbered(ChunksOf(cfg, node, tail), FirstOf(cfg, c, node.track, timestamp));
      ret := SendPacket(node, tail, timestamp, true);
      assert plan[..|plan|] == plan;
    }

    // -------------------------------------------------------------- a UDP client

    function Other(track: Track): Track {
      if track == Video then Audio else Video
    }

    predicate OverUdp() {
      cfg.sig0 == -1 == cfg.sig2
    }

    function PortFor(track: Track): int {
      if track == Video then clientRtpPort else clientRtpPort1
    }

    function SocketFor(track: Track): Socket {
      if track == Video then udpSdRtp else udpSdRtp1
    }

    function AloneOn(track: Track): Config {
      Alone(cfg, track, PortFor(track))
    }

    /** The state of the flow on the track's socket, seen in the fields. */
    ghost predicate ShowsFlow(track: Track, f: Flow)
      reads this, ring, ring.packetList, ring1, ring1.packetList, rtpPacket, rtpPacket1, udpSdRtp, udpSdRtp1
      requires ring.Valid() && ring1.Valid()
    {
      var rtp := if track == Video then rtpPacket else rtpPacket1;
      && f.client.queue == (if track == Video then ring.Contents() else ring1.Contents())
      && SeqOf(f.client, track) == rtp.seqNo && rtp.ssrc == SSRC
      && f.datagrams == SocketFor(track).sent
    }

    /** `SendData` for a UDP client is the callback step of both flows: one of them takes the packet. */
    method SendDataUdp(packet: MediaPacket, ghost video: Flow, ghost audio: Flow)
      requires Valid() && OverUdp() && ShowsFlow(Video, video) && ShowsFlow(Audio, audio)
      modifies ring, ring1, ring.packetList, ring1.packetList
      ensures Valid() && ShowsFlow(Video, StepFlow(AloneOn(Video), video, Callback(packet)))
      ensures ShowsFlow(Audio, StepFlow(AloneOn(Audio), audio, Callback(packet)))
    {
      SendData(packet.track == Video, packet.track == Audio, packet.data);
      assert video.client.queue + [] == video.client.queue;
      assert audio.client.queue + [] == audio.client.queue;
      assert video.datagrams + [] == video.datagrams;
      assert audio.datagrams + [] == audio.datagrams;
    }

    /** `TakePacket` for a UDP client is the taking step of the flow that the descriptor stands for; the other flow
        stays as it is. */
    method TakeUdp(track: Track, ghost f: Flow, ghost other: Flow) returns (node: Option<Loaded>)
      requires Valid() && OverUdp() && f.client.node == None
      requires ShowsFlow(track, f) && ShowsFlow(Other(track), other)
      modifies ring, ring1
      ensures Valid() && ShowsFlow(track, StepFlow(AloneOn(track), f, Take))
      ensures node == StepFlow(AloneOn(track), f, Take).client.node
      ensures ShowsFlow(Other(track), other)
    {
      node := TakePacket(if track == Video then UdpVideo else UdpAudio);
      assert f.datagrams + [] == f.datagrams;
    }

    /** `SendPacket` for a UDP client is the transmitting step of the packet's flow if the socket takes every
        datagram; if not, a proper part of the datagrams of that step has gone out and the failure is reported. For a
        track without a port nothing goes out. The other flow stays as it is. */
    method TransmitUdp(node: Loaded, tail: Tail, timestamp: u32, ghost f: Flow, ghost other: Flow) returns (ret: int)
      requires Valid() && OverUdp() && |node.data| <= 2 * 1024 * 1024
      requires f.client.node == Some(node) && ShowsFlow(node.track, f)
      requires ShowsFlow(Other(node.track), other)
      modifies rtpPacket, rtpPacket.payload, rtpPacket1, rtpPacket1.payload, sd, udpSdRtp, udpSdRtp1, tcpHeader
      ensures Valid() && ShowsFlow(Other(node.track), other)
      ensures var sock := SocketFor(node.track);
              var plan := Datagrams(AloneOn(node.track), f.client, Transmit(tail, timestamp));
              if PortFor(node.track) == -1 then
                ret <= 0 && sock.sent == f.datagrams
              else if |plan| <= old(sock.quota) then
                ShowsFlow(node.track, StepFlow(AloneOn(node.track), f, Transmit(tail, timestamp)))
              else
                ret <= 0 && sock.sent == f.datagrams + plan[..old(sock.quota)]
    {
      hide QueueOf, Wrap, Packets, Chunks, WritesAll;
      ghost var alone := AloneOn(node.track);
      ghost var plan := Datagrams(alone, f.client, Transmit(tail, timestamp));
      PacketsAllNumbered(ChunksOf(cfg, node, tail), FirstOf(alone, f.client, node.track, timestamp));
      if PortFor(node.track) == -1 {
        PlanNoRoute(ChunksOf(cfg, node, tail), FirstOf(alone, f.client, node.track, timestamp));
      }
      ret := SendPacket(node, tail, timestamp, false);
      assert plan[..|plan|] == plan;
    }
  }
}
