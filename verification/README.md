# simple-rtsp-server: verification model

A Dafny 4.11 model of the server's data path and of the bookkeeping around it, with proofs. Check it with
`dafny verify dfyconfig.toml`.

The server splits a media file into packets, gives every client of a session a copy in the client's ring, and lets
one epoll thread packetize and send what the rings hold. The model follows that path:

- **Splitter** (`AnnexB`, `Media`): the cursor over one buffer, the hand-off of units to the callback, and the
  partition and round-trip laws of the byte stream of Annex B of ITU-T H.264 and H.265.
- **Rings** (`Ring`): the ring that grows in the middle, as a class over an array, against a queue.
- **Packetizers** (`Rtp`, `NalUnits`, `FragmentSender`, `H264Sender`, `H265Sender`, `AudioSender`, `Interleaved`):
  the mutable header that changes its byte order around every write, single packets and fragments (sections 5.6 and
  5.8 of RFC 6184, sections 4.4.1 and 4.4.3 of RFC 7798, section 3.3.6 of RFC 3640), and frames on the RTSP
  connection (section 10.12 of RFC 2326). The receiving side is a separate, pure definition.
- **One client over time** (`ClientRun`, `UdpRun`, `Headers`, `ClientInfo`, `Playback`): every interleaving of
  callbacks, dequeues and sends of a TCP client and of each socket of a UDP client, from the packets accepted to the
  units the client recovers, and what their headers say; the class whose methods are those steps; and the way from the
  splitter's buffer to the client.
- **A session** (`Slots`, `Broadcast`): slots, joins, departures, and who hears a callback.
- **All threads** (`Server`): any number of client threads, the epoll thread and one media thread in each session, as
  atomic steps over the session table, the slots, the counts, the media contexts and the five kinds of mutex, under
  every schedule. `ServerLocks`, `ServerInv`, `ServerClients` and `ServerEpoll` build the invariant, `ServerRuns` and
  `ServerRaces` say what holds of every run and what goes wrong in some, `ServerAccess` which locks guard what,
  `ServerLife` how a session lives and ends, `ServerEvents` what becomes of epoll's events, `ServerFind` and
  `ServerServed` what becomes of a client, and `ServerProgress` that threads get on.
- **Streaming MD5** (`Md5Standard`, `Md5Rounds`, `Md5`, `Md5Context`): the unrolled compression against the loop of
  RFC 1321 with its functions given bit by bit, and the context against the digest of the whole message.
- **In-place reframing** (`Reframe`): the camera demo's rewrite of length prefixes.

`Bits` and `Bytes` hold C's bitwise operators on unsigned values, byte orders and concatenation.

Five results say when the code does not do what it is for:

- A client stays synchronised exactly as long as every packet of its tracks comes while its slot is below `count`,
  where the callback loop ends (`Broadcast.StaysInStep`), and never catches up afterwards (`Broadcast.FallsBehind`).
  All clients do at all times when whoever leaves is in the highest taken slot; after any other departure the top
  client is passed by (`Broadcast.Coverage`, `Broadcast.PackedIffLeftFromTop`, `Broadcast.LastClientGoesSilent`).
- A fragmented unit arrives with one or two foreign bytes behind it, because the fragment counts come from the whole
  size while copying starts behind the NAL header (`NalUnits.ReassembleFragments`).
- A buffer that does not begin with a start code is never used up, and calls back with a negative length in every turn
  (`Media.MediaInfo.DeliverBuffer`). A client whose video is set up would copy by that length (session.c:609); the
  model goes on only as long as nobody does.
- Between the search for a session and the storing of a new one the table is not locked (session.c:885-888). The
  threads' model has that gap. A client that stores over an entry filled meanwhile, or past the end of a full table,
  ends the modelled run. `ServerRuns.StaysFree` says that only another client's storing at the same entry leads there,
  `ServerRuns.OverwritingKeepsTotal` exactly when it matters, and `ServerRaces.ClashIsReachable` that it can happen.
- `delSession` frees the media context before it has any lock (session.c:747, media.c:360-389), while the session is
  still in the table. A client that joins in between asks the freed context for the audio type (session.c:869).
  `ServerRuns.OnlyJoinersReadFreedMedia` says exactly which steps do so, and `ServerRaces.FreedReadIsReachable` that it
  can happen.

`ServerRuns.OnlyTheseBreak` joins the last two: in a reachable state nothing else uses freed memory or a wrong entry of
the table. The laws over all threads hold for every run without the first of them, and also for runs that go on after
the second as if the value read did not matter.

## Model

| member | source | states |
|---|---|---|
| `AnnexB.NextCodeIsLeftmost` | media.c:53-64 | the scan stops at the leftmost start code at or behind its start: no earlier position holds one |
| `AnnexB.CutsPartition` | media.c:23-79 | the cuts concatenate to the whole buffer; each begins with a start code and has no other behind it |
| `AnnexB.RoundTrip` | media.c:23-79 | units joined by any mix of 3- and 4-byte start codes come back exactly, if and only if no unit holds 00 00 01 and none that ends in 00 stands before a 3-byte code |
| `Media.PaddingHidesNothing` | media.c:7-21 | with four zero bytes behind the data, the look-ahead past its end finds no start code that the data does not hold |
| `Media.DeliversTheCuts` | media.c:176-184 | from a buffer that begins with a start code the loop delivers the payloads of its cuts, in order, each once |
| `Media.DeliversTheUnits` | media.c:176-184 | what reaches the callback of a joined stream is the list of units, if and only if they are separable |
| `Media.MediaInfo.GetNALUFromBuf` | media.c:23-79 | size, cursor and state after one scan in all three cases: end of data, no start code at the cursor (nothing changes), and a unit up to the leftmost next start code or the end |
| `Media.MediaInfo.PraseFrame` | media.c:81-108 | the READ/WRITE hand-off: nothing moves while the frame is unread or the buffer used up, else one unit moves |
| `Media.MediaInfo.GetVideoNALUWithoutStartCode` | media.c:333-348 | the callback sees the unit behind its start code, whatever the frame state was, because the test assigns; -1 and nothing seen or changed while an audio packet is on hand |
| `Media.MediaInfo.Turn` | media.c:180-184 | one turn advances by at least 3 and delivers exactly the next cut; without a start code it changes nothing but calls back with a negative length |
| `Media.MediaInfo.DeliverBuffer` | media.c:176-184 | all cuts are delivered once and in order, and the buffer ends writable exactly when there were turns enough; an empty buffer takes one callback, with a negative length; a buffer that does not begin with a start code is not used up by any number of turns, each of which calls back with a negative length |
| `Playback.UnitsReachTheClient` | session.c:592-651 | what the splitter delivers of separable units that the payload format can carry, given to a TCP client by callbacks among any dequeues and sends: exactly the units are accepted, the client recovers the first of the non-empty ones in order with their known tails, and all of them once the ring is empty and nothing is in hand |
| `Ring.GrowthKeepsQueue` | session.c:572-578 | opening a gap of four slots before the head of a full ring keeps every unread packet and their order, and puts the tail at the start of the gap |
| `Ring.AppendToQueue` | session.c:609-617 | storing at the tail appends to the queue |
| `Ring.TakeFromQueue` | session.c:417-428 | reading at the head and advancing removes the first of the queue |
| `Ring.MoveUp` | session.c:575-575 | the overlapping move carries the old contents, not the ones it has just written |
| `Ring.PacketRing.Increase` | session.c:567-591 | the queue is unchanged and there is room for one packet; capacity grows by four exactly when the ring was full, and stays a multiple of 4 within max(8, 4 + peak occupancy) |
| `Ring.PacketRing.Enqueue` | session.c:609-617 | with room, the packet goes in bounds to a slot without an unread packet, and the queue becomes the old one and the packet |
| `Ring.PacketRing.Dequeue` | session.c:417-428 | the head of the queue is returned and removed; an empty ring is left alone |
| `Rtp.ParseInvertsWire` | common.h:56-82 | the 12-byte header of section 5.1 of RFC 3550 and the payload are recovered from the bytes written |
| `Rtp.WireImage` | common.h:56-75 | byte by byte and in numbers: 0x80, marker and type, sequence number, time and source with their most significant byte first, payload from byte 12 on |
| `Rtp.PlanAppend` | rtp/h264_rtp.c:126-245 | the writes for two runs of fragments are those of the first, then those of the second with sequence numbers that go on modulo 2^16 |
| `Rtp.TcpHeader.SendFor` | rtp/h264_rtp.c:51-64 | the four bytes written are the interleaved header with the length in network order; nothing is written when the peer is gone |
| `Rtp.RtpPacket.WriteTo` | rtp/h264_rtp.c:66-92 | a write carries the packet in network order; a success restores host order, keeps timestamp and SSRC and adds 1 to the sequence number modulo 2^16; a failure leaves the fields swapped |
| `Rtp.RtpPacket.SendTo` | rtp/h264_rtp.c:51-93 | one packet by TCP, UDP or neither; success exactly when every planned write happened |
| `Rtp.RtpPacket.SendChunk` | rtp/h264_rtp.c:126-190 | one fragment seen against the plan for the whole unit: either the sent part grows by it, or the whole call fails with a proper prefix of the plan written |
| `Interleaved.DeframeInvertsPrint` | rtp/h264_rtp.c:51-73 | complete frames of any mixture of sends are recovered, and an incomplete one behind them is kept back whole |
| `Interleaved.PrintInvertsDeframe` | rtp/h264_rtp.c:51-73 | what a receiver recognised, printed again, and what it kept back are the stream: nothing is lost or invented |
| `Interleaved.UniquelyDecodable` | rtp/pcma_rtp.c:18-54 | the stream parses back to the exact frame list if and only if every length fits its 16 bits |
| `Interleaved.OnChannelAppend` | rtp/aac_rtp.c:32-43 | splitting by channel keeps the order of each track |
| `NalUnits.FragmentDiscipline` | rtp/h264_rtp.c:121-199 | a unit above 1400 bytes takes ceil(size/1400), at least two, packets; S on the first only, E and the marker on the last only, never both, in the exact and the remainder case, for H.264 and H.265 |
| `NalUnits.MarkerOnLast` | rtp/h264_rtp.c:41-199 | for every unit, in one packet or in several, and both codecs: ceil(size/1400) packets, of which exactly the last carries the marker, seen also in byte 1 on the wire, and all with the time of the unit |
| `NalUnits.FragmentType` | rtp/h265_rtp.c:89-208 | a fragment announces itself by type 28 (H.264) or 49 (H.265), with the bits around the type as in the unit |
| `NalUnits.ReassembleFragments` | rtp/h265_rtp.c:89-208 | an independent receiver rebuilds the header from the fragment bytes and gets exactly the unit followed by the one (H.264) or two (H.265) bytes behind it in the buffer |
| `NalUnits.SinglePacketDelivery` | rtp/h264_rtp.c:41-94 | a unit of at most 1400 bytes arrives as it was, if and only if its type is not one that the payload format keeps for itself |
| `NalUnits.CutShort` | rtp/h264_rtp.c:177-180 | as long as its last packet is missing, a unit is delivered neither in part nor as anything else |
| `NalUnits.FuIndicatorIs` | rtp/h264_rtp.c:130-132 | the masks of the FU indicator and FU header split the NAL header into its upper three and lower five bits |
| `NalUnits.FuHeaderByteIs` | rtp/h265_rtp.c:25-25 | the masks 0x7E and 0x81 split the first HEVC header byte into the 6-bit type and the bits around it |
| `H264Sender.RtpSendH264Frame` | rtp/h264_rtp.c:14-249 | the planned writes for the unit happen in order, all of them on success and as many as the peer takes on failure; on success the sequence number has grown by the number of packets and the SSRC is unchanged |
| `H264Sender.SendFuA` | rtp/h264_rtp.c:121-245 | the fragment loop and the remainder write exactly the FU-A packets of the unit |
| `H265Sender.RtpSendH265Frame` | rtp/h265_rtp.c:14-211 | as for H.264, with the two-byte NAL header |
| `H265Sender.SendFu` | rtp/h265_rtp.c:91-208 | the fragment loop and the remainder write exactly the FU packets of the unit |
| `AudioSender.AacRoundTrip` | rtp/aac_rtp.c:63-67 | a receiver of AAC-hbr gets the frame back if and only if it is shorter than 8192 bytes, because the size field has 13 bits |
| `AudioSender.RtpSendAACFrame` | rtp/aac_rtp.c:16-95 | one packet with the AU-header section in front; the planned writes happen as far as the peer takes them; failure is reported when one is missing, and success when none is, save over UDP, where the source adds an unset variable |
| `AudioSender.RtpSendPCMAFrame` | rtp/pcma_rtp.c:13-77 | one packet with the samples as they are; writes, success and failure as for AAC |
| `ClientRun.EndToEnd` | session.c:414-501 | under every interleaving of callbacks, dequeues and sends the client recovers, track by track and in order, exactly the packets sent so far; these, the one in hand and the non-empty ones in the ring are the non-empty ones accepted |
| `ClientRun.SequenceNumbers` | rtp/h264_rtp.c:88-93 | on each channel the packets of the whole run are numbered 0, 1, 2, ... modulo 2^16 under one SSRC, and the header holds the next number |
| `Headers.OnTheWire` | session.c:864-869 | over every run of a TCP client: payload type 96 on the video channel, 97 or 8 on the audio channel as the audio is AAC or PCMA, and on each channel as many marked packets as units that arrive |
| `Headers.InDatagrams` | session.c:864-869 | the same for the datagrams on each socket of a UDP client |
| `Headers.EveryUnit` | rtp/aac_rtp.c:56-63 | in every run the packets of a unit, video or audio, have one time and source, and only the last is marked |
| `ClientRun.BrokenSend` | session.c:535-550 | when the connection breaks during a send, the client has exactly what was sent before it |
| `ClientRun.InvAlways` | session.c:592-651 | the invariant behind these, in every state of every run: queue, bytes written, packets and numbers |
| `ClientRun.ChannelIsTrack` | session.c:477-501 | the packets on a channel are those of its track, in order, given distinct channels |
| `ClientInfo.ClientInfo.SendData` | session.c:592-651 | which ring grows by the packet, for TCP and UDP clients and each set of tracks; everything else is unchanged |
| `ClientInfo.ClientInfo.SendDataTcp` | session.c:592-651 | for a TCP client this is the callback step of the run |
| `ClientInfo.ClientInfo.TakePacket` | session.c:412-469 | which ring loses its oldest packet for each descriptor; a packet without data is taken but not sent |
| `ClientInfo.ClientInfo.TakeTcp` | session.c:414-429 | for a TCP client this is the taking step of the run |
| `ClientInfo.ClientInfo.SendPacket` | session.c:477-525 | the packetizer, socket, channel or port and header of the packet's track are used, and no other socket or header changes; a short send is reported as a failure, and a full one as a success save for audio over UDP |
| `ClientInfo.ClientInfo.TransmitTcp` | session.c:477-501 | for a TCP client a successful send is the transmitting step of the run; a failed one has written a proper prefix of it |
| `UdpRun.FlowArrives` | session.c:503-525 | under every interleaving, the receiver on each UDP socket recovers, in order, exactly the packets of its track sent so far, with consecutive numbers modulo 2^16 under one SSRC; these, the one in hand and the non-empty ones in the ring are the non-empty ones accepted |
| `UdpRun.FlowIsPackets` | session.c:503-525 | the datagrams on a socket are exactly the RTP packets of its track, in order |
| `UdpRun.FlowAccepts` | session.c:592-651 | a socket with a port accepts exactly what the callbacks bring for its track, in order |
| `ClientInfo.ClientInfo.SendDataUdp` | session.c:592-651 | for a UDP client this is the callback step of the flows on both sockets, of which one takes the packet |
| `ClientInfo.ClientInfo.TakeUdp` | session.c:430-461 | for a UDP client this is the taking step of the descriptor's flow; the other flow stays as it is |
| `ClientInfo.ClientInfo.TransmitUdp` | session.c:503-525 | for a UDP client a send that the socket takes whole is the transmitting step of the flow; any other has written a proper prefix of its datagrams and reports failure, as does a track without a port, for which nothing goes out; the other flow stays as it is |
| `ClientInfo.ClientInfo.constructor` | session.c:838-876 | a client begins with empty rings, sequence numbers 0, the fixed SSRC and payload types 96 and 97 or 8: the start of the run, over TCP and on each UDP socket |
| `Broadcast.Coverage` | session.c:652-667 | callbacks reach every playing client whose track is set up if and only if the clients occupy slots 0 to count-1 |
| `Broadcast.NobodyMissedIffPacked` | session.c:658-664 | the loop to `count` passes nobody by if and only if the taken slots are the first ones |
| `Broadcast.MissedAreHoles` | session.c:658-664 | the clients beyond the count are as many as the free slots below it |
| `Broadcast.JoinKeepsPacked` | session.c:832-863 | a join takes the slot at the count and keeps the shape |
| `Broadcast.LeaveKeepsPacked` | session.c:546-550 | a departure keeps the shape if and only if it frees the top taken slot |
| `Broadcast.LastClientGoesSilent` | session.c:546-550 | after any other departure the top client still plays but is sent nothing |
| `Broadcast.PackedIffLeftFromTop` | session.c:652-679 | over every history of joins, departures and callbacks: packed at all times if and only if whoever left was at that time the top client |
| `Broadcast.StaysInStep` | session.c:652-667 | over every history, a client that stays has been sent every packet of its tracks, in order, if and only if each of them came while its slot was below the count |
| `Broadcast.FallsBehind` | session.c:652-667 | in all other histories the client holds less than one that was sent everything: what was missed is never made up for, and nothing but the rings differs |
| `Broadcast.StaysInStepWhilePacked` | README.md:3-3 | as long as whoever leaves is in the highest taken slot, a client that stays is sent every packet of its tracks, in order |
| `Broadcast.DeliverIsCallback` | session.c:592-651 | for a TCP client the delivery is the callback step of its run |
| `Broadcast.DeliverIsFlow` | session.c:592-651 | for a UDP client it is the callback step of the flows on both its sockets: video to the first ring, audio to the second, at the end |
| `Broadcast.Session.MediaCallBack` | session.c:652-667 | the loop delivers to the active slots below the count and to no other |
| `Broadcast.Session.GetFreeClientInfo` | session.c:668-679 | the lowest free slot, -1 when there is none |
| `Broadcast.Session.AddClient` | session.c:832-863 | the client is in the lowest free slot, with its socket, channels, ports and empty rings, playing, and counted; or turned away with nothing changed exactly when all slots are taken |
| `Broadcast.Session.DropClient` | session.c:546-549 | the slot is free, its channels, ports and rings are cleared, no other slot is touched, the count is one less and still the number of taken slots |
| `ServerRuns.InvAlways` | session.c:380-398 | in every state under every schedule of client, media and epoll threads the invariant holds: locks, table, slots, events in hand, counts and total |
| `ServerRuns.StepKeepsInv` | session.c:595-665 | one step of any thread keeps it |
| `ServerRuns.NoDeadlock` | session.c:115-125 | from any unfinished thread the chain of waiting ends after at most four other threads at one that can go on |
| `ServerLocks.WaitsUpwards` | session.c:115-118 | whoever is waited for asks only for a lock further on in the order, and is not finished |
| `ServerLocks.AsksInOrder` | session.c:817-897 | each thread asks for a lock only above all it holds, and joins the media thread while it holds none |
| `ServerLocks.WaitChain` | session.c:745-779 | the chain of waiting has at most five threads, each waiting for the next, the last for nobody |
| `ServerLocks.LocksKept` | session.c:595-665 | every step keeps it so that a lock is owned by the thread that holds it, and by no other |
| `ServerRuns.MutualExclusion` | session.c:115-118 | no lock is ever held by two threads |
| `ServerRuns.OnlyClashesBreak` | session.c:745-779 | a step uses a freed session, a slot that is not there or a wrong entry of the table if and only if it stores a new session where another was stored since the search, or past a full table; also when a client joins between the count of 0 and the deletion |
| `ServerRuns.OnlyJoinersReadFreedMedia` | session.c:866-869 | a step reads a freed media context if and only if it is that of a client asking for the audio type of the session whose context the epoll thread has freed, while that thread waits for the lock of the table |
| `ServerRuns.OnlyTheseBreak` | session.c:745-779 | in every state that a run reaches, a step uses freed memory or a wrong entry of the table if and only if it is one of these two |
| `ServerRaces.FreedReadIsReachable` | session.c:745-752 | a schedule in which the only client of a session is dropped and another joins between the end of `destroyMedia` and the lock of the table, and comes to read the freed context |
| `ServerRuns.Accounting` | session.c:544-558 | the client total, plus adds and minus drops not yet counted, is the number of taken slots in the table's sessions; each count is the number of taken slots whenever the session's lock is free, save while the session is being freed |
| `ServerRuns.TotalAtRest` | session.c:900-906 | with no client on its way in or out, the total is the sum of the counts |
| `ServerLife.EmptyIsDeleted` | session.c:544-558 | in every reachable state a session without a taken slot has a client about to enter it, or the epoll thread is between counting its last client down and freeing it: none is left empty and forgotten |
| `ServerLife.NoneForgotten` | session.c:544-558 | with all clients' threads ended and the epoll thread between two events, every session in the table has a client, plays, and has its media thread |
| `ServerLife.PlaysUntilDeleted` | media.c:360-389 | the run flag of a session is up exactly until the epoll thread has begun to delete it, and its media thread does not end before |
| `ServerEvents.ReportsAny` | session.c:382-400 | epoll may report any clients that it watches, each once, and the epoll thread goes on with exactly these |
| `ServerEvents.EveryEventHandled` | session.c:400-558 | over every run: the clients served are those that epoll reported, in order, none skipped or doubled; every packet taken is sent next; those whose send failed lose their slots, and outside a deletion no others; every session whose count came to 0 is freed, and no other |
| `ServerAccess.ChangesUnderLocks` | session.c:595-665 | in every reachable state and for every thread: a step that changes the table, a session's count or which of its slots are taken, the epoll set or the total is one of a thread that holds the lock for it |
| `ServerAccess.CallbackUndisturbed` | session.c:652-667 | while a media thread is in its callback no other thread changes its session's count or which slots are taken, or takes a packet out |
| `ServerProgress.CallbackStores` | session.c:652-667 | one callback stores into the ring of every taken slot below the count, once each, and of no other |
| `ServerProgress.MediaEnds` | media.c:360-389 | a media thread that was told to stop comes nearer to its end with every step as long as the count stays, which it does throughout a callback, so joining it ends |
| `ServerProgress.EpollComesBack` | session.c:380-565 | from any reachable state every step brings the epoll thread nearer to the next `epoll_wait`, also through deletions |
| `ServerFind.FindsFirst` | session.c:813-830 | in every reachable state: a client goes to the session of the first entry whose file name begins with its path, wherever that is in the table, and to a new session if and only if there is none |
| `ServerFind.LaterClientJoins` | session.c:688-696 | a client that looks after another with the same path has stored its session, while that lives, makes no new one; it joins that session if and only if no earlier entry is named so |
| `ServerFind.NewSession` | session.c:684-701 | a new session is named by the path, empty, with all slots free, playing, and in the entry that was free |
| `ServerFind.Sizes` | session.c:32-33 | the table has 1024 entries in every run, and every session 1024 slots |
| `ServerProgress.CallsBack` | media.c:128-187 | as long as a session plays, its media thread calls back exactly when there is a packet |
| `ServerFind.PicksLowest` | session.c:668-679 | a client is turned away if and only if every slot is taken, and otherwise gets the lowest free one |
| `ServerServed.ServedOrTurnedAway` | session.c:807-899 | over every run: a client's thread ends only after its socket has been watched in a slot of a session by its path, or after it found every slot of such a session taken |
| `ServerRuns.OverwritingKeepsTotal` | session.c:885-888 | storing a session over an entry that was filled since the search keeps the total true if and only if nobody is in the session it replaces |
| `ServerRuns.LooksForFree` | session.c:813-825 | a client that found no session remembers the first free entry of the table, or its end |
| `ServerRuns.StaysFree` | session.c:885-888 | from then on no step but another client's storing at the same entry takes the entry away |
| `ServerRaces.ClashIsReachable` | session.c:885-888 | a schedule of two clients with the same new path that comes to that point with a client in the session to be replaced |
| `ServerEpoll.NoEventsLeft` | session.c:546-558 | when a session's last client has left, no event still to be handled belongs to the session |
| `ServerEpoll.SweptIsWatched` | session.c:757-765 | a slot found taken while deleting is in the epoll set: no client is half way in |
| `ServerEpoll.CountUnderLock` | session.c:657-664 | while the callback holds the session's lock the count is the number of taken slots, so its loop stays within them |
| `ServerClients.ClientKeepsInv` | session.c:807-899 | every step of `addClient` and `addSession` keeps the invariant |
| `ServerEpoll.EpollKeepsInv` | session.c:380-565 | every step of `epollLoop`, `delSession` and `destroyMedia`, which frees the media context before the session is taken out of the table, is defined and keeps the invariant: a live session points to a freed context exactly from there to its own end |
| `ServerEpoll.MediaKeepsInv` | session.c:652-667 | every step of the media callback is defined and keeps the invariant |
| `Md5Rounds.FourSteps` | 3rdparty/md5.c:115-118 | four steps of the rotating loop are four mixes in place, each register back in its own |
| `Md5Rounds.AuxiliaryBits` | 3rdparty/md5.c:4-7 | the four macros, bit by bit for all words: choice by x, choice by z, parity, and y flipped where x or not z holds |
| `Md5Rounds.RotateLeft` | 3rdparty/md5.c:8-8 | or-ing the two shifted words is rotation: x 2^n modulo 2^32 plus x divided by 2^(32-n) |
| `Md5Standard.DownDivides` | 3rdparty/md5.c:8-8 | moving a word down by n places divides by 2^n |
| `Md5.InitialBytes` | 3rdparty/md5.c:46-49 | the initial registers are the bytes 01 23 45 67 89 AB CD EF FE DC BA 98 76 54 32 10 |
| `Md5Rounds.Round1` | 3rdparty/md5.c:115-130 | the sixteen unrolled steps are steps 0 to 15 of the loop of section 3.4 of RFC 1321, with its word indices, shifts, sine table and its functions given bit by bit, for every state and block |
| `Md5Rounds.Round2` | 3rdparty/md5.c:132-147 | the sixteen unrolled steps are steps 16 to 31 of the loop of section 3.4 of RFC 1321, with its word indices, shifts, sine table and its functions given bit by bit, for every state and block |
| `Md5Rounds.Round3` | 3rdparty/md5.c:150-165 | the sixteen unrolled steps are steps 32 to 47 of the loop of section 3.4 of RFC 1321, with its word indices, shifts, sine table and its functions given bit by bit, for every state and block |
| `Md5Rounds.Round4` | 3rdparty/md5.c:168-183 | the sixteen unrolled steps are steps 48 to 63 of the loop of section 3.4 of RFC 1321, with its word indices, shifts, sine table and its functions given bit by bit, for every state and block |
| `Md5Context.Context.Transform` | 3rdparty/md5.c:107-188 | the unrolled compression of any block is the 64-step loop plus the old state |
| `Md5Context.Context.Update` | 3rdparty/md5.c:53-76 | whatever the fill level and the input length, the context stands for the message and the input behind it |
| `Md5Context.Context.Final` | 3rdparty/md5.c:78-87 | the digest of the message so far |
| `Md5Context.Md5Of` | common.c:199-204 | for every message in every splitting, the digest is that of the whole message |
| `Md5Context.CountAdds` | 3rdparty/md5.c:58-62 | the carry test counts bits modulo 2^64 in two words for every input length |
| `Md5Context.IndexOfCount` | 3rdparty/md5.c:56-57 | the fill level taken from the low word is the message length modulo 64 |
| `Md5Context.PaddingOfCount` | 3rdparty/md5.c:78-84 | the bytes cut from the table and the encoded count are the padding of the message |
| `Md5Context.TailWaits` | 3rdparty/md5.c:64-75 | after the whole blocks, exactly the rest of the input waits in the buffer |
| `Md5.PaddingFillsBlocks` | 3rdparty/md5.c:38-43 | the padding has the fewest zeros that make whole blocks |
| `Md5.FoldAppend` | 3rdparty/md5.c:64-70 | folding whole blocks and then more is folding both |
| `Md5.DecodeInvertsEncode` | 3rdparty/md5.c:88-106 | the two byte orders are inverse |
| `Md5.Encode` | 3rdparty/md5.c:88-98 | masks and shifts write the words least significant byte first |
| `Md5.Decode` | 3rdparty/md5.c:99-106 | shifts and ors read them back |
| `Reframe.VideoEncodeCallback` | demo_external/src/cPush.cpp:103-122 | n records become n interleaved frames on channel 0 in place; buffer length, payload bytes and what lies behind are unchanged |
| `Reframe.ReframeOne` | demo_external/src/cPush.cpp:110-119 | one turn: the size is read in network order and the four bytes in front become the frame header |
| `Reframe.PacketsSurvive` | demo_external/src/cPush.cpp:106-122 | a receiver finds the same packets if and only if each is at most 65535 bytes |
| `Reframe.LoadedSize` | demo_external/src/cPush.cpp:108-108 | `ntohl` of the load is the size that the record was given |

## Left out

- Assumed of the environment: buffers from the bitstream filter end in at least four zero bytes; a send that succeeds
  sends everything; the host is little-endian; sockets of clients are above zero; any timestamp may be read.
- ServerRuns.InvAlways: says nothing about what follows after a session has been stored over another, or past the end
  of a full table; the model's run ends there, because the source goes on with a session that nobody can find, or
  outside the array.
- Server: TCP clients only. A UDP client has two descriptors in the epoll set and so two events in hand at a time;
  `rtsp_server.c` never adds one, since it never clears the transport flag. `ClientInfo` and `Broadcast` do have UDP
  clients.
- Server: the ring's contents are not part of the threads' state; whether a dequeue finds data and whether a send
  succeeds are choices of the schedule. `ClientRun` and `Ring` say what they do to the data.
- Server: `events`, `playflag` and the callback pointer of a slot change only under the session's lock together with
  `sd`, and are not modelled apart from it. A client thread makes one call of `addClient`.
- ClientRun.EndToEnd: one TCP client with distinct channels below 256 and packets that the payload formats can carry;
  which packets those are is stated exactly by `NalUnits.SinglePacketDelivery`, `AudioSender.AacRoundTrip` and
  `Interleaved.UniquelyDecodable`.
- UdpRun.FlowArrives: the network loses and reorders nothing; a UDP client's two sockets are followed one by one.
- AudioSender.RtpSendAACFrame: over UDP says nothing about the result of a full send, not even its sign, because the
  source adds an unset variable.
- AudioSender.RtpSendPCMAFrame: as AudioSender.RtpSendAACFrame.
- ClientInfo.ClientInfo.SendPacket: for audio over UDP, as AudioSender.RtpSendAACFrame.
- Media.MediaInfo.GetVideoNALUWithoutStartCode: a null context cannot be represented; the source returns -1 for it.
- Media.MediaInfo.DeliverBuffer: one buffer of a video stream; that a negative length reaches `memcpy` when a client
  has set up video is outside the model, whose runs go on only while nobody copies.
- H264Sender.RtpSendH264Frame: the buffer must reach one byte (H.265: two bytes) past a fragmented unit, as the rings'
  fixed-size slots do; the test for a null frame comes after its first use in the source and is not modelled.
- Md5Context.Context.Update: inputs of less than 2^32 - 64 bytes, because the loop's index would wrap.
- Broadcast.Session.AddClient: the packet buffers and the registration with epoll are in `ClientInfo` and `Server`.
- C memory: freed epoll data, buffers, destruction and reuse of mutexes, a media thread that starts before its session is
  complete, `memset` by `strlen`.
- `sig_handler` and `moduleDel`, which run asynchronously and delete empty table entries.
- FFmpeg, OpenCV, Asio, the camera and codec calls, sockets, epoll readiness, clocks, random nonces.
- The RTSP text loop, SDP, header scanning and digest authentication text in `rtsp_server.c` and `common.c`, and the
  unused `adts_header`: string handling without deep invariants.
- `camera_rtsp/` and the rest of `demo_external/`: hardware glue.
