/** Carrying H.264 and H.265 NAL units in RTP payloads: what the sender's payloads are, what a
    receiver makes of payloads (sections 5.4-5.8 of RFC 6184, sections 4.4.1-4.4.3 of RFC 7798),
    and what reaches the far end. */
module NalUnits {
  import opened Bytes
  import opened Bits
  import opened Rtp

  datatype Codec = H264 | H265

  function HeaderSize(codec: Codec): nat {
    match codec case H264 => 1 case H265 => 2
  }

  const FU_A: byte := 28
  const FU: byte := 49

  // ---------------------------------------------------------------- the sender's payloads

  /** The bytes in front of the FU header: the NAL header with its type replaced by the fragment type. */
  function FuPrefix(codec: Codec, nal: seq<byte>): seq<byte>
    requires |nal| >= 2
  {
    match codec
    case H264 => FuIndicatorIs(nal[0]); [BitOr(BitAnd(nal[0], 0xE0), FU_A)]
    case H265 => FuHeaderByteIs(nal[0]); [BitOr(BitAnd(nal[0], 0x81), FU * 2), nal[1]]
  }

  /** The type of the NAL unit, which moves into the FU header. */
  function NalType(codec: Codec, nal: seq<byte>): (kind: byte)
    requires |nal| >= 1
    ensures kind < (if codec.H264? then 32 else 64)
  {
    match codec
    case H264 => FuIndicatorIs(nal[0]); BitAnd(nal[0], 0x1F)
    case H265 => FuHeaderByteIs(nal[0]); BitAnd(nal[0], 0x7E) / 2
  }

  function FuHeader(kind: byte, first: bool, last: bool): byte
    requires kind < 64
  {
    kind + (if first then 0x80 else 0) + (if last then 0x40 else 0)
  }

  /** The data in pieces of at most 1400 bytes: start bit on the first, end bit and marker on the last. */
  function FuChunks(prefix: seq<byte>, kind: byte, data: seq<byte>, first: bool): seq<Chunk>
    requires kind < 64
    decreases |data|
  {
    if data == [] then []
    else
      var n := Min(|data|, PTK_RTP_TCP_MAX);
      var last := n == |data|;
      [Chunk(last, prefix + [FuHeader(kind, first, last)] + data[..n])] + FuChunks(prefix, kind, data[n..], false)
  }

  lemma FlagBits(kind: byte)
    requires kind < 64
    ensures BitOr(kind, 0x80) == FuHeader(kind, true, false)
    ensures BitOr(kind, 0x40) == FuHeader(kind, false, true)
  {
    Masks64(2, kind, 0);
    Masks64(1, kind, 0);
  }

  /** How much of the source buffer the payloads for a unit of this size carry. Fragments start
      behind the NAL header but cover `size` bytes all the same, so they run past the unit. */
  function Carried(codec: Codec, size: nat): nat {
    if size <= PTK_RTP_TCP_MAX then size else HeaderSize(codec) + size
  }

  /** The payloads for the unit that occupies the first `size` bytes of the buffer. */
  function Chunks(codec: Codec, buffer: seq<byte>, size: nat): seq<Chunk>
    requires 0 < size && Carried(codec, size) <= |buffer|
  {
    if size <= PTK_RTP_TCP_MAX then
      [Chunk(true, buffer[..size])]
    else
      FuChunks(FuPrefix(codec, buffer), NalType(codec, buffer), buffer[HeaderSize(codec)..Carried(codec, size)], true)
  }

  lemma FuIndicatorIs(h: byte)
    ensures BitAnd(h, 0x1F) == h % 32
    ensures BitOr(BitAnd(h, 0xE0), FU_A) == h / 32 * 32 + FU_A
  {
    hide BitAnd, BitOr;
    Masks32(h / 32, h % 32, 7);
    Masks32(h / 32, FU_A, 7);
    Covers8(h / 32);
  }

  lemma FuHeaderByteIs(h: byte)
    ensures BitAnd(h, 0x7E) / 2 == h / 2 % 64
    ensures BitOr(BitAnd(h, 0x81), FU * 2) == h / 128 * 128 + FU * 2 + h % 2
  {
    hide BitAnd, BitOr;
    var top, kind, low := h / 128, h / 2 % 64, h % 2;
    assert h == 2 * (64 * top + kind) + low;
    TypeBits(top, kind, low);
    OuterBits(top, kind, low);
    FuTypeBits(top, low);
  }

  lemma TypeBits(top: nat, kind: nat, low: nat)
    requires kind < 64 && low < 2
    ensures BitAnd(2 * (64 * top + kind) + low, 0x7E) == 2 * kind
  {
    hide BitAnd, BitOr;
    Masks64(top, kind, 0);
    AndStep(64 * top + kind, low, 63, 0);
  }

  lemma OneBit(b: nat)
    requires b < 2
    ensures BitAnd(b, 1) == b
  {
  }

  lemma OuterBits(top: nat, kind: nat, low: nat)
    requires top < 2 && kind < 64 && low < 2
    ensures BitAnd(2 * (64 * top + kind) + low, 0x81) == 128 * top + low
  {
    hide BitAnd, BitOr;
    Masks64(top, kind, 1);
    AndStep(64 * top + kind, low, 64, 1);
    OneBit(top);
  }

  lemma FuTypeBits(top: nat, low: nat)
    requires low < 2
    ensures BitOr(128 * top + low, FU * 2) == 128 * top + FU * 2 + low
  {
    hide BitAnd, BitOr;
    Masks64(top, FU, 0);
    OrSym(64 * top, FU);
    OrStep(64 * top, low, FU, 0);
  }

  lemma {:induction false} OrSym(x: nat, y: nat)
    ensures BitOr(x, y) == BitOr(y, x)
    decreases x + y
  {
    if x != 0 && y != 0 {
      OrSym(x / 2, y / 2);
    }
  }

  // ---------------------------------------------------------------- the receiver

  /** Units delivered so far, and the unit being put together from fragments. */
  datatype Receiver = Receiver(units: seq<seq<byte>>, partial: Option<seq<byte>>)

  datatype Meaning =
    | Whole(unit: seq<byte>)
    | Start(bytes: seq<byte>)
    | Middle(bytes: seq<byte>)
    | End(bytes: seq<byte>)
    | Unusable

  function Classify(codec: Codec, payload: seq<byte>): Meaning {
    match codec
    case H264 =>
      if |payload| < 1 then Unusable
      else if 1 <= payload[0] % 32 <= 23 then Whole(payload)
      else if payload[0] % 32 == FU_A && |payload| >= 2 then
        Fragment(payload[1], [payload[0] / 32 * 32 + payload[1] % 32], payload[2..])
      else Unusable
    case H265 =>
      if |payload| < 2 then Unusable
      else if payload[0] / 2 % 64 < 48 then Whole(payload)
      else if payload[0] / 2 % 64 == FU && |payload| >= 3 then
        Fragment(payload[2], [payload[0] / 128 * 128 + payload[2] % 64 * 2 + payload[0] % 2, payload[1]], payload[3..])
      else Unusable
  }

  /** Both RFCs forbid a start bit and an end bit in one fragment. */
  function Fragment(fu: byte, header: seq<byte>, bytes: seq<byte>): Meaning {
    if fu >= 0xC0 then Unusable
    else if fu >= 0x80 then Start(header + bytes)
    else if fu >= 0x40 then End(bytes)
    else Middle(bytes)
  }

  function Receive(codec: Codec, rx: Receiver, payload: seq<byte>): Receiver {
    match Classify(codec, payload)
    case Whole(unit) => Receiver(rx.units + [unit], None)
    case Start(bytes) => Receiver(rx.units, Some(bytes))
    case Middle(bytes) => if rx.partial.Some? then Receiver(rx.units, Some(rx.partial.value + bytes)) else rx
    case End(bytes) => if rx.partial.Some? then Receiver(rx.units + [rx.partial.value + bytes], None) else rx
    case Unusable => Receiver(rx.units, None)
  }

  function ReceiveAll(codec: Codec, rx: Receiver, payloads: seq<seq<byte>>): Receiver
    decreases |payloads|
  {
    if payloads == [] then rx else ReceiveAll(codec, Receive(codec, rx, payloads[0]), payloads[1..])
  }

  lemma {:induction false} ReceiveAllAppend(codec: Codec, rx: Receiver, a: seq<seq<byte>>, b: seq<seq<byte>>)
    ensures ReceiveAll(codec, rx, a + b) == ReceiveAll(codec, ReceiveAll(codec, rx, a), b)
    decreases |a|
  {
    if a == [] {
      assert a + b == b;
    } else {
      assert (a + b)[1..] == a[1..] + b;
      ReceiveAllAppend(codec, Receive(codec, rx, a[0]), a[1..], b);
    }
  }

  // ---------------------------------------------------------------- what reaches the far end

  lemma Meaning264(h: byte, fu: byte, bytes: seq<byte>)
    requires fu % 32 == h % 32
    ensures Classify(H264, [h / 32 * 32 + FU_A, fu] + bytes) == Fragment(fu, [h], bytes)
  {
    hide Fragment;
    var payload := [h / 32 * 32 + FU_A, fu] + bytes;
    assert payload[0] % 32 == FU_A && payload[0] / 32 == h / 32;
    assert payload[2..] == bytes;
  }

  lemma Header265(top: nat, kind: nat, low: nat)
    requires top < 2 && kind < 64 && low < 2
    ensures var x := top * 128 + kind * 2 + low; x / 128 == top && x / 2 % 64 == kind && x % 2 == low
  {
  }

  lemma Meaning265(h: byte, layer: byte, fu: byte, bytes: seq<byte>)
    requires fu % 64 == h / 2 % 64
    ensures Classify(H265, [h / 128 * 128 + FU * 2 + h % 2, layer, fu] + bytes) == Fragment(fu, [h, layer], bytes)
  {
    hide Fragment;
    var top, kind, low := h / 128, h / 2 % 64, h % 2;
    assert h == top * 128 + kind * 2 + low;
    Header265(top, FU, low);
    var payload := [top * 128 + FU * 2 + low, layer, fu] + bytes;
    assert payload[3..] == bytes;
  }

  lemma FuHeaderMeaning(kind: byte, first: bool, last: bool, header: seq<byte>, bytes: seq<byte>)
    requires kind < 64 && !(first && last)
    ensures FuHeader(kind, first, last) % 64 == kind
    ensures Fragment(FuHeader(kind, first, last), header, bytes)
            == if first then Start(header + bytes) else if last then End(bytes) else Middle(bytes)
  {
  }

  lemma PrefixIs(codec: Codec, nal: seq<byte>)
    requires |nal| >= 2
    ensures codec == H264 ==> && FuPrefix(codec, nal) == [nal[0] / 32 * 32 + FU_A]
                              && NalType(codec, nal) == nal[0] % 32
    ensures codec == H265 ==> && FuPrefix(codec, nal) == [nal[0] / 128 * 128 + FU * 2 + nal[0] % 2, nal[1]]
                              && NalType(codec, nal) == nal[0] / 2 % 64
  {
    FuIndicatorIs(nal[0]);
    FuHeaderByteIs(nal[0]);
  }

  lemma FragmentMeaning264(nal: seq<byte>, fu: byte, bytes: seq<byte>)
    requires |nal| >= 2 && fu % 64 == NalType(H264, nal)
    ensures Classify(H264, FuPrefix(H264, nal) + [fu] + bytes) == Fragment(fu, nal[..1], bytes)
  {
    PrefixIs(H264, nal);
    assert fu % 32 == nal[0] % 32;
    Meaning264(nal[0], fu, bytes);
    assert nal[..1] == [nal[0]];
    assert FuPrefix(H264, nal) + [fu] == [nal[0] / 32 * 32 + FU_A, fu];
  }

  lemma FragmentMeaning265(nal: seq<byte>, fu: byte, bytes: seq<byte>)
    requires |nal| >= 2 && fu % 64 == NalType(H265, nal)
    ensures Classify(H265, FuPrefix(H265, nal) + [fu] + bytes) == Fragment(fu, nal[..2], bytes)
  {
    PrefixIs(H265, nal);
    Meaning265(nal[0], nal[1], fu, bytes);
    assert nal[..2] == [nal[0], nal[1]];
    assert FuPrefix(H265, nal) + [fu] == [nal[0] / 128 * 128 + FU * 2 + nal[0] % 2, nal[1], fu];
  }

  /** A fragment is understood as the sender meant it. */
  lemma FragmentMeaning(codec: Codec, nal: seq<byte>, first: bool, last: bool, bytes: seq<byte>)
    requires |nal| >= 2 && !(first && last)
    ensures Classify(codec, FuPrefix(codec, nal) + [FuHeader(NalType(codec, nal), first, last)] + bytes)
            == if first then Start(nal[..HeaderSize(codec)] + bytes) else if last then End(bytes) else Middle(bytes)
  {
    var kind := NalType(codec, nal);
    FuHeaderMeaning(kind, first, last, nal[..HeaderSize(codec)], bytes);
    match codec
    case H264 => FragmentMeaning264(nal, FuHeader(kind, first, last), bytes);
    case H265 => FragmentMeaning265(nal, FuHeader(kind, first, last), bytes);
  }

  /** The fragments that follow the first one complete the unit. */
  lemma {:induction false} ReassembleRest(codec: Codec, nal: seq<byte>, data: seq<byte>, rx: Receiver)
    requires |nal| >= 2 && data != [] && rx.partial.Some?
    ensures ReceiveAll(codec, rx, Payloads(FuChunks(FuPrefix(codec, nal), NalType(codec, nal), data, false)))
            == Receiver(rx.units + [rx.partial.value + data], None)
    decreases |data|
  {
    var prefix, kind := FuPrefix(codec, nal), NalType(codec, nal);
    var n := Min(|data|, PTK_RTP_TCP_MAX);
    var rest := FuChunks(prefix, kind, data[n..], false);
    FragmentMeaning(codec, nal, false, n == |data|, data[..n]);
    assert FuChunks(prefix, kind, data, false)[1..] == rest;
    assert data == data[..n] + data[n..];
    if n < |data| {
      var next := Receiver(rx.units, Some(rx.partial.value + data[..n]));
      ReassembleRest(codec, nal, data[n..], next);
      Assoc(rx.partial.value, data[..n], data[n..]);
    } else {
      assert data[..n] == data && rest == [];
    }
  }

  lemma {:induction false} FuChunkCount(prefix: seq<byte>, kind: byte, data: seq<byte>, first: bool)
    requires kind < 64
    ensures |FuChunks(prefix, kind, data, first)| == (|data| + PTK_RTP_TCP_MAX - 1) / PTK_RTP_TCP_MAX
    decreases |data|
  {
    if data != [] {
      FuChunkCount(prefix, kind, data[Min(|data|, PTK_RTP_TCP_MAX)..], false);
    }
  }

  lemma {:induction false} FuChunkAt(prefix: seq<byte>, kind: byte, data: seq<byte>, first: bool, i: nat)
    requires kind < 64 && i < |FuChunks(prefix, kind, data, first)|
    ensures var cs := FuChunks(prefix, kind, data, first);
            var last := i == |cs| - 1;
            && cs[i].marker == last
            && |prefix| < |cs[i].payload| <= |prefix| + 1 + PTK_RTP_TCP_MAX
            && cs[i].payload[|prefix|] == FuHeader(kind, first && i == 0, last)
    decreases i
  {
    var n := Min(|data|, PTK_RTP_TCP_MAX);
    if i > 0 {
      FuChunkAt(prefix, kind, data[n..], false, i - 1);
    }
  }

  lemma FuHeaderBits(kind: byte, first: bool, last: bool)
    requires kind < 64
    ensures var fu := FuHeader(kind, first, last);
            (fu >= 0x80 <==> first) && (fu / 0x40 % 2 == 1 <==> last) && fu % 0x40 == kind
  {
  }

  /** Every unit longer than 1400 bytes travels in ceil(size / 1400), hence at least two, packets.
      The start bit is on the first only, the end bit and the RTP marker on the last only, and no
      packet has both bits, whether or not the size is a multiple of 1400. */
  lemma FragmentDiscipline(codec: Codec, buffer: seq<byte>, size: nat, i: nat)
    requires size > PTK_RTP_TCP_MAX && Carried(codec, size) <= |buffer|
    requires i < |Chunks(codec, buffer, size)|
    ensures var cs := Chunks(codec, buffer, size);
            && |cs| == (size + PTK_RTP_TCP_MAX - 1) / PTK_RTP_TCP_MAX >= 2
            && |cs[i].payload| > HeaderSize(codec)
            && var fu := cs[i].payload[HeaderSize(codec)];
            && (fu >= 0x80 <==> i == 0)
            && (fu / 0x40 % 2 == 1 <==> i == |cs| - 1)
            && (cs[i].marker <==> i == |cs| - 1)
            && fu % 0x40 == NalType(codec, buffer)
  {
    hide FuHeader, NalType, FuChunks, BitAnd, BitOr;
    var prefix, kind := FuPrefix(codec, buffer), NalType(codec, buffer);
    var data := buffer[HeaderSize(codec)..Carried(codec, size)];
    FuChunkCount(prefix, kind, data, true);
    FuChunkAt(prefix, kind, data, true, i);
    FuHeaderBits(kind, i == 0, i == |Chunks(codec, buffer, size)| - 1);
  }

  /** Every unit, whether it travels in one packet or in several: exactly its last packet carries the marker, on all
      routes, and all of them have the type and the time of the unit. */
  lemma MarkerOnLast(codec: Codec, buffer: seq<byte>, size: nat, first: Packet, i: nat)
    requires 0 < size && Carried(codec, size) <= |buffer|
    requires i < |Packets(Chunks(codec, buffer, size), first)|
    ensures var ps := Packets(Chunks(codec, buffer, size), first);
            && |ps| == (size + 1399) / 1400
            && (ps[i].marker <==> i == |ps| - 1)
            && Wire(ps[i])[1] == first.payloadType + (if i == |ps| - 1 then 0x80 else 0)
            && ps[i].timestamp == first.timestamp
  {
    hide FuChunks;
    var chunks := Chunks(codec, buffer, size);
    PacketsAllNumbered(chunks, first);
    PacketNumbers(chunks, first, i);
    WireImage(Packets(chunks, first)[i]);
    if size > PTK_RTP_TCP_MAX {
      FragmentDiscipline(codec, buffer, size, i);
    }
  }

  /** What marks a fragment: type 28 (H.264) or 49 (H.265) in place of the unit's own, with the bits around it kept. */
  lemma FragmentType(codec: Codec, buffer: seq<byte>, size: nat, i: nat)
    requires size > 1400 && Carried(codec, size) <= |buffer|
    requires i < |Chunks(codec, buffer, size)|
    ensures var payload := Chunks(codec, buffer, size)[i].payload;
            match codec
            case H264 => |payload| >= 2 && payload[0] % 32 == 28 && payload[0] / 32 == buffer[0] / 32
            case H265 => && |payload| >= 3 && payload[0] / 2 % 64 == 49 && payload[0] / 128 == buffer[0] / 128
                         && payload[0] % 2 == buffer[0] % 2 && payload[1] == buffer[1]
  {
    hide FuChunks, NalType;
    PrefixIs(codec, buffer);
    var prefix := FuPrefix(codec, buffer);
    PrefixInFront(prefix, NalType(codec, buffer), buffer[HeaderSize(codec)..Carried(codec, size)], true, i);
    if codec == H265 {
      Header265(buffer[0] / 128, FU, buffer[0] % 2);
    }
  }

  lemma {:induction false} PrefixInFront(prefix: seq<byte>, kind: byte, data: seq<byte>, first: bool, i: nat)
    requires kind < 64 && i < |FuChunks(prefix, kind, data, first)|
    ensures var payload := FuChunks(prefix, kind, data, first)[i].payload;
            |payload| > |prefix| && payload[..|prefix|] == prefix
    decreases i
  {
    if i > 0 {
      PrefixInFront(prefix, kind, data[Min(|data|, PTK_RTP_TCP_MAX)..], false, i - 1);
    }
  }

  /** A unit longer than 1400 bytes arrives as one unit, whatever its type, followed by the one
      (H.264) or two (H.265) bytes that lie behind it in the source buffer. */
  lemma ReassembleFragments(codec: Codec, buffer: seq<byte>, size: nat, rx: Receiver)
    requires size > PTK_RTP_TCP_MAX && Carried(codec, size) <= |buffer|
    ensures ReceiveAll(codec, rx, Payloads(Chunks(codec, buffer, size)))
            == Receiver(rx.units + [buffer[..HeaderSize(codec) + size]], None)
  {
    hide Classify, FuPrefix, NalType, FuHeader;
    var h, prefix, kind := HeaderSize(codec), FuPrefix(codec, buffer), NalType(codec, buffer);
    var data := buffer[h..h + size];
    var head, rest := data[..PTK_RTP_TCP_MAX], data[PTK_RTP_TCP_MAX..];
    FragmentMeaning(codec, buffer, true, false, head);
    assert Chunks(codec, buffer, size)[1..] == FuChunks(prefix, kind, rest, false);
    ReassembleRest(codec, buffer, rest, Receiver(rx.units, Some(buffer[..h] + head)));
    assert buffer[..h] + head + rest == buffer[..h + size];
  }

  /** Units that can travel in a packet of their own without being taken for something else. */
  predicate Deliverable(codec: Codec, unit: seq<byte>) {
    match codec
    case H264 => |unit| >= 1 && 1 <= unit[0] % 32 <= 23
    case H265 => |unit| >= 2 && unit[0] / 2 % 64 < 48
  }

  /** A unit of at most 1400 bytes arrives exactly as it was sent if, and only if, its type does not
      belong to the payload formats themselves. */
  lemma SinglePacketDelivery(codec: Codec, buffer: seq<byte>, size: nat, rx: Receiver)
    requires 0 < size <= PTK_RTP_TCP_MAX && size <= |buffer| && rx.partial == None
    ensures ReceiveAll(codec, rx, Payloads(Chunks(codec, buffer, size)))
            == Receiver(rx.units + [buffer[..size]], None)
            <==> Deliverable(codec, buffer[..size])
  {
    var unit := buffer[..size];
    assert Chunks(codec, buffer, size) == [Chunk(true, unit)];
    assert Payloads([Chunk(true, unit)]) == [unit] + Payloads([]);
    assert ReceiveAll(codec, rx, [unit]) == Receive(codec, rx, unit);
    if !Deliverable(codec, unit) {
      Undelivered(codec, unit, rx);
    }
  }

  lemma Undelivered(codec: Codec, unit: seq<byte>, rx: Receiver)
    requires !Deliverable(codec, unit) && rx.partial == None
    ensures Receive(codec, rx, unit) != Receiver(rx.units + [unit], None)
  {
    assert |Receive(codec, rx, unit).units| == |rx.units|;
  }

  /** As long as its last packet is missing, a unit is not delivered: neither in part nor as anything else. */
  lemma CutShort(codec: Codec, buffer: seq<byte>, size: nat, rx: Receiver, k: nat)
    requires 0 < size && Carried(codec, size) <= |buffer| && k < |Chunks(codec, buffer, size)|
    ensures ReceiveAll(codec, rx, Payloads(Chunks(codec, buffer, size))[..k]).units == rx.units
  {
    if size > PTK_RTP_TCP_MAX && k > 0 {
      var h, prefix, kind := HeaderSize(codec), FuPrefix(codec, buffer), NalType(codec, buffer);
      var data := buffer[h..h + size];
      var head, rest := data[..PTK_RTP_TCP_MAX], data[PTK_RTP_TCP_MAX..];
      FragmentMeaning(codec, buffer, true, false, head);
      var payloads := Payloads(Chunks(codec, buffer, size));
      assert Chunks(codec, buffer, size)[1..] == FuChunks(prefix, kind, rest, false);
      assert payloads[..k][1..] == payloads[1..][..k - 1];
      CutShortRest(codec, buffer, rest, Receiver(rx.units, Some(buffer[..h] + head)), k - 1);
    }
  }

  lemma {:induction false} CutShortRest(codec: Codec, nal: seq<byte>, data: seq<byte>, rx: Receiver, k: nat)
    requires |nal| >= 2 && rx.partial.Some?
    requires k < |FuChunks(FuPrefix(codec, nal), NalType(codec, nal), data, false)|
    ensures ReceiveAll(codec, rx, Payloads(FuChunks(FuPrefix(codec, nal), NalType(codec, nal), data, false))[..k]).units
            == rx.units
    decreases k
  {
    if k > 0 {
      var prefix, kind := FuPrefix(codec, nal), NalType(codec, nal);
      var n := Min(|data|, PTK_RTP_TCP_MAX);
      var payloads := Payloads(FuChunks(prefix, kind, data, false));
      assert n < |data|;
      FragmentMeaning(codec, nal, false, false, data[..n]);
      assert FuChunks(prefix, kind, data, false)[1..] == FuChunks(prefix, kind, data[n..], false);
      assert payloads[..k][1..] == payloads[1..][..k - 1];
      CutShortRest(codec, nal, data[n..], Receiver(rx.units, Some(rx.partial.value + data[..n])), k - 1);
    }
  }
}
