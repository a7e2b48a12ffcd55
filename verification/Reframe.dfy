/** The camera demo turns length-prefixed packets into interleaved frames in place. */
module Reframe {
  import opened Bytes
  import opened Interleaved

  /** A packet as the packetizer library leaves it: its size in network order, then its data. */
  function Record(packet: seq<byte>): seq<byte>
    requires |packet| < 0x1_0000_0000
  {
    Be32(|packet|) + packet
  }

  ghost predicate Sized(packets: seq<seq<byte>>) {
    forall p <- packets :: |p| < 0x1_0000_0000
  }

  function Records(packets: seq<seq<byte>>): seq<byte>
    requires forall p <- packets :: |p| < 0x1_0000_0000
  {
    if packets == [] then [] else Record(packets[0]) + Records(packets[1..])
  }

  function FramesOf(packets: seq<seq<byte>>): (fs: seq<Frame>)
    ensures |fs| == |packets|
    ensures forall i :: 0 <= i < |packets| ==> fs[i] == Frame(0, packets[i])
  {
    seq(|packets|, i requires 0 <= i < |packets| => Frame(0, packets[i]))
  }

  /** An integer in the memory of a little-endian host. */
  function Load32(b0: byte, b1: byte, b2: byte, b3: byte): u32 {
    (b0 + 0x100 * b1) + 0x1_0000 * (b2 + 0x100 * b3)
  }

  lemma SwappedBytes(a: byte, b: byte)
    ensures var x: int := a + 0x100 * b; Swap16(x) == 0x100 * a + b
  {
  }

  /** `ntohl` of a load reads the network order. */
  lemma LoadedSize(x: u32, m: seq<byte>)
    requires m == Be32(x)
    ensures Swap32(Load32(m[0], m[1], m[2], m[3])) == x
  {
    hide Swap16;
    var hi, lo := x / 0x1_0000, x % 0x1_0000;
    var first: int, second: int := m[0] + 0x100 * (m[1] as int), m[2] + 0x100 * (m[3] as int);
    SwappedBytes(m[0], m[1]);
    SwappedBytes(m[2], m[3]);
    assert Swap16(first) == hi && Swap16(second) == lo;
    var v: int := first + 0x1_0000 * second;
    assert v % 0x1_0000 == first && v / 0x1_0000 == second;
  }

  /** The two bytes that the sender stores are the frame's length, cut to 16 bits. */
  lemma StoredSize(size: u32)
    ensures Be16(size % 0x1_0000) == [size / 0x100 % 0x100, size % 0x100]
  {
    var q := size / 0x1_0000;
    var low := size % 0x1_0000;
    assert size == 0x100 * (0x100 * q + low / 0x100) + low % 0x100;
  }

  lemma NextRecord(packets: seq<seq<byte>>, i: nat, behind: seq<byte>)
    requires i < |packets| && Sized(packets)
    ensures Records(packets[i..]) == Record(packets[i]) + Records(packets[i + 1..])
    ensures Records(packets[i..]) + behind == Record(packets[i]) + (Records(packets[i + 1..]) + behind)
  {
    assert packets[i..][1..] == packets[i + 1..];
    Assoc(Record(packets[i]), Records(packets[i + 1..]), behind);
  }

  lemma NextFrame(packets: seq<seq<byte>>, i: nat)
    requires i < |packets|
    ensures PrintAll(FramesOf(packets[..i + 1])) == PrintAll(FramesOf(packets[..i])) + Print(Frame(0, packets[i]))
  {
    var f := Frame(0, packets[i]);
    assert FramesOf(packets[..i + 1]) == FramesOf(packets[..i]) + [f];
    PrintAllAppend(FramesOf(packets[..i]), [f]);
    assert PrintAll([f]) == Print(f) + PrintAll([]);
  }

  /** Four bytes changed in front make a frame of a record. */
  lemma RecordToFrame(packet: seq<byte>, later: seq<byte>, tail: seq<byte>, after: seq<byte>)
    requires |packet| < 0x1_0000_0000 && tail == Record(packet) + later
    requires |after| == |tail| && after[..4] == Header(0, |packet|) && after[4..] == tail[4..]
    ensures after == Print(Frame(0, packet)) + later
  {
    assert tail[4..] == packet + later;
    assert after == after[..4] + after[4..];
    Assoc(Header(0, |packet|), packet, later);
  }

  lemma SizeInFront(packet: seq<byte>, later: seq<byte>)
    requires |packet| < 0x1_0000_0000
    ensures (Record(packet) + later)[..4] == Be32(|packet|)
  {
  }

  /** One turn of the loop: the record at `pos` becomes a frame. */
  method ReframeOne(data: array<byte>, pos: nat, ghost packet: seq<byte>, ghost later: seq<byte>) returns (size: nat)
    requires pos <= data.Length && |packet| < 0x1_0000_0000 && data[pos..] == Record(packet) + later
    modifies data
    ensures size == |packet|
    ensures data[..pos] == old(data[..pos]) && data[pos..] == Print(Frame(0, packet)) + later
  {
    hide Print, Record, Load32, Swap32;
    ghost var tail := data[pos..];
    SizeInFront(packet, later);
    FrameSize(packet);
    LoadedSize(|packet|, tail[..4]);
    size := Swap32(Load32(data[pos], data[pos + 1], data[pos + 2], data[pos + 3]));
    StoredSize(size);
    data[pos] := 0x24;
    data[pos + 1] := 0;
    data[pos + 2] := size / 0x100 % 0x100;
    data[pos + 3] := size % 0x100;
    assert data[pos..][..4] == Header(0, |packet|);
    assert data[pos..][4..] == tail[4..];
    RecordToFrame(packet, later, tail, data[pos..]);
  }

  method VideoEncodeCallback(data: array<byte>, packetNum: nat, ghost packets: seq<seq<byte>>, ghost behind: seq<byte>)
    returns (sumSize: nat)
    requires |packets| == packetNum && Sized(packets) && data[..] == Records(packets) + behind
    modifies data
    ensures data[..] == PrintAll(FramesOf(packets)) + behind
    ensures sumSize == |Records(packets)|
  {
    hide PrintAll, Print, Record, Records;
    var pos := 0;
    sumSize := 0;
    assert packets[0..] == packets && data[0..] == data[..];
    NoFrames(packets);
    for i := 0 to packetNum
      invariant sumSize == pos <= data.Length
      invariant data[..pos] == PrintAll(FramesOf(packets[..i]))
      invariant data[pos..] == Records(packets[i..]) + behind
      invariant pos + |Records(packets[i..])| == |Records(packets)|
    {
      NextRecord(packets, i, behind);
      NextFrame(packets, i);
      FrameSize(packets[i]);
      ghost var done := data[..pos];
      var size := ReframeOne(data, pos, packets[i], Records(packets[i + 1..]) + behind);
      sumSize := sumSize + (size + 4);
      ghost var tail := data[pos..];
      assert data[..pos + size + 4] == done + tail[..size + 4];
      pos := pos + size + 4;
      assert data[pos..] == tail[size + 4..];
    }
    assert packets[..packetNum] == packets;
    NoRecords(packets);
    assert data[..] == data[..pos] + data[pos..];
  }

  lemma FrameSize(packet: seq<byte>)
    requires |packet| < 0x1_0000_0000
    ensures |Print(Frame(0, packet))| == |packet| + 4 == |Record(packet)|
  {
  }

  lemma NoFrames(packets: seq<seq<byte>>)
    ensures PrintAll(FramesOf(packets[..0])) == []
  {
  }

  lemma NoRecords(packets: seq<seq<byte>>)
    ensures Records(packets[|packets|..]) == []
  {
  }

  /** What a receiver finds in the buffer afterwards is the packets, on channel 0, exactly when every packet's size
      fits the frame's length field. */
  lemma PacketsSurvive(packets: seq<seq<byte>>)
    ensures Deframe(PrintAll(FramesOf(packets))) == Parsed(FramesOf(packets), [])
            <==> forall p <- packets :: |p| < 0x1_0000
  {
    var fs := FramesOf(packets);
    UniquelyDecodable(fs);
    if Fits(fs) {
      forall p | p in packets
        ensures |p| < 0x1_0000
      {
        var i :| 0 <= i < |packets| && packets[i] == p;
        assert fs[i] in fs;
      }
    }
  }
}
