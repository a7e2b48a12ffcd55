/** Interleaved frames on the RTSP connection: '$', channel, 16-bit length, data
    (section 10.12 of RFC 2326). */
module Interleaved {
  import opened Bytes

  const MAGIC: byte := 0x24

  datatype Frame = Frame(channel: byte, data: seq<byte>)

  /** The four header bytes as the sender writes them: the length is cut to 16 bits. */
  function Header(channel: byte, length: nat): seq<byte> {
    [MAGIC, channel] + Be16(length % 0x1_0000)
  }

  function Print(f: Frame): seq<byte> {
    Header(f.channel, |f.data|) + f.data
  }

  function PrintAll(fs: seq<Frame>): seq<byte> {
    if fs == [] then [] else Print(fs[0]) + PrintAll(fs[1..])
  }

  /** What a receiver makes of a byte stream: the complete frames, and the bytes that do not
      form a complete frame yet. */
  datatype Parsed = Parsed(frames: seq<Frame>, rest: seq<byte>)

  function Deframe(wire: seq<byte>): Parsed {
    if |wire| < 4 || wire[0] != MAGIC then
      Parsed([], wire)
    else
      var n := FromBe16(wire[2], wire[3]);
      if |wire| < 4 + n then
        Parsed([], wire)
      else
        var tail := Deframe(wire[4 + n..]);
        Parsed([Frame(wire[1], wire[4..4 + n])] + tail.frames, tail.rest)
  }

  ghost predicate Fits(fs: seq<Frame>) {
    forall f <- fs :: |f.data| < 0x1_0000
  }

  /** Bytes that a receiver keeps waiting on: the beginning of one frame, but not all of it. */
  ghost predicate Incomplete(tail: seq<byte>, f: Frame) {
    |f.data| < 0x1_0000 && |tail| < |Print(f)| && tail == Print(f)[..|tail|]
  }

  lemma HeaderSays(channel: byte, length: nat)
    requires length < 0x1_0000
    ensures var h := Header(channel, length);
            |h| == 4 && h[0] == MAGIC && h[1] == channel && FromBe16(h[2], h[3]) == length
  {
  }

  /** One frame in front of anything is recognised. */
  lemma DeframePrint(f: Frame, wire: seq<byte>)
    requires |f.data| < 0x1_0000
    ensures var more := Deframe(wire);
            Deframe(Print(f) + wire) == Parsed([f] + more.frames, more.rest)
  {
    HeaderSays(f.channel, |f.data|);
    hide Header, FromBe16;
    var w := Print(f) + wire;
    assert w[..4] == Header(f.channel, |f.data|);
    assert w[4..4 + |f.data|] == f.data;
    assert w[4 + |f.data|..] == wire;
  }

  lemma DeframeIncomplete(f: Frame, tail: seq<byte>)
    requires Incomplete(tail, f)
    ensures Deframe(tail) == Parsed([], tail)
  {
    if |tail| >= 4 {
      assert tail[2] == Print(f)[2] && tail[3] == Print(f)[3];
    }
  }

  lemma DeframeNothing()
    ensures Deframe([]) == Parsed([], [])
  {
  }

  /** Every frame written is recovered and nothing else is, whatever part of a further frame
      has been written behind them. */
  lemma {:induction false} DeframeInvertsPrint(fs: seq<Frame>, tail: seq<byte>)
    requires Fits(fs)
    requires tail == [] || exists f :: Incomplete(tail, f)
    ensures Deframe(PrintAll(fs) + tail) == Parsed(fs, tail)
  {
    hide Print, Incomplete, Deframe;
    if fs == [] {
      assert PrintAll(fs) + tail == tail;
      DeframeNothing();
      if tail != [] {
        var f :| Incomplete(tail, f);
        DeframeIncomplete(f, tail);
      }
    } else {
      assert PrintAll(fs) + tail == Print(fs[0]) + (PrintAll(fs[1..]) + tail);
      DeframeInvertsPrint(fs[1..], tail);
      DeframePrint(fs[0], PrintAll(fs[1..]) + tail);
    }
  }

  lemma Reprint(wire: seq<byte>)
    requires |wire| >= 4 && wire[0] == MAGIC
    requires 4 + FromBe16(wire[2], wire[3]) <= |wire|
    ensures var n: nat := FromBe16(wire[2], wire[3]);
            Print(Frame(wire[1], wire[4..4 + n])) == wire[..4 + n]
  {
    var n: nat := FromBe16(wire[2], wire[3]);
    assert Be16(n) == wire[2..4];
  }

  lemma PrintAllCons(f: Frame, fs: seq<Frame>)
    ensures PrintAll([f] + fs) == Print(f) + PrintAll(fs)
    ensures |f.data| < 0x1_0000 && Fits(fs) ==> Fits([f] + fs)
  {
    assert ([f] + fs)[1..] == fs;
  }

  /** A complete frame in front: what it prints is in front, what is behind it is what remains to be recognised. */
  lemma FrameInFront(wire: seq<byte>, n: nat)
    requires |wire| >= 4 && wire[0] == MAGIC && n == FromBe16(wire[2], wire[3]) && 4 + n <= |wire|
    ensures var f, more := Frame(wire[1], wire[4..4 + n]), Deframe(wire[4 + n..]);
            && Deframe(wire) == Parsed([f] + more.frames, more.rest)
            && n < 0x1_0000 && wire == Print(f) + wire[4 + n..]
  {
    Reprint(wire);
    hide Print;
    assert wire == wire[..4 + n] + wire[4 + n..];
  }

  /** Nothing is lost or invented on the way in: what the receiver recognised, printed again,
      and what it kept back are the stream it was given. */
  lemma {:induction false} PrintInvertsDeframe(wire: seq<byte>)
    ensures var p := Deframe(wire); Fits(p.frames) && PrintAll(p.frames) + p.rest == wire
  {
    if |wire| >= 4 && wire[0] == MAGIC && 4 + FromBe16(wire[2], wire[3]) <= |wire| {
      hide Print, PrintAll, Deframe, Fits, FromBe16;
      var n: nat := FromBe16(wire[2], wire[3]);
      var head, more := Frame(wire[1], wire[4..4 + n]), Deframe(wire[4 + n..]);
      FrameInFront(wire, n);
      PrintInvertsDeframe(wire[4 + n..]);
      PrintAllCons(head, more.frames);
      Assoc(Print(head), PrintAll(more.frames), more.rest);
    } else {
      assert Deframe(wire) == Parsed([], wire);
    }
  }

  /** The stream is uniquely decodable exactly when every length fits its 16-bit field. */
  lemma UniquelyDecodable(fs: seq<Frame>)
    ensures Deframe(PrintAll(fs)) == Parsed(fs, []) <==> Fits(fs)
  {
    if Fits(fs) {
      assert PrintAll(fs) + [] == PrintAll(fs);
      DeframeInvertsPrint(fs, []);
    } else {
      PrintInvertsDeframe(PrintAll(fs));
    }
  }

  lemma {:induction false} PrintAllAppend(a: seq<Frame>, b: seq<Frame>)
    ensures PrintAll(a + b) == PrintAll(a) + PrintAll(b)
  {
    if a == [] {
      assert a + b == b;
    } else {
      assert (a + b)[1..] == a[1..] + b;
      PrintAllAppend(a[1..], b);
      Assoc(Print(a[0]), PrintAll(a[1..]), PrintAll(b));
    }
  }

  /** The data of the frames of one channel, in order. */
  function OnChannel(fs: seq<Frame>, channel: byte): seq<seq<byte>> {
    if fs == [] then []
    else (if fs[0].channel == channel then [fs[0].data] else []) + OnChannel(fs[1..], channel)
  }

  lemma {:induction false} OnChannelAppend(a: seq<Frame>, b: seq<Frame>, channel: byte)
    ensures OnChannel(a + b, channel) == OnChannel(a, channel) + OnChannel(b, channel)
  {
    if a == [] {
      assert a + b == b;
    } else {
      assert (a + b)[1..] == a[1..] + b;
      OnChannelAppend(a[1..], b, channel);
      Assoc(OnChannel(a[..1], channel), OnChannel(a[1..], channel), OnChannel(b, channel));
    }
  }
}
