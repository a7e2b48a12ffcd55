/** The media thread's splitter: a buffer of one packet from the bitstream filter is cut into NAL units,
    which are handed to the callback one by one. */
module Media {
  import opened Bytes
  import opened AnnexB

  datatype Stat = READ | WRITE

  /** What the callback is given for one unit: its length as computed, and its bytes when that is not negative.
      A negative length is recorded here and the loop goes on, as it does when no client has set up video; with
      one that has, `sendData` would hand the length to `memcpy`. */
  datatype Delivery = Delivery(length: int, bytes: seq<byte>)

  /** The filter's buffers carry at least four zero bytes behind the packet. */
  predicate Padded(buf: seq<byte>, size: nat) {
    && size + 4 <= |buf|
    && forall i :: size <= i < size + 4 ==> buf[i] == 0
  }

  predicate StartCode3(buf: seq<byte>, at: nat)
    requires at + 3 <= |buf|
  {
    buf[at] == 0 && buf[at + 1] == 0 && buf[at + 2] == 1
  }

  predicate StartCode4(buf: seq<byte>, at: nat)
    requires at + 4 <= |buf|
  {
    buf[at] == 0 && buf[at + 1] == 0 && buf[at + 2] == 0 && buf[at + 3] == 1
  }

  /** With the padding, looking past the end finds no start code that is not in the data. */
  lemma PaddingHidesNothing(buf: seq<byte>, size: nat, at: nat)
    requires Padded(buf, size) && at <= size
    ensures StartCode3(buf, at) <==> Code3(buf[..size], at)
    ensures StartCode4(buf, at) <==> Code4(buf[..size], at)
  {
  }

  /** Where the cut at `pos` ends. */
  function CutEnd(d: seq<byte>, pos: nat): (n: nat)
    requires Code(d, pos)
    ensures pos + 3 <= n <= |d| && (n < |d| ==> Code(d, n))
  {
    NextCode(d, pos + CodeLengthAt(d, pos))
  }

  function CodeLengthAt(d: seq<byte>, pos: nat): nat {
    if Code3(d, pos) then 3 else 4
  }

  function DeliveryAt(d: seq<byte>, pos: nat): Delivery
    requires Code(d, pos)
  {
    var from, end := pos + CodeLengthAt(d, pos), CutEnd(d, pos);
    Delivery(end - from, d[from..end])
  }

  /** Everything the splitter delivers from `pos` on; nothing when there is no start code there. */
  function ToDeliver(d: seq<byte>, pos: nat): seq<Delivery>
    decreases |d| - pos
  {
    if !Code(d, pos) then [] else [DeliveryAt(d, pos)] + ToDeliver(d, CutEnd(d, pos))
  }

  function Deliveries(payloads: seq<seq<byte>>): seq<Delivery> {
    if payloads == [] then []
    else [Delivery(|payloads[0]|, payloads[0])] + Deliveries(payloads[1..])
  }

  lemma CutShift(d: seq<byte>, pos: nat)
    requires pos < |d| && Code(d, pos)
    ensures Begins(d[pos..]) && CodeLength(d[pos..]) == CodeLengthAt(d, pos)
    ensures CutEnd(d, pos) == pos + NextCode(d[pos..], CodeLength(d[pos..]))
  {
    var rest := d[pos..];
    CodesShift(d, pos);
    var m := NextCode(rest, CodeLength(rest));
    NextCodeIsLeftmost(rest, CodeLength(rest));
    assert m < |rest| ==> Code(d, pos + m);
    NextCodeUnique(d, pos + CodeLength(rest), pos + m);
  }

  /** The first of the cuts, seen at its place in the whole buffer. */
  lemma FirstCutAt(d: seq<byte>, pos: nat)
    requires pos < |d| && Code(d, pos)
    ensures var n := CutEnd(d, pos);
            && Begins(d[pos..]) && Begins(d[n..]) && pos + CodeLengthAt(d, pos) <= n
            && Payloads(Cuts(d[pos..])) == [d[pos + CodeLengthAt(d, pos)..n]] + Payloads(Cuts(d[n..]))
  {
    var n := CutEnd(d, pos);
    CutShift(d, pos);
    FirstOfCuts(d[pos..]);
    TailSlices(d, pos, CodeLengthAt(d, pos), n - pos);
  }

  lemma DeliveriesStep(first: seq<byte>, more: seq<seq<byte>>)
    ensures Deliveries([first] + more) == [Delivery(|first|, first)] + Deliveries(more)
  {
    assert ([first] + more)[1..] == more;
  }

  lemma FirstDelivery(d: seq<byte>, pos: nat)
    requires pos < |d| && Code(d, pos)
    ensures Begins(d[pos..]) && Begins(d[CutEnd(d, pos)..])
    ensures Deliveries(Payloads(Cuts(d[pos..])))
         == [DeliveryAt(d, pos)] + Deliveries(Payloads(Cuts(d[CutEnd(d, pos)..])))
  {
    hide Cuts, Payloads, Deliveries, CutEnd, Begins, Code;
    FirstCutAt(d, pos);
    DeliveriesStep(d[pos + CodeLengthAt(d, pos)..CutEnd(d, pos)], Payloads(Cuts(d[CutEnd(d, pos)..])));
  }

  /** There is something to deliver as long as the data is not used up. */
  lemma NothingToDeliver(d: seq<byte>)
    ensures ToDeliver(d, |d|) == []
    ensures forall pos: nat :: Code(d, pos) ==> ToDeliver(d, pos) != []
  {
  }

  lemma NothingLeft(d: seq<byte>)
    ensures Begins(d[|d|..]) && ToDeliver(d, |d|) == [] == Deliveries(Payloads(Cuts(d[|d|..])))
  {
    assert d[|d|..] == [];
  }

  lemma {:induction false} ToDeliverFrom(d: seq<byte>, pos: nat)
    requires pos <= |d| && (pos < |d| ==> Code(d, pos))
    ensures Begins(d[pos..])
    ensures ToDeliver(d, pos) == Deliveries(Payloads(Cuts(d[pos..])))
    decreases |d| - pos
  {
    hide Cuts, Payloads, CutEnd, Code, Begins, DeliveryAt, Deliveries;
    if pos < |d| {
      var n := CutEnd(d, pos);
      FirstDelivery(d, pos);
      ToDeliverFrom(d, n);
    } else {
      NothingLeft(d);
    }
  }

  lemma CodesShift(d: seq<byte>, pos: nat)
    requires pos <= |d|
    ensures forall i: nat :: Code(d[pos..], i) == Code(d, pos + i)
    ensures Code3(d[pos..], 0) == Code3(d, pos)
    ensures forall k: nat :: k >= pos ==> Code(d, k) == Code(d[pos..], k - pos)
  {
  }

  /** What is delivered of a buffer that begins with a start code: the payloads of its cuts. */
  lemma DeliversTheCuts(d: seq<byte>)
    requires Begins(d)
    ensures ToDeliver(d, 0) == Deliveries(Payloads(Cuts(d)))
  {
    assert d[0..] == d;
    if d != [] {
      ToDeliverFrom(d, 0);
    }
  }

  lemma {:induction false} DeliveriesInjective(a: seq<seq<byte>>, b: seq<seq<byte>>)
    requires Deliveries(a) == Deliveries(b)
    ensures a == b
  {
    if a != [] && b != [] {
      assert Deliveries(a)[0] == Deliveries(b)[0];
      assert Deliveries(a)[1..] == Deliveries(a[1..]) && Deliveries(b)[1..] == Deliveries(b[1..]);
      DeliveriesInjective(a[1..], b[1..]);
    }
  }

  /** Units joined by any mix of start codes are delivered as they were exactly when they are separable. */
  lemma DeliversTheUnits(nals: seq<Nal>)
    ensures ToDeliver(Join(nals), 0) == Deliveries(Datas(nals)) <==> Separable(nals)
  {
    RoundTrip(nals);
    DeliversTheCuts(Join(nals));
    if ToDeliver(Join(nals), 0) == Deliveries(Datas(nals)) {
      DeliveriesInjective(Payloads(Cuts(Join(nals))), Datas(nals));
    }
  }

  class MediaInfo {
    // buf_st
    var buf: seq<byte>
    var bufSize: nat
    var bufStat: Stat
    var pos: nat
    // frame_st: where the unit begins in `buf`
    var frame: nat
    var frameSize: int
    var startCode: nat
    var frameStat: Stat
    // the streams of the file, and the one the packet read last belongs to
    const videoStreamIndex: int
    const audioStreamIndex: int
    var nowStreamIndex: int
    // what went through the callback
    var delivered: seq<Delivery>

    constructor (buf: seq<byte>, bufSize: nat, videoStreamIndex: int, audioStreamIndex: int)
      ensures this.buf == buf && this.bufSize == bufSize && pos == 0
      ensures this.videoStreamIndex == videoStreamIndex == nowStreamIndex && this.audioStreamIndex == audioStreamIndex
      ensures bufStat == READ && frameStat == WRITE && delivered == []
    {
      this.buf, this.bufSize, bufStat, pos := buf, bufSize, READ, 0;
      frame, frameSize, startCode, frameStat, delivered := 0, 0, 0, WRITE, [];
      this.videoStreamIndex, this.audioStreamIndex, nowStreamIndex := videoStreamIndex, audioStreamIndex, videoStreamIndex;
    }

    /** The packet that is being cut is a video packet. */
    predicate NowVideo()
      reads this
    {
      nowStreamIndex == videoStreamIndex != audioStreamIndex
    }

    ghost function Data(): seq<byte>
      reads this
      requires bufSize <= |buf|
    {
      buf[..bufSize]
    }

    /** The next unit, start code included: its size, or -1 at the end of the data (which turns the buffer
        writable) and in front of anything but a start code (which changes nothing). */
    method GetNALUFromBuf() returns (size: int)
      requires Padded(buf, bufSize) && pos <= bufSize
      modifies this`frame, this`pos, this`bufStat
      ensures !Code(Data(), old(pos)) ==>
                && size == -1 && pos == old(pos) && frame == old(frame)
                && bufStat == if old(pos) == bufSize then WRITE else old(bufStat)
      ensures Code(Data(), old(pos)) ==>
                && frame == old(pos) && pos == CutEnd(Data(), old(pos)) && size == pos - old(pos)
                && bufStat == if pos == bufSize then WRITE else old(bufStat)
    {
      ghost var data := Data();
      if pos >= bufSize {
        bufStat := WRITE;
        return -1;
      }
      PaddingHidesNothing(buf, bufSize, pos);
      if !StartCode3(buf, pos) && !StartCode4(buf, pos) {
        return -1;
      }
      var code := if StartCode3(buf, pos) then 3 else 4;
      var tmp, found, i := pos + code, false, 0;
      while i < bufSize - pos - 3 && !found
        invariant 0 <= i && tmp == pos + code + i
        invariant i > 0 ==> i <= bufSize - pos - 3
        invariant tmp <= bufSize + 1 && (found ==> tmp < bufSize && Code(data, tmp))
        invariant forall k :: pos + code <= k < tmp && k < bufSize ==> !Code(data, k)
        modifies {}
        decreases bufSize - pos - 3 - i, !found
      {
        PaddingHidesNothing(buf, bufSize, tmp);
        if StartCode3(buf, tmp) || StartCode4(buf, tmp) {
          found := true;
        } else {
          tmp := tmp + 1;
          i := i + 1;
        }
      }
      size := if found then tmp - pos else bufSize - pos;
      NextCodeUnique(data, pos + code, pos + size);
      frame := pos;
      pos := pos + size;
      if pos >= bufSize {
        bufStat := WRITE;
      }
    }

    /** One unit from the buffer to the frame, unless the frame is still unread or the buffer used up. */
    method PraseFrame()
      requires Padded(buf, bufSize) && pos <= bufSize
      modifies this
      ensures buf == old(buf) && bufSize == old(bufSize) && delivered == old(delivered)
      ensures nowStreamIndex == old(nowStreamIndex)
      ensures old(frameStat == READ || bufStat == WRITE) ==>
                && pos == old(pos) && bufStat == old(bufStat) && frameStat == old(frameStat)
                && frame == old(frame) && frameSize == old(frameSize) && startCode == old(startCode)
      ensures old(frameStat == WRITE && bufStat == READ) && !Code(Data(), old(pos)) ==>
                && frameSize == -1 && pos == old(pos) && frameStat == WRITE
                && bufStat == if old(pos) == bufSize then WRITE else READ
      ensures old(frameStat == WRITE && bufStat == READ) && Code(Data(), old(pos)) ==>
                && frame == old(pos) && pos == CutEnd(Data(), old(pos)) && frameSize == pos - old(pos)
                && startCode == CodeLengthAt(Data(), old(pos)) && frameStat == READ
                && bufStat == if pos == bufSize then WRITE else READ
    {
      if frameStat == READ || bufStat == WRITE {
        return;
      }
      frameSize := GetNALUFromBuf();
      if frameSize < 0 {
        return;
      }
      PaddingHidesNothing(buf, bufSize, frame);
      if StartCode3(buf, frame) {
        startCode := 3;
      } else {
        startCode := 4;
      }
      frameStat := READ;
    }

    /** The callback's view of the unit. (The test of the frame's state is an assignment in the source, so
        it always succeeds.) While an audio packet is on hand there is none: -1, and the caller keeps the null
        pointer and the length 0 that it came with. */
    method GetVideoNALUWithoutStartCode() returns (ret: int, at: nat, length: int)
      modifies this`frameStat
      ensures nowStreamIndex == audioStreamIndex ==>
                ret == -1 && frameStat == old(frameStat) && at == 0 && length == 0
      ensures nowStreamIndex != audioStreamIndex ==>
                ret == 0 && frameStat == READ && at == frame + startCode && length == frameSize - startCode
    {
      if nowStreamIndex == audioStreamIndex {
        return -1, 0, 0;
      }
      frameStat := READ;
      return 0, frame + startCode, frameSize - startCode;
    }

    /** What the clients' callbacks copy. */
    method DataCallBack()
      requires NowVideo()
      requires frameSize >= startCode ==> frame + frameSize <= |buf|
      modifies this`frameStat, this`delivered
      ensures var length := frameSize - startCode;
              delivered == old(delivered)
                + [Delivery(length, if length >= 0 then buf[frame + startCode..frame + frameSize] else [])]
    {
      var _, at, length := GetVideoNALUWithoutStartCode();
      delivered := delivered + [Delivery(length, if length >= 0 then buf[at..at + length] else [])];
    }

    /** One turn of the delivery loop: the next cut of the data goes through the callback. */
    method Turn() returns (ghost d: Delivery)
      requires Padded(buf, bufSize) && pos <= bufSize && bufStat == READ && frameStat == WRITE && NowVideo()
      modifies this
      ensures buf == old(buf) && bufSize == old(bufSize) && pos <= bufSize && frameStat == WRITE && NowVideo()
      ensures delivered == old(delivered) + [d]
      ensures bufStat == WRITE <==> pos == bufSize
      ensures Code(Data(), old(pos)) ==>
                && pos >= old(pos) + 3 && (pos < bufSize ==> Code(Data(), pos))
                && ToDeliver(Data(), old(pos)) == [d] + ToDeliver(Data(), pos)
      ensures !Code(Data(), old(pos)) ==> pos == old(pos) && d.length < 0
    {
      ghost var data, at := Data(), pos;
      PraseFrame();
      DataCallBack();
      frameStat := WRITE;
      d := delivered[|delivered| - 1];
      if Code(data, at) {
        PrefixSlice(buf, bufSize, at + startCode, pos);
        assert d == DeliveryAt(data, at);
      }
    }

    /** The delivery loop for one buffer, with the run flag cleared after `turns` turns. A buffer that begins
        with a start code is delivered cut by cut, and is used up exactly when there were turns enough. A
        buffer without data takes one turn, which calls back with a negative length. A buffer that does not begin
        with a start code is never used up: as long as nobody copies by the negative lengths, every turn calls back
        with nothing new. */
    method DeliverBuffer(turns: nat)
      requires Padded(buf, bufSize) && pos == 0 && bufStat == READ && frameStat == WRITE && NowVideo()
      modifies this
      ensures buf == old(buf) && bufSize == old(bufSize)
      ensures bufSize == 0 ==>
                if turns == 0 then delivered == old(delivered) && bufStat == READ
                else && bufStat == WRITE
                     && |delivered| == |old(delivered)| + 1 && delivered[..|old(delivered)|] == old(delivered)
                     && delivered[|old(delivered)|].length < 0
      ensures Begins(Data()) && bufSize > 0 ==>
                var all := Deliveries(Payloads(Cuts(Data())));
                && (turns >= |all| ==> delivered == old(delivered) + all && bufStat == WRITE)
                && (turns < |all| ==> delivered == old(delivered) + all[..turns] && bufStat == READ)
      ensures !Begins(Data()) ==>
                && bufStat == READ && pos == 0
                && |delivered| == |old(delivered)| + turns && delivered[..|old(delivered)|] == old(delivered)
                && forall i :: |old(delivered)| <= i < |delivered| ==> delivered[i].length < 0
    {
      hide Payloads, Cuts, Deliveries, CutEnd;
      var turn := 0;
      ghost var data, start := Data(), delivered;
      ghost var given: seq<Delivery>, todo := [], ToDeliver(data, 0);
      ghost var all := todo;
      while bufStat == READ && turn < turns
        invariant buf == old(buf) && bufSize == old(bufSize) && pos <= bufSize && turn <= turns
        invariant frameStat == WRITE && NowVideo()
        invariant bufStat == WRITE <==> pos == bufSize && turn > 0
        invariant delivered == start + given && |given| == turn
        invariant Code(data, 0) ==> given + todo == all && todo == ToDeliver(data, pos)
        invariant Code(data, 0) && pos < bufSize ==> Code(data, pos)
        invariant !Code(data, 0) ==> pos == 0 && forall d <- given :: d.length < 0
        invariant bufSize == 0 ==> turn <= 1
        decreases turns - turn
      {
        ghost var d := Turn();
        if Code(data, 0) {
          todo := ToDeliver(data, pos);
          Assoc(given, [d], todo);
        }
        Assoc(start, given, [d]);
        given := given + [d];
        turn := turn + 1;
      }
      if Code(data, 0) {
        DeliversTheCuts(data);
        NothingToDeliver(data);
        assert given == all[..|given|];
        assert bufStat == WRITE ==> given == all;
      }
    }
  }
}
