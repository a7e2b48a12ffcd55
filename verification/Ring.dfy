/** The ring buffer between the media thread and the epoll thread: it grows in place by opening
    a gap of four slots in front of the next packet to send. */
module Ring {
  import opened Bytes

  const RING_BUFFER_MAX := 32
  const INITIAL_SIZE := RING_BUFFER_MAX / 4
  const GAP := 4

  function Wrap(i: nat, size: nat): nat
    requires i < 2 * size
  {
    if i < size then i else i - size
  }

  /** The unread packets, oldest first. */
  function QueueOf<T>(list: seq<T>, pos: nat, num: nat): (q: seq<T>)
    requires pos < |list| && num <= |list|
    ensures |q| == num
    ensures forall k :: 0 <= k < num ==> q[k] == list[Wrap(pos + k, |list|)]
  {
    if pos + num <= |list| then list[pos..pos + num] else list[pos..] + list[..pos + num - |list|]
  }

  /** Opening the gap of a full ring changes neither the packets nor their order, and leaves the
      place where the next packet goes at the start of the gap. */
  lemma GrowthKeepsQueue<T>(list: seq<T>, gap: seq<T>, pos: nat)
    requires pos < |list| && |gap| == GAP
    ensures var grown := list[..pos] + gap + list[pos..];
            && QueueOf(grown, pos + GAP, |list|) == QueueOf(list, pos, |list|)
            && Wrap(pos + GAP + |list|, |grown|) == pos == Wrap(pos + |list|, |list|)
  {
    var grown := list[..pos] + gap + list[pos..];
    assert grown[pos + GAP..] == list[pos..];
    assert grown[..pos] == list[..pos];
  }

  lemma AppendToQueue<T>(list: seq<T>, pos: nat, num: nat, x: T)
    requires pos < |list| && num < |list|
    ensures QueueOf(list[Wrap(pos + num, |list|) := x], pos, num + 1) == QueueOf(list, pos, num) + [x]
  {
  }

  lemma TakeFromQueue<T>(list: seq<T>, pos: nat, num: nat)
    requires pos < |list| && 0 < num <= |list|
    ensures QueueOf(list, pos, num) == [list[pos]] + QueueOf(list, Wrap(pos + 1, |list|), num - 1)
  {
  }

  /** `realloc` to a larger size: the new slots hold anything. */
  method Realloc<T(0)>(a: array<T>, size: nat) returns (b: array<T>)
    requires a.Length <= size
    ensures fresh(b) && b.Length == size
    ensures b[..a.Length] == a[..]
  {
    b := new T[size];
    forall i | 0 <= i < a.Length {
      b[i] := a[i];
    }
  }

  /** `memmove(a + from + shift, a + from, count)`, which may overlap itself. */
  method MoveUp<T>(a: array<T>, from: nat, count: nat, shift: nat)
    requires from + count + shift <= a.Length
    modifies a
    ensures a[..from] == old(a[..from])
    ensures a[from + shift..from + shift + count] == old(a[from..from + count])
  {
    forall i | from <= i < from + count {
      a[i + shift] := a[i];
    }
  }

  function Max(a: int, b: int): int {
    if a > b then a else b
  }

  class PacketRing<T(0)> {
    var packetList: array<T>
    var posList: nat        // the next packet to send
    var packetNum: nat      // how many packets are unread
    var posLastPacket: nat  // where the next packet goes
    ghost var peak: nat     // the largest number of unread packets there has been

    ghost predicate Valid()
      reads this, packetList
    {
      && INITIAL_SIZE <= packetList.Length <= Max(INITIAL_SIZE, GAP + peak)
      && packetList.Length % GAP == 0
      && posList < packetList.Length
      && packetNum <= packetList.Length
      && packetNum <= peak
      && posLastPacket == Wrap(posList + packetNum, packetList.Length)
    }

    ghost function Contents(): seq<T>
      reads this, packetList
      requires Valid()
    {
      QueueOf(packetList[..], posList, packetNum)
    }

    constructor ()
      ensures Valid() && fresh(packetList)
      ensures Contents() == [] && peak == 0 && packetList.Length == 8
    {
      packetList := new T[INITIAL_SIZE];
      posList, packetNum, posLastPacket, peak := 0, 0, 0, 0;
    }

    /** `increaseClientList` for one ring: afterwards there is room for a packet. */
    method Increase()
      requires Valid()
      modifies this, packetList
      ensures Valid() && (packetList == old(packetList) || fresh(packetList))
      ensures Contents() == old(Contents()) && peak == old(peak)
      ensures packetNum < packetList.Length
      ensures packetList.Length == old(packetList.Length) + (if old(packetNum == packetList.Length) then 4 else 0)
    {
      hide QueueOf, Wrap;
      if packetNum >= packetList.Length {
        var size := packetList.Length;
        ghost var list := packetList[..];
        var grown := Realloc(packetList, size + GAP);
        MoveUp(grown, posList, size - posList, GAP);
        ghost var gap := grown[posList..posList + GAP];
        assert grown[..] == list[..posList] + gap + list[posList..];
        GrowthKeepsQueue(list, gap, posList);
        packetList := grown;
        posList := posList + GAP;
      }
    }

    /** Stores a packet in the free slot at the tail. */
    method Enqueue(x: T)
      requires Valid() && packetNum < packetList.Length
      modifies this, packetList
      ensures Valid() && packetList == old(packetList)
      ensures Contents() == old(Contents()) + [x]
      ensures peak == Max(old(peak), old(packetNum) + 1)
    {
      AppendToQueue(packetList[..], posList, packetNum, x);
      packetList[posLastPacket] := x;
      packetNum := packetNum + 1;
      posLastPacket := posLastPacket + 1;
      if posLastPacket >= packetList.Length {
        posLastPacket := 0;
      }
      peak := Max(peak, packetNum);
    }

    /** Takes the oldest packet, if there is one. */
    method Dequeue() returns (r: Option<T>)
      requires Valid()
      modifies this
      ensures Valid() && packetList == old(packetList) && peak == old(peak)
      ensures old(Contents()) == [] ==> r == None && Contents() == []
      ensures old(Contents()) != [] ==> r == Some(old(Contents())[0]) && Contents() == old(Contents())[1..]
    {
      r := None;
      if packetNum > 0 && posList < packetList.Length {
        TakeFromQueue(packetList[..], posList, packetNum);
        r := Some(packetList[posList]);
        posList := posList + 1;
        packetNum := packetNum - 1;
        if posList >= packetList.Length {
          posList := 0;
        }
      }
    }
  }
}
