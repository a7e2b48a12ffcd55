/** Bytes, the byte orders of the wire and of a little-endian host, and concatenation of byte strings. */
module Bytes {

  type byte = x: int | 0 <= x < 0x100
  type u16 = x: int | 0 <= x < 0x1_0000
  type u32 = x: int | 0 <= x < 0x1_0000_0000

  datatype Option<+T> = None | Some(value: T)

  /** Network order: most significant byte first. */
  function Be16(x: u16): (b: seq<byte>)
    ensures |b| == 2
  {
    [x / 0x100, x % 0x100]
  }

  function Be32(x: u32): (b: seq<byte>)
    ensures |b| == 4
  {
    Be16(x / 0x1_0000) + Be16(x % 0x1_0000)
  }

  function FromBe16(hi: byte, lo: byte): u16 {
    hi * 0x100 + lo
  }

  lemma FromBe16Inverts(x: u16)
    ensures FromBe16(Be16(x)[0], Be16(x)[1]) == x
  {
  }

  /** How a little-endian host lays an integer out in memory: least significant byte first. */
  function Memory16(x: u16): seq<byte> {
    [x % 0x100, x / 0x100]
  }

  function Memory32(x: u32): seq<byte> {
    Memory16(x % 0x1_0000) + Memory16(x / 0x1_0000)
  }

  /** `htons` and `ntohs` on a little-endian host. */
  function Swap16(x: u16): u16 {
    x % 0x100 * 0x100 + x / 0x100
  }

  /** `htonl` and `ntohl` on a little-endian host. */
  function Swap32(x: u32): u32 {
    Swap16(x % 0x1_0000) * 0x1_0000 + Swap16(x / 0x1_0000)
  }

  lemma Swap16Twice(x: u16)
    ensures Swap16(Swap16(x)) == x
    ensures Memory16(Swap16(x)) == Be16(x)
  {
  }

  lemma Swap32Parts(x: u32)
    ensures Swap32(x) / 0x1_0000 == Swap16(x % 0x1_0000)
    ensures Swap32(x) % 0x1_0000 == Swap16(x / 0x1_0000)
  {
    var hi: int, lo: int := Swap16(x % 0x1_0000), Swap16(x / 0x1_0000);
    assert Swap32(x) == hi * 0x1_0000 + lo;
  }

  lemma Swap32Twice(x: u32)
    ensures Swap32(Swap32(x)) == x
    ensures Memory32(Swap32(x)) == Be32(x)
  {
    Swap32Parts(x);
    Swap16Twice(x / 0x1_0000);
    Swap16Twice(x % 0x1_0000);
  }

  lemma Assoc<T>(a: seq<T>, b: seq<T>, c: seq<T>)
    ensures (a + b) + c == a + (b + c)
  {
  }

  lemma Slices<T>(s: seq<T>, from: nat, to: nat, n: nat)
    requires from + n <= to <= |s|
    ensures s[from..to][..n] == s[from..from + n]
    ensures s[from..to][n..] == s[from + n..to]
  {
  }

  lemma PrefixSlice<T>(s: seq<T>, to: nat, a: nat, b: nat)
    requires a <= b <= to <= |s|
    ensures s[..to][a..b] == s[a..b]
  {
  }

  lemma TailSlices<T>(s: seq<T>, from: nat, a: nat, b: nat)
    requires a <= b && from + b <= |s|
    ensures s[from..][a..b] == s[from + a..from + b]
    ensures s[from..][b..] == s[from + b..]
  {
    var tail := s[from..];
    assert forall i :: from + a <= i < from + b ==> s[i] == tail[i - from];
  }

  function Flatten<T>(parts: seq<seq<T>>): seq<T> {
    if parts == [] then [] else parts[0] + Flatten(parts[1..])
  }

  lemma {:induction false} FlattenAppend<T>(a: seq<seq<T>>, b: seq<seq<T>>)
    ensures Flatten(a + b) == Flatten(a) + Flatten(b)
  {
    if a == [] {
      assert a + b == b;
    } else {
      assert (a + b)[1..] == a[1..] + b;
      FlattenAppend(a[1..], b);
      Assoc(a[0], Flatten(a[1..]), Flatten(b));
    }
  }
}
