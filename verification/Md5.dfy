/** Streaming MD5: a context that takes the message in pieces, and the digest of a whole message
    (sections 3.1 to 3.5 of RFC 1321). */
module Md5 {
  import opened Bits
  import opened Bytes
  import opened Md5Standard

  // ---------------------------------------------------------------- the digest of a whole message

  const INITIAL := State(0x67452301, 0xEFCDAB89, 0x98BADCFE, 0x10325476)

  /** The registers begin with the bytes 01 23 45 67 89 AB CD EF and, downwards, FE to 10. */
  lemma InitialBytes()
    ensures Output(INITIAL) == [0x01, 0x23, 0x45, 0x67, 0x89, 0xAB, 0xCD, 0xEF,
                                0xFE, 0xDC, 0xBA, 0x98, 0x76, 0x54, 0x32, 0x10]
  {
    hide EncodeWords;
    OutputIs(INITIAL);
    assert EncodeWord(0x67452301) == [0x01, 0x23, 0x45, 0x67];
    assert EncodeWord(0xEFCDAB89) == [0x89, 0xAB, 0xCD, 0xEF];
    assert EncodeWord(0x98BADCFE) == [0xFE, 0xDC, 0xBA, 0x98];
    assert EncodeWord(0x10325476) == [0x76, 0x54, 0x32, 0x10];
  }

  lemma OutputIs(s: State)
    ensures Output(s) == EncodeWord(s.a) + EncodeWord(s.b) + EncodeWord(s.c) + EncodeWord(s.d)
  {
    hide EncodeWord;
    assert [s.d][1..] == [] && [s.c, s.d][1..] == [s.d] && [s.b, s.c, s.d][1..] == [s.c, s.d];
    assert [s.a, s.b, s.c, s.d][1..] == [s.b, s.c, s.d];
    assert EncodeWords([s.d]) == EncodeWord(s.d) + EncodeWords([]);
    assert EncodeWords([s.c, s.d]) == EncodeWord(s.c) + EncodeWords([s.d]);
    assert EncodeWords([s.b, s.c, s.d]) == EncodeWord(s.b) + EncodeWords([s.c, s.d]);
  }

  function Plus(x: word, y: word): word {
    (x + y) % 0x1_0000_0000
  }

  function Compress(s: State, block: seq<byte>): State
    requires |block| == 64
  {
    var r := Loop(s, Words(block), 0, 64);
    State(Plus(s.a, r.a), Plus(s.b, r.b), Plus(s.c, r.c), Plus(s.d, r.d))
  }

  /** The state after every whole block of `m`; bytes after the last whole block do not matter. */
  function Fold(s: State, m: seq<byte>): State
    decreases |m|
  {
    if |m| < 64 then s else Fold(Compress(s, m[..64]), m[64..])
  }

  /** The zero bytes between the bit 1 and the length. */
  function Zeros(n: nat): nat {
    (119 - n % 64) % 64
  }

  /** The padding of a message of n bytes: 0x80, zeros, and the length in bits as two words, low word first. */
  function Padding(n: nat): seq<byte> {
    [0x80] + seq(Zeros(n), _ => 0) + EncodeWords(BitLength(n))
  }

  function BitLength(n: nat): seq<word> {
    [8 * n % 0x1_0000_0000, 8 * n / 0x1_0000_0000 % 0x1_0000_0000]
  }

  function Output(s: State): seq<byte> {
    EncodeWords([s.a, s.b, s.c, s.d])
  }

  function Digest(m: seq<byte>): seq<byte> {
    Output(Fold(INITIAL, m + Padding(|m|)))
  }

  /** There are as few zeros as can be, and the padded message is a whole number of blocks. */
  lemma PaddingFillsBlocks(m: seq<byte>)
    ensures (|m| + 1 + Zeros(|m|)) % 64 == 56 && Zeros(|m|) < 64
    ensures |m + Padding(|m|)| % 64 == 0
  {
    ZerosFillBlock(|m|);
    PaddingSize(|m|);
  }

  lemma ZerosFillBlock(n: nat)
    ensures (n + 1 + Zeros(n)) % 64 == 56 && Zeros(n) < 64
    ensures (n + 1 + Zeros(n) + 8) % 64 == 0
  {
    var q, r := n / 64, n % 64;
    assert n == 64 * q + r;
    if r < 56 {
      assert n + 1 + Zeros(n) + 8 == 64 * (q + 1);
    } else {
      assert n + 1 + Zeros(n) + 8 == 64 * (q + 2);
    }
  }

  lemma PaddingSize(n: nat)
    ensures |Padding(n)| == 1 + Zeros(n) + 8
  {
    hide BitLength;
    BitLengthSize(n);
  }

  lemma BitLengthSize(n: nat)
    ensures |BitLength(n)| == 2
  {
  }

  // ---------------------------------------------------------------- lemmas about the fold and the words

  lemma {:induction false} FoldAppend(s: State, a: seq<byte>, b: seq<byte>)
    requires |a| % 64 == 0
    ensures Fold(s, a + b) == Fold(Fold(s, a), b)
    decreases |a|
  {
    hide Compress;
    if a == [] {
      assert a + b == b;
    } else {
      assert (a + b)[..64] == a[..64];
      assert (a + b)[64..] == a[64..] + b;
      FoldAppend(Compress(s, a[..64]), a[64..], b);
    }
  }

  lemma FoldShort(s: State, m: seq<byte>)
    requires |m| < 64
    ensures Fold(s, m) == s
  {
  }

  lemma FoldOne(s: State, block: seq<byte>)
    requires |block| == 64
    ensures Fold(s, block) == Compress(s, block)
  {
    hide Compress;
    assert block[..64] == block;
    FoldShort(Compress(s, block), block[64..]);
  }

  lemma FoldBlock(s: State, a: seq<byte>, block: seq<byte>)
    requires |a| % 64 == 0 && |block| == 64
    ensures Fold(s, a + block) == Compress(Fold(s, a), block)
  {
    hide Compress, Fold;
    FoldAppend(s, a, block);
    FoldOne(Fold(s, a), block);
  }

  lemma {:induction false} WordsAt(bytes: seq<byte>, k: nat)
    requires 4 * k + 4 <= |bytes|
    ensures Words(bytes)[k] == DecodeWord(bytes[4 * k], bytes[4 * k + 1], bytes[4 * k + 2], bytes[4 * k + 3])
  {
    if k > 0 {
      WordsAt(bytes[4..], k - 1);
    }
  }

  lemma {:induction false} EncodeAppend(x: seq<word>, w: word)
    ensures EncodeWords(x + [w]) == EncodeWords(x) + EncodeWord(w)
  {
    if x == [] {
      assert x + [w] == [w] && [w][1..] == [];
    } else {
      assert (x + [w])[1..] == x[1..] + [w];
      EncodeAppend(x[1..], w);
      Assoc(EncodeWord(x[0]), EncodeWords(x[1..]), EncodeWord(w));
    }
  }

  lemma DecodeWordInvertsEncodeWord(w: word)
    ensures var b := EncodeWord(w); DecodeWord(b[0], b[1], b[2], b[3]) == w
  {
    var q := w / 0x100;
    var p := w / 0x1_0000;
    assert p == q / 0x100 && w / 0x100_0000 == p / 0x100;
    assert w == 0x100 * q + w % 0x100 && q == 0x100 * p + q % 0x100 && p == 0x100 * (p / 0x100) + p % 0x100;
  }

  lemma {:induction false} DecodeInvertsEncode(x: seq<word>)
    ensures Words(EncodeWords(x)) == x
  {
    if x != [] {
      var bytes := EncodeWords(x);
      DecodeWordInvertsEncodeWord(x[0]);
      assert bytes[4..] == EncodeWords(x[1..]);
      DecodeInvertsEncode(x[1..]);
    }
  }

  // ---------------------------------------------------------------- the two byte orders

  lemma OrOfBytes(b0: byte, b1: byte, b2: byte, b3: byte)
    ensures BitOr(BitOr(BitOr(b0, b1 * 0x100), b2 * 0x1_0000), b3 * 0x100_0000) == DecodeWord(b0, b1, b2, b3)
  {
    hide BitOr, Pow2;
    PowersOfBytes();
    OrLow(b1, b0, 8);
    var low := b0 + 0x100 * b1;
    OrOfHighBytes(low, b2, b3);
  }

  lemma OrOfHighBytes(low: nat, b2: byte, b3: byte)
    requires low < 0x1_0000
    ensures BitOr(BitOr(low, b2 * 0x1_0000), b3 * 0x100_0000) == low + 0x1_0000 * b2 + 0x100_0000 * b3
  {
    hide BitOr, Pow2;
    PowersOfBytes();
    OrLow(b2, low, 16);
    OrLow(b3, low + 0x1_0000 * b2, 24);
  }

  lemma PowersOfBytes()
    ensures Pow2(8) == 0x100 && Pow2(16) == 0x1_0000 && Pow2(24) == 0x100_0000
  {
    assert Pow2(4) == 16;
    assert Pow2(8) == 0x100;
    assert Pow2(12) == 0x1000;
    assert Pow2(16) == 0x1_0000;
    assert Pow2(20) == 0x10_0000;
  }

  lemma LowByte(x: nat)
    ensures BitAnd(x, 0xFF) == x % 0x100
  {
    PowersOfBytes();
    AndLow(x / 0x100, x % 0x100, 8);
    assert x == x / 0x100 * 0x100 + x % 0x100;
  }

  lemma MaskedBytes(w: word)
    ensures [BitAnd(w, 0xFF), BitAnd(w / 0x100, 0xFF), BitAnd(w / 0x1_0000, 0xFF), BitAnd(w / 0x100_0000, 0xFF)]
         == EncodeWord(w)
    ensures BitAnd(w, 0xFF) < 0x100 && BitAnd(w / 0x100, 0xFF) < 0x100 && BitAnd(w / 0x1_0000, 0xFF) < 0x100
    ensures BitAnd(w / 0x100_0000, 0xFF) < 0x100
  {
    hide BitAnd;
    LowByte(w);
    LowByte(w / 0x100);
    LowByte(w / 0x1_0000);
    LowByte(w / 0x100_0000);
  }

  method Encode(output: array<byte>, input: seq<word>)
    requires output.Length == 4 * |input|
    modifies output
    ensures output[..] == EncodeWords(input)
  {
    hide BitAnd, EncodeWord, EncodeWords;
    var i, j := 0, 0;
    while j < 4 * |input|
      invariant i <= |input| && j == 4 * i
      invariant output[..j] == EncodeWords(input[..i])
    {
      var w := input[i];
      MaskedBytes(w);
      output[j] := BitAnd(w, 0xFF);
      output[j + 1] := BitAnd(w / 0x100, 0xFF);
      output[j + 2] := BitAnd(w / 0x1_0000, 0xFF);
      output[j + 3] := BitAnd(w / 0x100_0000, 0xFF);
      assert output[j..j + 4] == EncodeWord(w);
      assert output[..j + 4] == output[..j] + output[j..j + 4];
      EncodeAppend(input[..i], w);
      assert input[..i + 1] == input[..i] + [w];
      i, j := i + 1, j + 4;
    }
    assert input[..i] == input;
    assert output[..j] == output[..];
  }

  method Decode(output: array<word>, input: seq<byte>)
    requires |input| % 4 == 0 && |input| / 4 <= output.Length
    modifies output
    ensures output[..|input| / 4] == Words(input)
  {
    hide BitOr;
    var i, j := 0, 0;
    while j < |input|
      invariant j == 4 * i && j <= |input|
      invariant forall k :: 0 <= k < i ==> output[k] == Words(input)[k]
    {
      OrOfBytes(input[j], input[j + 1], input[j + 2], input[j + 3]);
      WordsAt(input, i);
      var b0: nat, b1: nat, b2: nat, b3: nat := input[j], input[j + 1], input[j + 2], input[j + 3];
      output[i] := BitOr(BitOr(BitOr(b0, b1 * 0x100), b2 * 0x1_0000), b3 * 0x100_0000);
      i, j := i + 1, j + 4;
    }
  }
}
