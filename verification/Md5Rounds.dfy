/** The four unrolled rounds of the source's MD5 compression function. */
module Md5Rounds {
  import opened Bytes
  import opened Bits
  import opened Md5Standard

  // ---------------------------------------------------------------- the macros

  function Complement(x: word): word {
    0xFFFF_FFFF - x
  }

  function F(x: word, y: word, z: word): (r: word)
    ensures r == OnWords(Choose, x, y, z)
  {
    WordSize();
    ChooseIs(x, y, z, 32);
    BitByBitFits(Choose, x, y, z, 32);
    BitOr(BitAnd(x, y), BitAnd(Complement(x), z))
  }

  function G(x: word, y: word, z: word): (r: word)
    ensures r == OnWords(ChooseByLast, x, y, z)
  {
    WordSize();
    ChooseByLastIs(x, y, z, 32);
    BitByBitFits(ChooseByLast, x, y, z, 32);
    BitOr(BitAnd(x, z), BitAnd(y, Complement(z)))
  }

  function H(x: word, y: word, z: word): (r: word)
    ensures r == OnWords(Parity, x, y, z)
  {
    WordSize();
    ParityIs(x, y, z, 32);
    BitByBitFits(Parity, x, y, z, 32);
    BitXor(BitXor(x, y), z)
  }

  function I(x: word, y: word, z: word): (r: word)
    ensures r == OnWords(FlipUnless, x, y, z)
  {
    WordSize();
    FlipUnlessIs(x, y, z, 32);
    BitByBitFits(FlipUnless, x, y, z, 32);
    BitXor(y, BitOr(x, Complement(z)))
  }

  /** The four functions of section 3.4 of RFC 1321, bit by bit: x chooses between y and z, z between x and y, the
      parity, and y flipped where x or not z holds. */
  lemma AuxiliaryBits(x: word, y: word, z: word, k: nat)
    requires k < 32
    ensures Bit(F(x, y, z), k) == if Bit(x, k) then Bit(y, k) else Bit(z, k)
    ensures Bit(G(x, y, z), k) == if Bit(z, k) then Bit(x, k) else Bit(y, k)
    ensures Bit(H(x, y, z), k) <==> ((Bit(x, k) <==> Bit(y, k)) <==> Bit(z, k))
    ensures Bit(I(x, y, z), k) == if Bit(x, k) || !Bit(z, k) then !Bit(y, k) else Bit(y, k)
  {
    hide Bit, BitByBit, F, G, H, I;
    BitOfWord(Choose, x, y, z, 32, k);
    BitOfWord(ChooseByLast, x, y, z, 32, k);
    BitOfWord(Parity, x, y, z, 32, k);
    BitOfWord(FlipUnless, x, y, z, 32, k);
  }

  function RotateLeft(x: word, n: nat): (r: word)
    requires n < 32
    ensures r == Rotated(x, n)
  {
    hide Up, Down, Low, Pow2, BitOr;
    RotationParts(x, n);
    OrLow(Low(x, 32 - n), Down(x, 32 - n), n);
    BitOr(Up(x, n), Down(x, 32 - n))
  }

  /** A number of n bits, halved, has one bit less, and its complement is halved with it. */
  lemma Halved(x: nat, n: nat)
    requires n > 0 && x < Pow2(n)
    ensures x / 2 < Pow2(n - 1)
    ensures (Pow2(n) - 1 - x) / 2 == Pow2(n - 1) - 1 - x / 2 && Odd(Pow2(n) - 1 - x) != Odd(x)
  {
  }

  lemma AndHalves(x: nat, y: nat)
    ensures BitAnd(x, y) == 2 * BitAnd(x / 2, y / 2) + (if Odd(x) && Odd(y) then 1 else 0)
  {
    WithZero(x / 2);
  }

  lemma OrHalves(x: nat, y: nat)
    ensures BitOr(x, y) == 2 * BitOr(x / 2, y / 2) + (if Odd(x) || Odd(y) then 1 else 0)
  {
  }

  lemma XorHalves(x: nat, y: nat)
    ensures BitXor(x, y) == 2 * BitXor(x / 2, y / 2) + (if Odd(x) != Odd(y) then 1 else 0)
  {
  }

  lemma {:induction false} ChooseIs(x: nat, y: nat, z: nat, n: nat)
    requires x < Pow2(n) && y < Pow2(n) && z < Pow2(n)
    ensures BitOr(BitAnd(x, y), BitAnd(Pow2(n) - 1 - x, z)) == BitByBit(Choose, x, y, z, n)
  {
    hide BitAnd, BitOr, Pow2;
    if n > 0 {
      Halved(x, n);
      Halved(y, n);
      Halved(z, n);
      var not := Pow2(n) - 1 - x;
      ChooseIs(x / 2, y / 2, z / 2, n - 1);
      AndHalves(x, y);
      AndHalves(not, z);
      OrHalves(BitAnd(x, y), BitAnd(not, z));
    } else {
      NoBits();
    }
  }

  lemma NoBits()
    ensures Pow2(0) == 1 && BitAnd(0, 0) == BitOr(0, 0) == BitXor(0, 0) == 0
  {
  }

  lemma {:induction false} ChooseByLastIs(x: nat, y: nat, z: nat, n: nat)
    requires x < Pow2(n) && y < Pow2(n) && z < Pow2(n)
    ensures BitOr(BitAnd(x, z), BitAnd(y, Pow2(n) - 1 - z)) == BitByBit(ChooseByLast, x, y, z, n)
  {
    hide BitAnd, BitOr, Pow2;
    if n > 0 {
      Halved(x, n);
      Halved(y, n);
      Halved(z, n);
      var not := Pow2(n) - 1 - z;
      ChooseByLastIs(x / 2, y / 2, z / 2, n - 1);
      AndHalves(x, z);
      AndHalves(y, not);
      OrHalves(BitAnd(x, z), BitAnd(y, not));
    } else {
      NoBits();
    }
  }

  lemma {:induction false} ParityIs(x: nat, y: nat, z: nat, n: nat)
    requires x < Pow2(n) && y < Pow2(n) && z < Pow2(n)
    ensures BitXor(BitXor(x, y), z) == BitByBit(Parity, x, y, z, n)
  {
    hide BitXor, Pow2;
    if n > 0 {
      Halved(x, n);
      Halved(y, n);
      Halved(z, n);
      ParityIs(x / 2, y / 2, z / 2, n - 1);
      XorHalves(x, y);
      XorHalves(BitXor(x, y), z);
    } else {
      NoBits();
    }
  }

  lemma {:induction false} FlipUnlessIs(x: nat, y: nat, z: nat, n: nat)
    requires x < Pow2(n) && y < Pow2(n) && z < Pow2(n)
    ensures BitXor(y, BitOr(x, Pow2(n) - 1 - z)) == BitByBit(FlipUnless, x, y, z, n)
  {
    hide BitOr, BitXor, Pow2;
    if n > 0 {
      Halved(x, n);
      Halved(y, n);
      Halved(z, n);
      var not := Pow2(n) - 1 - z;
      FlipUnlessIs(x / 2, y / 2, z / 2, n - 1);
      OrHalves(x, not);
      XorHalves(y, BitOr(x, not));
    } else {
      NoBits();
    }
  }

  /** What each of the macros does to its first argument, `f` being the round function's value. */
  function MixIn(a: word, b: word, f: word, x: word, s: nat, ac: word): (r: word)
    requires s < 32
    ensures r == Mixed(a, b, f, x, s, ac)
  {
    hide Rotated, RotateLeft, Cut;
    Cut(RotateLeft(Cut(a + f + x + ac), s) + b)
  }

  function FF(a: word, b: word, c: word, d: word, x: word, s: nat, ac: word): (r: word)
    requires s < 32
    ensures r == Mixed(a, b, OnWords(Choose, b, c, d), x, s, ac)
  {
    hide *;
    MixIn(a, b, F(b, c, d), x, s, ac)
  }

  function GG(a: word, b: word, c: word, d: word, x: word, s: nat, ac: word): (r: word)
    requires s < 32
    ensures r == Mixed(a, b, OnWords(ChooseByLast, b, c, d), x, s, ac)
  {
    hide *;
    MixIn(a, b, G(b, c, d), x, s, ac)
  }

  function HH(a: word, b: word, c: word, d: word, x: word, s: nat, ac: word): (r: word)
    requires s < 32
    ensures r == Mixed(a, b, OnWords(Parity, b, c, d), x, s, ac)
  {
    hide *;
    MixIn(a, b, H(b, c, d), x, s, ac)
  }

  function II(a: word, b: word, c: word, d: word, x: word, s: nat, ac: word): (r: word)
    requires s < 32
    ensures r == Mixed(a, b, OnWords(FlipUnless, b, c, d), x, s, ac)
  {
    hide *;
    MixIn(a, b, I(b, c, d), x, s, ac)
  }

  // ---------------------------------------------------------------- the rounds

  function MixAt(i: nat, a: word, b: word, c: word, d: word, x: seq<word>): word
    requires |x| == 16 && i < 64
  {
    Mixed(a, b, RoundFunction(i, b, c, d), x[WordIndex(i)], Shift(i), SineTable(i))
  }

  /** Four steps bring every register back to its place, each of them mixed once. */
  lemma FourSteps(r: State, x: seq<word>, i: nat, last: nat)
    requires |x| == 16 && i + 4 <= last <= 64
    ensures var a := MixAt(i, r.a, r.b, r.c, r.d, x);
            var d := MixAt(i + 1, r.d, a, r.b, r.c, x);
            var c := MixAt(i + 2, r.c, d, a, r.b, x);
            var b := MixAt(i + 3, r.b, c, d, a, x);
            Loop(r, x, i, last) == Loop(State(a, b, c, d), x, i + 4, last)
  {
    var r1 := LoopStep(r, x, i);
    var r2 := LoopStep(r1, x, i + 1);
    var r3 := LoopStep(r2, x, i + 2);
    var r4 := LoopStep(r3, x, i + 3);
    assert Loop(r, x, i, last) == Loop(r1, x, i + 1, last);
    assert Loop(r1, x, i + 1, last) == Loop(r2, x, i + 2, last);
    assert Loop(r2, x, i + 2, last) == Loop(r3, x, i + 3, last);
    assert Loop(r3, x, i + 3, last) == Loop(r4, x, i + 4, last);
  }

  method Round1(a0: word, b0: word, c0: word, d0: word, x: seq<word>) returns (a: word, b: word, c: word, d: word)
    requires |x| == 16
    ensures Loop(State(a0, b0, c0, d0), x, 0, 64) == Loop(State(a, b, c, d), x, 16, 64)
  {
    hide Mixed, OnWords, FF, GG, HH, II, Loop;
    a, b, c, d := a0, b0, c0, d0;
    FourSteps(State(a, b, c, d), x, 0, 64);
    a := FF(a, b, c, d, x[0], 7, 0xd76aa478);
    d := FF(d, a, b, c, x[1], 12, 0xe8c7b756);
    c := FF(c, d, a, b, x[2], 17, 0x242070db);
    b := FF(b, c, d, a, x[3], 22, 0xc1bdceee);
    FourSteps(State(a, b, c, d), x, 4, 64);
    a := FF(a, b, c, d, x[4], 7, 0xf57c0faf);
    d := FF(d, a, b, c, x[5], 12, 0x4787c62a);
    c := FF(c, d, a, b, x[6], 17, 0xa8304613);
    b := FF(b, c, d, a, x[7], 22, 0xfd469501);
    FourSteps(State(a, b, c, d), x, 8, 64);
    a := FF(a, b, c, d, x[8], 7, 0x698098d8);
    d := FF(d, a, b, c, x[9], 12, 0x8b44f7af);
    c := FF(c, d, a, b, x[10], 17, 0xffff5bb1);
    b := FF(b, c, d, a, x[11], 22, 0x895cd7be);
    FourSteps(State(a, b, c, d), x, 12, 64);
    a := FF(a, b, c, d, x[12], 7, 0x6b901122);
    d := FF(d, a, b, c, x[13], 12, 0xfd987193);
    c := FF(c, d, a, b, x[14], 17, 0xa679438e);
    b := FF(b, c, d, a, x[15], 22, 0x49b40821);
  }

  method Round2(a0: word, b0: word, c0: word, d0: word, x: seq<word>) returns (a: word, b: word, c: word, d: word)
    requires |x| == 16
    ensures Loop(State(a0, b0, c0, d0), x, 16, 64) == Loop(State(a, b, c, d), x, 32, 64)
  {
    hide Mixed, OnWords, FF, GG, HH, II, Loop;
    a, b, c, d := a0, b0, c0, d0;
    FourSteps(State(a, b, c, d), x, 16, 64);
    a := GG(a, b, c, d, x[1], 5, 0xf61e2562);
    d := GG(d, a, b, c, x[6], 9, 0xc040b340);
    c := GG(c, d, a, b, x[11], 14, 0x265e5a51);
    b := GG(b, c, d, a, x[0], 20, 0xe9b6c7aa);
    FourSteps(State(a, b, c, d), x, 20, 64);
    a := GG(a, b, c, d, x[5], 5, 0xd62f105d);
    d := GG(d, a, b, c, x[10], 9, 0x2441453);
    c := GG(c, d, a, b, x[15], 14, 0xd8a1e681);
    b := GG(b, c, d, a, x[4], 20, 0xe7d3fbc8);
    FourSteps(State(a, b, c, d), x, 24, 64);
    a := GG(a, b, c, d, x[9], 5, 0x21e1cde6);
    d := GG(d, a, b, c, x[14], 9, 0xc33707d6);
    c := GG(c, d, a, b, x[3], 14, 0xf4d50d87);
    b := GG(b, c, d, a, x[8], 20, 0x455a14ed);
    FourSteps(State(a, b, c, d), x, 28, 64);
    a := GG(a, b, c, d, x[13], 5, 0xa9e3e905);
    d := GG(d, a, b, c, x[2], 9, 0xfcefa3f8);
    c := GG(c, d, a, b, x[7], 14, 0x676f02d9);
    b := GG(b, c, d, a, x[12], 20, 0x8d2a4c8a);
  }

  method Round3(a0: word, b0: word, c0: word, d0: word, x: seq<word>) returns (a: word, b: word, c: word, d: word)
    requires |x| == 16
    ensures Loop(State(a0, b0, c0, d0), x, 32, 64) == Loop(State(a, b, c, d), x, 48, 64)
  {
    hide Mixed, OnWords, FF, GG, HH, II, Loop;
    a, b, c, d := a0, b0, c0, d0;
    FourSteps(State(a, b, c, d), x, 32, 64);
    a := HH(a, b, c, d, x[5], 4, 0xfffa3942);
    d := HH(d, a, b, c, x[8], 11, 0x8771f681);
    c := HH(c, d, a, b, x[11], 16, 0x6d9d6122);
    b := HH(b, c, d, a, x[14], 23, 0xfde5380c);
    FourSteps(State(a, b, c, d), x, 36, 64);
    a := HH(a, b, c, d, x[1], 4, 0xa4beea44);
    d := HH(d, a, b, c, x[4], 11, 0x4bdecfa9);
    c := HH(c, d, a, b, x[7], 16, 0xf6bb4b60);
    b := HH(b, c, d, a, x[10], 23, 0xbebfbc70);
    FourSteps(State(a, b, c, d), x, 40, 64);
    a := HH(a, b, c, d, x[13], 4, 0x289b7ec6);
    d := HH(d, a, b, c, x[0], 11, 0xeaa127fa);
    c := HH(c, d, a, b, x[3], 16, 0xd4ef3085);
    b := HH(b, c, d, a, x[6], 23, 0x4881d05);
    FourSteps(State(a, b, c, d), x, 44, 64);
    a := HH(a, b, c, d, x[9], 4, 0xd9d4d039);
    d := HH(d, a, b, c, x[12], 11, 0xe6db99e5);
    c := HH(c, d, a, b, x[15], 16, 0x1fa27cf8);
    b := HH(b, c, d, a, x[2], 23, 0xc4ac5665);
  }

  method Round4(a0: word, b0: word, c0: word, d0: word, x: seq<word>) returns (a: word, b: word, c: word, d: word)
    requires |x| == 16
    ensures Loop(State(a0, b0, c0, d0), x, 48, 64) == State(a, b, c, d)
  {
    hide Mixed, OnWords, FF, GG, HH, II, Loop;
    a, b, c, d := a0, b0, c0, d0;
    FourSteps(State(a, b, c, d), x, 48, 64);
    a := II(a, b, c, d, x[0], 6, 0xf4292244);
    d := II(d, a, b, c, x[7], 10, 0x432aff97);
    c := II(c, d, a, b, x[14], 15, 0xab9423a7);
    b := II(b, c, d, a, x[5], 21, 0xfc93a039);
    FourSteps(State(a, b, c, d), x, 52, 64);
    a := II(a, b, c, d, x[12], 6, 0x655b59c3);
    d := II(d, a, b, c, x[3], 10, 0x8f0ccc92);
    c := II(c, d, a, b, x[10], 15, 0xffeff47d);
    b := II(b, c, d, a, x[1], 21, 0x85845dd1);
    FourSteps(State(a, b, c, d), x, 56, 64);
    a := II(a, b, c, d, x[8], 6, 0x6fa87e4f);
    d := II(d, a, b, c, x[15], 10, 0xfe2ce6e0);
    c := II(c, d, a, b, x[6], 15, 0xa3014314);
    b := II(b, c, d, a, x[13], 21, 0x4e0811a1);
    FourSteps(State(a, b, c, d), x, 60, 64);
    a := II(a, b, c, d, x[4], 6, 0xf7537e82);
    d := II(d, a, b, c, x[11], 10, 0xbd3af235);
    c := II(c, d, a, b, x[2], 15, 0x2ad7d2bb);
    b := II(b, c, d, a, x[9], 21, 0xeb86d391);
    LoopDone(State(a, b, c, d), x);
  }
}
