/** The compression function of MD5 as section 3.4 of RFC 1321 describes it: a loop over rotating registers, with
    auxiliary functions that are given bit by bit. Words are unsigned 32-bit values. */
module Md5Standard {
  import opened Bytes
  import opened Bits

  type word = u32

  datatype State = State(a: word, b: word, c: word, d: word)

  /** Four bytes as a word, least significant first. */
  function DecodeWord(b0: byte, b1: byte, b2: byte, b3: byte): word {
    b0 + 0x100 * b1 + 0x1_0000 * b2 + 0x100_0000 * b3
  }

  function Words(bytes: seq<byte>): (x: seq<word>)
    ensures |x| == |bytes| / 4
  {
    if |bytes| < 4 then [] else [DecodeWord(bytes[0], bytes[1], bytes[2], bytes[3])] + Words(bytes[4..])
  }

  function EncodeWord(w: word): seq<byte> {
    [w % 0x100, w / 0x100 % 0x100, w / 0x1_0000 % 0x100, w / 0x100_0000]
  }

  function EncodeWords(x: seq<word>): (bytes: seq<byte>)
    ensures |bytes| == 4 * |x|
  {
    if x == [] then [] else EncodeWord(x[0]) + EncodeWords(x[1..])
  }

  // ---------------------------------------------------------------- words bit by bit

  /** If x then y else z. */
  predicate Choose(x: bool, y: bool, z: bool) { if x then y else z }

  /** If z then x else y. */
  predicate ChooseByLast(x: bool, y: bool, z: bool) { if z then x else y }

  /** Whether an odd number of them is true. */
  predicate Parity(x: bool, y: bool, z: bool) {
    (if x then 1 else 0) + (if y then 1 else 0) + (if z then 1 else 0) in {1, 3}
  }

  /** y, flipped where x is true or z is not. */
  predicate FlipUnless(x: bool, y: bool, z: bool) { if x || !z then !y else y }

  predicate Odd(x: nat) {
    x % 2 == 1
  }

  /** The number of n bits each of which is `op` of the bits of x, y and z in its place. */
  function BitByBit(op: (bool, bool, bool) -> bool, x: nat, y: nat, z: nat, n: nat): nat
  {
    if n == 0 then 0
    else 2 * BitByBit(op, x / 2, y / 2, z / 2, n - 1) + (if op(Odd(x), Odd(y), Odd(z)) then 1 else 0)
  }

  lemma {:induction false} BitByBitFits(op: (bool, bool, bool) -> bool, x: nat, y: nat, z: nat, n: nat)
    ensures BitByBit(op, x, y, z, n) < Pow2(n)
  {
    if n > 0 {
      BitByBitFits(op, x / 2, y / 2, z / 2, n - 1);
    }
  }

  function OnWords(op: (bool, bool, bool) -> bool, x: word, y: word, z: word): word {
    BitByBitFits(op, x, y, z, 32);
    WordSize();
    BitByBit(op, x, y, z, 32)
  }

  lemma WordSize()
    ensures Pow2(32) == 0x1_0000_0000
  {
    assert Pow2(8) == 0x100;
    assert Pow2(16) == 0x1_0000;
    assert Pow2(24) == 0x100_0000;
  }

  /** Bit k of x. */
  predicate Bit(x: nat, k: nat) {
    if k == 0 then Odd(x) else Bit(x / 2, k - 1)
  }

  lemma Quotient(x: nat, d: nat, q: nat, r: nat)
    requires r < d && x == d * q + r
    ensures x / d == q && x % d == r
  {
    var q', r' := x / d, x % d;
    assert x == d * q' + r';
    if q' < q {
      Grows(d, q', q);
    } else if q < q' {
      Grows(d, q, q');
    }
  }

  lemma {:induction false} Grows(d: nat, a: nat, b: nat)
    requires a < b
    ensures d * a + d <= d * b
  {
    assert d * b == d * (b - 1) + d;
    if a < b - 1 {
      Grows(d, a, b - 1);
    }
  }

  /** Each bit of such a word is the operation on the three bits in its place. */
  lemma {:induction false} BitOfWord(op: (bool, bool, bool) -> bool, x: nat, y: nat, z: nat, n: nat, k: nat)
    requires k < n
    ensures Bit(BitByBit(op, x, y, z, n), k) == op(Bit(x, k), Bit(y, k), Bit(z, k))
  {
    if k > 0 {
      BitOfWord(op, x / 2, y / 2, z / 2, n - 1, k - 1);
    }
  }

  lemma {:induction false} PowersMultiply(m: nat, n: nat)
    ensures Pow2(m) * Pow2(n) == Pow2(m + n)
  {
    if m > 0 {
      PowersMultiply(m - 1, n);
      assert Pow2(m) * Pow2(n) == 2 * (Pow2(m - 1) * Pow2(n));
    }
  }

  /** An unsigned result cut to 32 bits. */
  function Cut(x: nat): word {
    x % 0x1_0000_0000
  }

  /** A word moved up by n places, what leaves at the top being lost, and a word moved down. */
  function Up(x: word, n: nat): word {
    Cut(x * Pow2(n))
  }

  function Down(x: nat, n: nat): (r: nat)
    ensures r <= x
  {
    if n == 0 then x else Down(x / 2, n - 1)
  }

  /** The low n bits. */
  function Low(x: nat, n: nat): nat {
    if n == 0 then 0 else 2 * Low(x / 2, n - 1) + x % 2
  }

  /** Moving down divides by 2^n, and the low bits are the rest. */
  lemma {:induction false} DownDivides(x: nat, n: nat)
    ensures Low(x, n) < Pow2(n) && x == Pow2(n) * Down(x, n) + Low(x, n)
    ensures Down(x, n) == x / Pow2(n) && Low(x, n) == x % Pow2(n)
  {
    if n > 0 {
      DownDivides(x / 2, n - 1);
      assert Pow2(n) * Down(x, n) == 2 * (Pow2(n - 1) * Down(x / 2, n - 1));
    }
    Quotient(x, Pow2(n), Down(x, n), Low(x, n));
  }

  /** The two parts of a rotated word do not overlap. */
  lemma RotationParts(x: word, n: nat)
    requires n < 32
    ensures Up(x, n) == Low(x, 32 - n) * Pow2(n)
    ensures Down(x, 32 - n) < Pow2(n) && Up(x, n) + Down(x, 32 - n) < 0x1_0000_0000
  {
    hide Pow2, Down, Low;
    var p, q, d, h := Pow2(n), Pow2(32 - n), Down(x, 32 - n), Low(x, 32 - n);
    PowersMultiply(n, 32 - n);
    WordSize();
    DownDivides(x, 32 - n);
    Parts(x, p, q, d, h);
    Quotient(x * p, p * q, d, h * p);
  }

  lemma Parts(x: nat, p: nat, q: nat, d: nat, h: nat)
    requires p > 0 && h < q && x == q * d + h && x < p * q
    ensures d < p && h * p + d < p * q && x * p == p * q * d + h * p
  {
    if d >= p {
      Grows(q, p, d + 1);
    }
    Grows(p, h, q);
  }

  /** Rotation by n places: what leaves at the top comes in at the bottom. */
  function Rotated(x: word, n: nat): word
    requires n < 32
  {
    hide Up, Down;
    RotationParts(x, n);
    Up(x, n) + Down(x, 32 - n)
  }

  // ---------------------------------------------------------------- the loop

  function Mixed(a: word, b: word, f: word, x: word, s: nat, ac: word): word
    requires s < 32
  {
    Cut(b + Rotated(Cut(a + f + x + ac), s))
  }

  /** 2^32 times the absolute value of the sine of i + 1, cut to an integer. */
  function SineTable(i: nat): word
    requires i < 64
  {
    match i
    case 0 => 0xd76aa478
    case 1 => 0xe8c7b756
    case 2 => 0x242070db
    case 3 => 0xc1bdceee
    case 4 => 0xf57c0faf
    case 5 => 0x4787c62a
    case 6 => 0xa8304613
    case 7 => 0xfd469501
    case 8 => 0x698098d8
    case 9 => 0x8b44f7af
    case 10 => 0xffff5bb1
    case 11 => 0x895cd7be
    case 12 => 0x6b901122
    case 13 => 0xfd987193
    case 14 => 0xa679438e
    case 15 => 0x49b40821
    case 16 => 0xf61e2562
    case 17 => 0xc040b340
    case 18 => 0x265e5a51
    case 19 => 0xe9b6c7aa
    case 20 => 0xd62f105d
    case 21 => 0x2441453
    case 22 => 0xd8a1e681
    case 23 => 0xe7d3fbc8
    case 24 => 0x21e1cde6
    case 25 => 0xc33707d6
    case 26 => 0xf4d50d87
    case 27 => 0x455a14ed
    case 28 => 0xa9e3e905
    case 29 => 0xfcefa3f8
    case 30 => 0x676f02d9
    case 31 => 0x8d2a4c8a
    case 32 => 0xfffa3942
    case 33 => 0x8771f681
    case 34 => 0x6d9d6122
    case 35 => 0xfde5380c
    case 36 => 0xa4beea44
    case 37 => 0x4bdecfa9
    case 38 => 0xf6bb4b60
    case 39 => 0xbebfbc70
    case 40 => 0x289b7ec6
    case 41 => 0xeaa127fa
    case 42 => 0xd4ef3085
    case 43 => 0x4881d05
    case 44 => 0xd9d4d039
    case 45 => 0xe6db99e5
    case 46 => 0x1fa27cf8
    case 47 => 0xc4ac5665
    case 48 => 0xf4292244
    case 49 => 0x432aff97
    case 50 => 0xab9423a7
    case 51 => 0xfc93a039
    case 52 => 0x655b59c3
    case 53 => 0x8f0ccc92
    case 54 => 0xffeff47d
    case 55 => 0x85845dd1
    case 56 => 0x6fa87e4f
    case 57 => 0xfe2ce6e0
    case 58 => 0xa3014314
    case 59 => 0x4e0811a1
    case 60 => 0xf7537e82
    case 61 => 0xbd3af235
    case 62 => 0x2ad7d2bb
    case _ => 0xeb86d391
  }

  /** The word of the block that step i uses. */
  function WordIndex(i: nat): (k: nat)
    requires i < 64
    ensures k < 16
  {
    if i < 16 then i
    else if i < 32 then (5 * i + 1) % 16
    else if i < 48 then (3 * i + 5) % 16
    else 7 * i % 16
  }

  function Shift(i: nat): (s: nat)
    requires i < 64
    ensures s < 32
  {
    var q := i % 4;
    if i < 16 then 7 + 5 * q
    else if i < 32 then (if q == 0 then 5 else if q == 1 then 9 else if q == 2 then 14 else 20)
    else if i < 48 then (if q == 0 then 4 else if q == 1 then 11 else if q == 2 then 16 else 23)
    else (if q == 0 then 6 else if q == 1 then 10 else if q == 2 then 15 else 21)
  }

  /** The auxiliary function of step i. */
  function RoundFunction(i: nat, x: word, y: word, z: word): word {
    if i < 16 then OnWords(Choose, x, y, z)
    else if i < 32 then OnWords(ChooseByLast, x, y, z)
    else if i < 48 then OnWords(Parity, x, y, z)
    else OnWords(FlipUnless, x, y, z)
  }

  /** Step i: the registers move one place round, and the one that comes to the second place is mixed. */
  function LoopStep(r: State, x: seq<word>, i: nat): State
    requires |x| == 16 && i < 64
  {
    State(r.d, Mixed(r.a, r.b, RoundFunction(i, r.b, r.c, r.d), x[WordIndex(i)], Shift(i), SineTable(i)), r.b, r.c)
  }

  /** The steps from `first` up to `last`. */
  function Loop(r: State, x: seq<word>, first: nat, last: nat): State
    requires |x| == 16 && first <= last <= 64
    decreases last - first
  {
    if first == last then r else Loop(LoopStep(r, x, first), x, first + 1, last)
  }

  lemma LoopDone(r: State, x: seq<word>)
    requires |x| == 16
    ensures Loop(r, x, 64, 64) == r
  {
  }
}
