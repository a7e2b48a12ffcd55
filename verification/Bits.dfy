/** C's bitwise operators on unsigned operands, and what they do to a value made of
    a high part and a low part of k bits. */
module Bits {

  function BitAnd(x: nat, y: nat): nat
    decreases x
  {
    if x == 0 || y == 0 then 0
    else 2 * BitAnd(x / 2, y / 2) + (if x % 2 == 1 && y % 2 == 1 then 1 else 0)
  }

  function BitOr(x: nat, y: nat): nat
    decreases x + y
  {
    if x == 0 then y
    else if y == 0 then x
    else 2 * BitOr(x / 2, y / 2) + (if x % 2 == 1 || y % 2 == 1 then 1 else 0)
  }

  function BitXor(x: nat, y: nat): nat
    decreases x + y
  {
    if x == 0 && y == 0 then 0
    else 2 * BitXor(x / 2, y / 2) + (if x % 2 != y % 2 then 1 else 0)
  }

  function Pow2(k: nat): (p: nat)
    ensures p > 0
  {
    if k == 0 then 1 else 2 * Pow2(k - 1)
  }

  lemma AndStep(x: nat, b: nat, y: nat, c: nat)
    requires b < 2 && c < 2
    ensures BitAnd(2 * x + b, 2 * y + c) == 2 * BitAnd(x, y) + b * c
  {
  }

  lemma OrStep(x: nat, b: nat, y: nat, c: nat)
    requires b < 2 && c < 2
    ensures BitOr(2 * x + b, 2 * y + c) == 2 * BitOr(x, y) + b + c - b * c
  {
  }

  lemma WithZero(x: nat)
    ensures BitAnd(x, 0) == 0
    ensures BitOr(x, 0) == x == BitOr(0, x)
  {
  }

  lemma Doubled(a: nat, k: nat)
    requires k > 0
    ensures a * Pow2(k) == 2 * (a * Pow2(k - 1))
  {
  }

  /** A mask above the low k bits picks from the high part. */
  lemma {:induction false} AndHigh(a: nat, l: nat, m: nat, k: nat)
    requires l < Pow2(k)
    ensures BitAnd(a * Pow2(k) + l, m * Pow2(k)) == BitAnd(a, m) * Pow2(k)
  {
    hide BitAnd;
    if k > 0 {
      var high, mask := a * Pow2(k - 1), m * Pow2(k - 1);
      Doubled(a, k);
      Doubled(m, k);
      Doubled(BitAnd(a, m), k);
      AndHigh(a, l / 2, m, k - 1);
      AndStep(high + l / 2, l % 2, mask, 0);
      assert 2 * high + l == 2 * (high + l / 2) + l % 2;
    }
  }

  /** The mask of the low k bits leaves the low part. */
  lemma {:induction false} AndLow(a: nat, l: nat, k: nat)
    requires l < Pow2(k)
    ensures BitAnd(a * Pow2(k) + l, Pow2(k) - 1) == l
  {
    hide BitAnd;
    WithZero(a);
    if k > 0 {
      var high := a * Pow2(k - 1);
      Doubled(a, k);
      AndLow(a, l / 2, k - 1);
      AndStep(high + l / 2, l % 2, Pow2(k - 1) - 1, 1);
      assert 2 * high + l == 2 * (high + l / 2) + l % 2;
    }
  }

  /** Setting bits below a high part adds them. */
  lemma {:induction false} OrLow(a: nat, l: nat, k: nat)
    requires l < Pow2(k)
    ensures BitOr(a * Pow2(k), l) == a * Pow2(k) + l
    ensures BitOr(l, a * Pow2(k)) == a * Pow2(k) + l
  {
    hide BitOr;
    WithZero(a);
    if k > 0 {
      var high := a * Pow2(k - 1);
      Doubled(a, k);
      OrLow(a, l / 2, k - 1);
      OrStep(high, 0, l / 2, l % 2);
      OrStep(l / 2, l % 2, high, 0);
      assert l == 2 * (l / 2) + l % 2;
    }
  }

  lemma Powers()
    ensures Pow2(3) == 8 && Pow2(5) == 32 && Pow2(6) == 64 && Pow2(8) == 256
  {
    assert Pow2(1) == 2 && Pow2(2) == 4 && Pow2(4) == 16 && Pow2(7) == 128;
  }

  lemma Masks32(h: nat, l: nat, m: nat)
    requires l < 32
    ensures BitAnd(32 * h + l, 0x1F) == l
    ensures BitAnd(32 * h + l, 32 * m) == 32 * BitAnd(h, m)
    ensures BitOr(32 * h, l) == 32 * h + l
  {
    hide BitAnd, BitOr;
    Powers();
    AndLow(h, l, 5);
    AndHigh(h, l, m, 5);
    OrLow(h, l, 5);
  }

  lemma Masks64(h: nat, l: nat, m: nat)
    requires l < 64
    ensures BitAnd(64 * h + l, 64 * m) == 64 * BitAnd(h, m)
    ensures BitAnd(64 * h + l, 0x3F) == l
    ensures BitOr(l, 64 * h) == 64 * h + l
  {
    hide BitAnd, BitOr;
    Powers();
    AndLow(h, l, 6);
    AndHigh(h, l, m, 6);
    OrLow(h, l, 6);
  }

  /** A mask that covers the whole value leaves it. */
  lemma Covers8(h: nat)
    requires h < 8
    ensures BitAnd(h, 7) == h
  {
    Powers();
    AndLow(0, h, 3);
  }
}
