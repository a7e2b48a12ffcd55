/** The MD5 context of the source: a partly filled block, a bit count in two words, and the running state. */
module Md5Context {
  import opened Bits
  import opened Bytes
  import opened Md5Standard
  import opened Md5Rounds
  import opened Md5

  const PADDING: seq<byte> := [0x80] + seq(63, _ => 0)

  /** The bit count modulo 2^64, as two words. */
  ghost predicate Counts(low: word, high: word, n: nat) {
    low == 8 * n % 0x1_0000_0000 && high == 8 * n / 0x1_0000_0000 % 0x1_0000_0000
  }

  /** Adding m bytes: the low word carries exactly when it comes out smaller than what was added to it. */
  lemma CountAdds(low: word, high: word, n: nat, m: word)
    requires Counts(low, high, n)
    ensures var added := 8 * m % 0x1_0000_0000;
            var low' := Plus(low, added);
            var carried := if low' < added then Plus(high, 1) else high;
            Counts(low', Plus(carried, m / 0x2000_0000), n + m)
  {
    var added := 8 * m % 0x1_0000_0000;
    var low' := Plus(low, added);
    var carry := if low' < added then 1 else 0;
    ShiftedParts(m);
    CarryIs(low, added);
    var q, h := 8 * n / 0x1_0000_0000, m / 0x2000_0000;
    assert 8 * n == 0x1_0000_0000 * q + low;
    hide Plus;
    QuotientOf(8 * (n + m), q + h + carry, low');
    CarriedSum(q, carry, h);
  }

  lemma CarryIs(low: word, added: word)
    ensures var low' := Plus(low, added); low + added == low' + (if low' < added then 0x1_0000_0000 else 0)
  {
  }

  lemma CarriedSum(q: nat, carry: nat, h: word)
    requires carry <= 1
    ensures var high := q % 0x1_0000_0000;
            Plus(if carry == 1 then Plus(high, 1) else high, h) == (q + h + carry) % 0x1_0000_0000
  {
    ModularSum(q, carry, h);
  }

  lemma ShiftedParts(m: word)
    ensures 8 * m == 0x1_0000_0000 * (m / 0x2000_0000) + 8 * m % 0x1_0000_0000
  {
    var h, l := m / 0x2000_0000, m % 0x2000_0000;
    assert m == 0x2000_0000 * h + l;
    QuotientOf(8 * m, h, 8 * l);
  }

  lemma QuotientOf(x: nat, q: nat, r: nat)
    requires r < 0x1_0000_0000 && x == 0x1_0000_0000 * q + r
    ensures x / 0x1_0000_0000 == q && x % 0x1_0000_0000 == r
  {
  }

  lemma ModularSum(q: nat, carry: nat, h: word)
    requires carry <= 1
    ensures var w := 0x1_0000_0000;
            ((if carry == 1 then (q % w + 1) % w else q % w) + h) % w == (q + h + carry) % w
  {
  }

  /** The byte index in the buffer is the length of the message modulo 64. */
  lemma IndexOfCount(low: word, high: word, n: nat)
    requires Counts(low, high, n)
    ensures BitAnd(low / 8, 0x3F) == n % 64
  {
    hide BitAnd;
    LowSixBits(low / 8);
    CountModulo(n, low);
  }

  lemma LowSixBits(x: nat)
    ensures BitAnd(x, 0x3F) == x % 64
  {
    hide BitAnd;
    Powers();
    AndLow(x / 64, x % 64, 6);
  }

  lemma CountModulo(n: nat, low: nat)
    requires low == 8 * n % 0x1_0000_0000
    ensures low / 8 % 64 == n % 64
  {
    var q, r := n / 0x2000_0000, n % 0x2000_0000;
    QuotientOf(8 * n, q, 8 * r);
    SameModulo(n, 0x80_0000 * q, r);
  }

  lemma SameModulo(n: nat, k: nat, r: nat)
    requires n == 64 * k + r
    ensures n % 64 == r % 64
  {
  }

  function WholeBlocks(m: seq<byte>): seq<byte> {
    m[..|m| - |m| % 64]
  }

  /** The bytes that wait in the buffer for the rest of their block. */
  function Waiting(m: seq<byte>): (tail: seq<byte>)
    ensures |tail| == |m| % 64
  {
    m[|m| - |m| % 64..]
  }

  lemma WholeBlocksFold(m: seq<byte>)
    ensures |WholeBlocks(m)| % 64 == 0 && m == WholeBlocks(m) + Waiting(m)
    ensures Fold(INITIAL, WholeBlocks(m)) == Fold(INITIAL, m)
  {
    hide Compress, Fold;
    WholeIsMultiple(|m|);
    FoldAppend(INITIAL, WholeBlocks(m), Waiting(m));
    FoldShort(Fold(INITIAL, WholeBlocks(m)), Waiting(m));
  }

  lemma WholeIsMultiple(n: nat)
    ensures (n - n % 64) % 64 == 0
  {
    assert n - n % 64 == 64 * (n / 64);
  }

  /** The input fills the buffer: its first bytes complete a block. */
  lemma BlockCompleted(m: seq<byte>, head: seq<byte>)
    requires |head| == 64 - |m| % 64
    ensures |Waiting(m) + head| == 64
    ensures |m + head| % 64 == 0
    ensures Fold(INITIAL, m + head) == Compress(Fold(INITIAL, m), Waiting(m) + head)
  {
    hide Compress, Fold;
    WholeBlocksFold(m);
    Assoc(WholeBlocks(m), Waiting(m), head);
    FoldBlock(INITIAL, WholeBlocks(m), Waiting(m) + head);
  }

  lemma NextBlock(m: seq<byte>, input: seq<byte>, i: nat)
    requires i + 64 <= |input| && |m + input[..i]| % 64 == 0
    ensures |m + input[..i + 64]| % 64 == 0
    ensures Fold(INITIAL, m + input[..i + 64]) == Compress(Fold(INITIAL, m + input[..i]), input[i..i + 64])
  {
    hide Compress, Fold;
    FoldBlock(INITIAL, m + input[..i], input[i..i + 64]);
    assert m + input[..i + 64] == m + input[..i] + input[i..i + 64];
  }

  /** What is left of the input, less than a block, waits in the buffer. */
  lemma TailWaits(m: seq<byte>, input: seq<byte>, i: nat)
    requires i <= |input| < i + 64 && |m + input[..i]| % 64 == 0
    ensures Fold(INITIAL, m + input) == Fold(INITIAL, m + input[..i])
    ensures Waiting(m + input) == input[i..]
  {
    hide Compress, Fold;
    var all := m + input;
    assert all == m + input[..i] + input[i..];
    assert |all| % 64 == |input| - i;
    assert all[..|m| + i] == m + input[..i];
    WholeBlocksFold(all);
  }

  /** The input does not fill the buffer: all of it waits there. */
  lemma BlockStillOpen(m: seq<byte>, input: seq<byte>)
    requires |m| % 64 + |input| < 64
    ensures Fold(INITIAL, m + input) == Fold(INITIAL, m)
    ensures Waiting(m + input) == Waiting(m) + input
  {
    hide Compress, Fold, Waiting, WholeBlocks;
    SameBlocks(m, input);
    WholeBlocksFold(m + input);
    WholeBlocksFold(m);
  }

  lemma SameBlocks(m: seq<byte>, input: seq<byte>)
    requires |m| % 64 + |input| < 64
    ensures WholeBlocks(m + input) == WholeBlocks(m) && Waiting(m + input) == Waiting(m) + input
  {
    var k := |m| - |m| % 64;
    SumStaysInBlock(|m|, |input|);
    SplitSum(m, input, k);
    assert |m + input| - |m + input| % 64 == k;
  }

  lemma SplitSum(m: seq<byte>, input: seq<byte>, k: nat)
    requires k <= |m|
    ensures (m + input)[..k] == m[..k] && (m + input)[k..] == m[k..] + input
  {
  }

  lemma SumStaysInBlock(n: nat, k: nat)
    requires n % 64 + k < 64
    ensures (n + k) % 64 == n % 64 + k
  {
  }

  /** The padding the source cuts from its table, with the encoded count, is the padding of the message. */
  lemma PaddingOfCount(low: word, high: word, n: nat)
    requires Counts(low, high, n)
    ensures var padlen := if n % 64 < 56 then 56 - n % 64 else 120 - n % 64;
            PADDING[..padlen] + EncodeWords([low, high]) == Padding(n)
  {
    hide EncodeWords;
    var padlen := if n % 64 < 56 then 56 - n % 64 else 120 - n % 64;
    assert padlen == 1 + Zeros(n);
    assert PADDING[..padlen] == [0x80] + seq(Zeros(n), _ => 0);
    assert [low, high] == BitLength(n);
  }

  class Context {
    var count0: word
    var count1: word
    var state: State
    const buffer: array<byte>
    ghost var message: seq<byte>

    ghost predicate Valid()
      reads this, buffer
    {
      && buffer.Length == 64
      && Counts(count0, count1, |message|)
      && state == Fold(INITIAL, message)
      && buffer[..|message| % 64] == Waiting(message)
    }

    constructor ()
      ensures Valid() && fresh(buffer)
      ensures message == []
    {
      count0, count1 := 0, 0;
      state := INITIAL;
      buffer := new byte[64](_ => 0);
      message := [];
    }

    method Transform(block: seq<byte>)
      requires |block| == 64
      modifies this`state
      ensures state == Compress(old(state), block)
    {
      hide Loop, Words;
      var x := new word[64];
      Decode(x, block);
      var w := x[..16];
      var a, b, c, d := Round1(state.a, state.b, state.c, state.d, w);
      a, b, c, d := Round2(a, b, c, d, w);
      a, b, c, d := Round3(a, b, c, d, w);
      a, b, c, d := Round4(a, b, c, d, w);
      state := State(Plus(state.a, a), Plus(state.b, b), Plus(state.c, c), Plus(state.d, d));
    }

    /** `memcpy` of n input bytes from position `from` to the buffer at `index`. */
    method Copy(index: nat, input: seq<byte>, from: nat, n: nat)
      requires index + n <= buffer.Length && from + n <= |input|
      modifies buffer
      ensures buffer[..index + n] == old(buffer[..index]) + input[from..from + n]
    {
      forall k | 0 <= k < n {
        buffer[index + k] := input[from + k];
      }
    }

    method CountBits(n: word)
      requires Counts(count0, count1, |message|)
      modifies this`count0, this`count1
      ensures Counts(count0, count1, |message| + n)
    {
      CountAdds(count0, count1, |message|, n);
      var added := 8 * n % 0x1_0000_0000;
      count0 := Plus(count0, added);
      if count0 < added {
        count1 := Plus(count1, 1);
      }
      count1 := Plus(count1, n / 0x2000_0000);
    }

    /** The loop of `MD5Update` over the whole blocks of the input from position `from`. */
    method TransformBlocks(input: seq<byte>, from: nat) returns (i: nat)
      requires from <= |input| && |message + input[..from]| % 64 == 0
      requires state == Fold(INITIAL, message + input[..from])
      modifies this`state
      ensures i <= |input| < i + 64 && |message + input[..i]| % 64 == 0
      ensures state == Fold(INITIAL, message + input[..i])
    {
      hide Fold, Compress;
      i := from;
      while i + 64 <= |input|
        invariant from <= i <= |input|
        invariant |message + input[..i]| % 64 == 0
        invariant state == Fold(INITIAL, message + input[..i])
      {
        NextBlock(message, input, i);
        Transform(input[i..i + 64]);
        i := i + 64;
      }
    }

    method Update(input: seq<byte>)
      requires Valid() && |input| + 64 < 0x1_0000_0000
      modifies this`count0, this`count1, this`state, this`message, buffer
      ensures Valid() && message == old(message) + input
    {
      hide Fold, Compress, BitAnd, Counts, Waiting, Plus;
      IndexOfCount(count0, count1, |message|);
      var index := BitAnd(count0 / 8, 0x3F);
      var partlen := 64 - index;
      CountBits(|input|);
      var i := 0;
      if |input| >= partlen {
        Copy(index, input, 0, partlen);
        assert buffer[..64] == Waiting(message) + input[..partlen];
        BlockCompleted(message, input[..partlen]);
        Transform(buffer[..64]);
        i := TransformBlocks(input, partlen);
        TailWaits(message, input, i);
        index := 0;
      } else {
        BlockStillOpen(message, input);
      }
      assert buffer[..index] + input[i..] == Waiting(message + input);
      Copy(index, input, i, |input| - i);
      message := message + input;
    }

    method Final() returns (digest: array<byte>)
      requires Valid()
      modifies this`count0, this`count1, this`state, this`message, buffer
      ensures fresh(digest) && digest[..] == Digest(old(message))
    {
      hide Fold, Compress, BitAnd, Counts, Waiting, EncodeWords, Padding;
      IndexOfCount(count0, count1, |message|);
      PaddingOfCount(count0, count1, |message|);
      PaddingFillsBlocks(message);
      var index := BitAnd(count0 / 8, 0x3F);
      var padlen := if index < 56 then 56 - index else 120 - index;
      var bits := new byte[8];
      Encode(bits, [count0, count1]);
      ghost var m := message;
      Update(PADDING[..padlen]);
      Update(bits[..]);
      Assoc(m, PADDING[..padlen], bits[..]);
      digest := new byte[16];
      Encode(digest, [state.a, state.b, state.c, state.d]);
    }
  }

  /** `MD5Init`, one `MD5Update` for each piece, `MD5Final`. */
  method Md5Of(pieces: seq<seq<byte>>) returns (digest: array<byte>)
    requires forall k :: 0 <= k < |pieces| ==> |pieces[k]| + 64 < 0x1_0000_0000
    ensures fresh(digest) && digest[..] == Digest(Flatten(pieces))
  {
    var context := new Context();
    for k := 0 to |pieces|
      invariant context.Valid() && fresh(context) && fresh(context.buffer)
      invariant context.message == Flatten(pieces[..k])
    {
      context.Update(pieces[k]);
      assert pieces[..k + 1] == pieces[..k] + [pieces[k]];
      FlattenAppend(pieces[..k], [pieces[k]]);
      assert Flatten([pieces[k]]) == pieces[k];
    }
    assert pieces[..|pieces|] == pieces;
    digest := context.Final();
  }
}
