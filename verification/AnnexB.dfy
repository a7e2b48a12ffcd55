/** Byte streams of NAL units behind 3- and 4-byte start codes (Annex B of ITU-T H.264 and H.265):
    where the splitter cuts, and when cutting gives back what was joined. */
module AnnexB {
  import opened Bytes

  predicate Code3(d: seq<byte>, i: nat) {
    i + 3 <= |d| && d[i] == 0 && d[i + 1] == 0 && d[i + 2] == 1
  }

  predicate Code4(d: seq<byte>, i: nat) {
    i + 4 <= |d| && d[i] == 0 && d[i + 1] == 0 && d[i + 2] == 0 && d[i + 3] == 1
  }

  predicate Code(d: seq<byte>, i: nat) {
    Code3(d, i) || Code4(d, i)
  }

  function CodeLength(d: seq<byte>): nat {
    if Code3(d, 0) then 3 else 4
  }

  /** The leftmost start code at or behind `from`, or the end of the data. */
  function NextCode(d: seq<byte>, from: nat): (n: nat)
    requires from <= |d|
    ensures from <= n <= |d|
    ensures n < |d| ==> Code(d, n)
    decreases |d| - from
  {
    if from == |d| || Code(d, from) then from else NextCode(d, from + 1)
  }

  lemma {:induction false} NextCodeIsLeftmost(d: seq<byte>, from: nat)
    requires from <= |d|
    ensures forall i :: from <= i < NextCode(d, from) ==> !Code(d, i)
    decreases |d| - from
  {
    if from < |d| && !Code(d, from) {
      NextCodeIsLeftmost(d, from + 1);
    }
  }

  lemma NextCodeUnique(d: seq<byte>, from: nat, n: nat)
    requires from <= n <= |d|
    requires n < |d| ==> Code(d, n)
    requires forall i :: from <= i < n ==> !Code(d, i)
    ensures NextCode(d, from) == n
  {
    var m := NextCode(d, from);
    NextCodeIsLeftmost(d, from);
  }

  predicate Begins(d: seq<byte>) {
    d == [] || Code(d, 0)
  }

  /** The pieces the splitter delivers, start codes included. */
  function Cuts(d: seq<byte>): seq<seq<byte>>
    requires Begins(d)
    decreases |d|
  {
    if d == [] then []
    else
      var n := NextCode(d, CodeLength(d));
      RestBegins(d, n);
      [d[..n]] + Cuts(d[n..])
  }

  lemma RestBegins(d: seq<byte>, n: nat)
    requires n <= |d| && (n < |d| ==> Code(d, n))
    ensures Begins(d[n..])
  {
  }

  function StripCode(cut: seq<byte>): seq<byte> {
    if CodeLength(cut) <= |cut| then cut[CodeLength(cut)..] else []
  }

  function Payloads(cuts: seq<seq<byte>>): (r: seq<seq<byte>>)
    ensures |r| == |cuts|
  {
    if cuts == [] then [] else [StripCode(cuts[0])] + Payloads(cuts[1..])
  }

  /** The first cut begins with a start code and holds no other behind it. */
  lemma FirstCutIsOne(d: seq<byte>)
    requires Begins(d) && d != []
    ensures var cut := d[..NextCode(d, CodeLength(d))];
            Code(cut, 0) && forall i :: CodeLength(cut) <= i < |cut| ==> !Code(cut, i)
  {
    var cut := d[..NextCode(d, CodeLength(d))];
    NextCodeIsLeftmost(d, CodeLength(d));
    assert Code3(d, 0) ==> Code3(cut, 0);
    assert Code4(d, 0) ==> Code4(cut, 0);
    assert Code3(cut, 0) ==> Code3(d, 0);
    forall i | CodeLength(cut) <= i < |cut|
      ensures !Code(cut, i)
    {
      assert !Code(d, i);
    }
  }

  /** The cuts partition the data, each of them begins with a start code and holds no other behind it. */
  lemma {:induction false} CutsPartition(d: seq<byte>)
    requires Begins(d)
    ensures Flatten(Cuts(d)) == d
    ensures forall cut <- Cuts(d) :: Code(cut, 0) && forall i :: CodeLength(cut) <= i < |cut| ==> !Code(cut, i)
    decreases |d|
  {
    if d != [] {
      var n := NextCode(d, CodeLength(d));
      hide Code3, Code4;
      FirstCutIsOne(d);
      RestBegins(d, n);
      CutsPartition(d[n..]);
      assert d[..n] + d[n..] == d;
    }
  }

  // ---------------------------------------------------------------- joining and cutting

  /** A NAL unit and the start code in front of it. */
  datatype Nal = Nal(four: bool, data: seq<byte>)

  function StartCode(four: bool): seq<byte> {
    if four then [0, 0, 0, 1] else [0, 0, 1]
  }

  function Join(nals: seq<Nal>): seq<byte> {
    if nals == [] then [] else StartCode(nals[0].four) + nals[0].data + Join(nals[1..])
  }

  function Datas(nals: seq<Nal>): seq<seq<byte>> {
    if nals == [] then [] else [nals[0].data] + Datas(nals[1..])
  }

  predicate EndsInZero(data: seq<byte>) {
    data != [] && data[|data| - 1] == 0
  }

  /** No unit contains 00 00 01, and no unit that ends in 00 stands in front of a 3-byte start code. */
  predicate Separable(nals: seq<Nal>) {
    && (forall nal <- nals :: forall i: nat :: i < |nal.data| ==> !Code3(nal.data, i))
    && (forall k: nat :: k + 1 < |nals| ==> EndsInZero(nals[k].data) ==> nals[k + 1].four)
  }

  lemma JoinBegins(nals: seq<Nal>)
    ensures Begins(Join(nals))
    ensures nals != [] ==> CodeLength(Join(nals)) == |StartCode(nals[0].four)|
  {
    if nals != [] {
      var d := Join(nals);
      assert d[..|StartCode(nals[0].four)|] == StartCode(nals[0].four);
    }
  }

  /** The end of the first unit. */
  function Boundary(nals: seq<Nal>): (b: nat)
    requires nals != []
    ensures b <= |Join(nals)| && Join(nals)[b..] == Join(nals[1..])
    ensures Join(nals)[|StartCode(nals[0].four)|..b] == nals[0].data
  {
    |StartCode(nals[0].four)| + |nals[0].data|
  }

  /** A start code in some data, or reaching out of it into a start code behind it. */
  lemma CodeAt(data: seq<byte>, rest: seq<byte>, j: nat)
    requires j < |data|
    requires rest == [] || (|rest| >= 3 && rest[0] == 0 && rest[1] == 0)
    ensures Code(data + rest, j) <==>
              || Code3(data, j)
              || (j + 1 < |data| && Code3(data, j + 1) && data[j] == 0)
              || (j == |data| - 1 && EndsInZero(data) && rest != [] && rest[2] == 1)
  {
  }

  /** What spoils the first cut. */
  lemma CodeInFirst(nals: seq<Nal>, j: nat)
    requires nals != [] && j < |nals[0].data|
    ensures var data := nals[0].data;
            Code(Join(nals), |StartCode(nals[0].four)| + j) <==>
              || Code3(data, j)
              || (j + 1 < |data| && Code3(data, j + 1) && data[j] == 0)
              || (j == |data| - 1 && EndsInZero(data) && |nals| > 1 && !nals[1].four)
  {
    var rest := Join(nals[1..]);
    JoinTail(nals);
    CodeShift(Join(nals), |StartCode(nals[0].four)|, j);
    if |nals| > 1 {
      JoinStarts(nals[1..]);
    }
    CodeAt(nals[0].data, rest, j);
  }

  lemma JoinTail(nals: seq<Nal>)
    requires nals != []
    ensures Join(nals)[|StartCode(nals[0].four)|..] == nals[0].data + Join(nals[1..])
  {
    Assoc(StartCode(nals[0].four), nals[0].data, Join(nals[1..]));
  }

  lemma CodeShift(d: seq<byte>, s: nat, j: nat)
    requires s <= |d|
    ensures Code(d, s + j) <==> Code(d[s..], j)
  {
  }

  lemma JoinStarts(nals: seq<Nal>)
    requires nals != []
    ensures var d := Join(nals); |d| >= 3 && d[0] == 0 && d[1] == 0 && (d[2] == 1 <==> !nals[0].four)
  {
    assert Join(nals)[..|StartCode(nals[0].four)|] == StartCode(nals[0].four);
  }

  /** The first cut ends where the first unit ends exactly when the first unit is separable. */
  lemma FirstCut(nals: seq<Nal>)
    requires nals != []
    ensures var data := nals[0].data;
            NextCode(Join(nals), |StartCode(nals[0].four)|) == Boundary(nals) <==>
              && (forall i: nat :: i < |data| ==> !Code3(data, i))
              && (|nals| > 1 && EndsInZero(data) ==> nals[1].four)
  {
    hide Separable;
    var d, b, data := Join(nals), Boundary(nals), nals[0].data;
    var s := |StartCode(nals[0].four)|;
    if (forall i: nat :: i < |data| ==> !Code3(data, i)) && (|nals| > 1 && EndsInZero(data) ==> nals[1].four) {
      forall i | s <= i < b
        ensures !Code(d, i)
      {
        CodeInFirst(nals, i - s);
      }
      JoinBegins(nals[1..]);
      assert b < |d| ==> Code(d, b) by {
        if b < |d| {
          BeginsAt(d, b);
        }
      }
      NextCodeUnique(d, s, b);
    } else if NextCode(d, s) == b {
      NextCodeIsLeftmost(d, s);
      forall j: nat | j < |data|
        ensures !Code3(data, j)
      {
        CodeInFirst(nals, j);
      }
      if |nals| > 1 && EndsInZero(data) && !nals[1].four {
        CodeInFirst(nals, |data| - 1);
      }
    }
  }

  lemma BeginsAt(d: seq<byte>, b: nat)
    requires b < |d| && Begins(d[b..])
    ensures Code(d, b)
  {
    var rest := d[b..];
    assert forall k: nat :: k < |rest| ==> rest[k] == d[b + k];
  }

  /** Whatever the mix of start codes, cutting the joined stream gives back the units if, and only if,
      they are separable. */
  lemma {:induction false} RoundTrip(nals: seq<Nal>)
    ensures Begins(Join(nals))
    ensures Payloads(Cuts(Join(nals))) == Datas(nals) <==> Separable(nals)
    decreases |nals|
  {
    JoinBegins(nals);
    if nals != [] {
      var d, b := Join(nals), Boundary(nals);
      var s := |StartCode(nals[0].four)|;
      var n := NextCode(d, s);
      FirstCut(nals);
      RoundTrip(nals[1..]);
      SeparableSplit(nals);
      JoinStarts(nals);
      FirstOfCuts(d);
      SameHead(d[s..n], Payloads(Cuts(d[n..])), nals[0].data, Datas(nals[1..]));
      assert n != b ==> |d[s..n]| != |nals[0].data|;
    }
  }

  lemma FirstOfCuts(d: seq<byte>)
    requires d != [] && Begins(d)
    ensures var n := NextCode(d, CodeLength(d));
            Begins(d[n..]) && Payloads(Cuts(d)) == [d[CodeLength(d)..n]] + Payloads(Cuts(d[n..]))
  {
    var n := NextCode(d, CodeLength(d));
    RestBegins(d, n);
    FirstPayload(d, n);
    assert Cuts(d)[1..] == Cuts(d[n..]);
  }

  lemma SameHead<T>(x: T, xs: seq<T>, y: T, ys: seq<T>)
    ensures [x] + xs == [y] + ys <==> x == y && xs == ys
  {
    assert ([x] + xs)[0] == x && ([x] + xs)[1..] == xs;
    assert ([y] + ys)[0] == y && ([y] + ys)[1..] == ys;
  }

  lemma FirstPayload(d: seq<byte>, n: nat)
    requires Code(d, 0) && CodeLength(d) <= n <= |d|
    ensures StripCode(d[..n]) == d[CodeLength(d)..n]
  {
    assert Code3(d, 0) <==> Code3(d[..n], 0);
  }

  lemma SeparableSplit(nals: seq<Nal>)
    requires nals != []
    ensures Separable(nals) <==>
              && (forall i: nat :: i < |nals[0].data| ==> !Code3(nals[0].data, i))
              && (|nals| > 1 && EndsInZero(nals[0].data) ==> nals[1].four)
              && Separable(nals[1..])
  {
    var rest := nals[1..];
    assert nals == [nals[0]] + rest;
    if Separable(nals) {
      forall k: nat | k + 1 < |rest|
        ensures EndsInZero(rest[k].data) ==> rest[k + 1].four
      {
        assert rest[k] == nals[k + 1] && rest[k + 1] == nals[k + 2];
      }
    }
    if Separable(rest) && (|nals| > 1 && EndsInZero(nals[0].data) ==> nals[1].four) {
      forall k: nat | k + 1 < |nals|
        ensures EndsInZero(nals[k].data) ==> nals[k + 1].four
      {
        if k > 0 {
          assert nals[k] == rest[k - 1] && nals[k + 1] == rest[k];
        }
      }
    }
  }
}
