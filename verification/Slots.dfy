/** A row of slots, whatever a slot is: how many of them are taken, and which is the lowest free one. */
module Slots {
  function Count<T>(slots: seq<T>, free: T -> bool): nat {
    if slots == [] then 0 else Count(slots[..|slots| - 1], free) + (if free(slots[|slots| - 1]) then 0 else 1)
  }

  /** The lowest free slot from `from` on, or the number of slots if there is none. */
  function Lowest<T>(slots: seq<T>, free: T -> bool, from: nat): (i: nat)
    requires from <= |slots|
    ensures from <= i <= |slots|
    ensures i < |slots| ==> free(slots[i])
    ensures forall j :: from <= j < i ==> !free(slots[j])
    decreases |slots| - from
  {
    if from == |slots| || free(slots[from]) then from else Lowest(slots, free, from + 1)
  }

  lemma {:induction false} CountUpdate<T>(slots: seq<T>, free: T -> bool, i: nat, x: T)
    requires i < |slots|
    ensures Count(slots[i := x], free) + (if free(slots[i]) then 0 else 1)
            == Count(slots, free) + (if free(x) then 0 else 1)
  {
    var n := |slots| - 1;
    if i == n {
      assert slots[i := x][..n] == slots[..n];
    } else {
      assert slots[i := x][..n] == slots[..n][i := x];
      CountUpdate(slots[..n], free, i, x);
    }
  }

  /** Some of the first n slots is free exactly when fewer than n of them are taken. */
  lemma {:induction false} CountBelow<T>(slots: seq<T>, free: T -> bool, n: nat)
    requires n <= |slots|
    ensures Count(slots[..n], free) <= n
    ensures Count(slots[..n], free) == n <==> forall i :: 0 <= i < n ==> !free(slots[i])
  {
    if n > 0 {
      CountBelow(slots, free, n - 1);
      assert slots[..n][..n - 1] == slots[..n - 1];
    }
  }

  lemma {:induction false} CountSplit<T>(slots: seq<T>, free: T -> bool, n: nat)
    requires n <= |slots|
    ensures Count(slots, free) == Count(slots[..n], free) + Count(slots[n..], free)
  {
    if n < |slots| {
      var m := |slots| - 1;
      CountSplit(slots[..m], free, n);
      assert slots[..m][..n] == slots[..n];
      assert slots[..m][n..] == slots[n..][..m - n];
      assert slots[n..][m - n] == slots[m];
    } else {
      assert slots[..n] == slots;
    }
  }

  /** None is taken exactly when all are free. */
  lemma {:induction false} CountNone<T>(slots: seq<T>, free: T -> bool)
    ensures Count(slots, free) == 0 <==> forall i :: 0 <= i < |slots| ==> free(slots[i])
  {
    if slots != [] {
      CountNone(slots[..|slots| - 1], free);
    }
  }
}
