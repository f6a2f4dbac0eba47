/** Sums and bags over the threads of a state machine, and their change when one thread moves. */
module Tally {

  function Sum<T>(weight: T -> nat, xs: seq<T>): nat {
    if xs == [] then 0 else weight(xs[0]) + Sum(weight, xs[1..])
  }

  lemma {:induction false} SumUpdate<T>(weight: T -> nat, xs: seq<T>, i: nat, x: T)
    requires i < |xs|
    ensures Sum(weight, xs[i := x]) + weight(xs[i]) == Sum(weight, xs) + weight(x)
  {
    if i == 0 {
      assert xs[i := x][1..] == xs[1..];
    } else {
      assert xs[i := x][1..] == xs[1..][i - 1 := x];
      SumUpdate(weight, xs[1..], i - 1, x);
    }
  }

  lemma {:induction false} SumCovers<T>(weight: T -> nat, xs: seq<T>, i: nat)
    requires i < |xs|
    ensures weight(xs[i]) <= Sum(weight, xs)
  {
    if i == 0 {
    } else {
      SumCovers(weight, xs[1..], i - 1);
    }
  }

  lemma {:induction false} SumCoversTwo<T>(weight: T -> nat, xs: seq<T>, i: nat, j: nat)
    requires i < j < |xs|
    ensures weight(xs[i]) + weight(xs[j]) <= Sum(weight, xs)
  {
    if i == 0 {
      SumCovers(weight, xs[1..], j - 1);
    } else {
      SumCoversTwo(weight, xs[1..], i - 1, j - 1);
    }
  }

  lemma {:induction false} SumZero<T>(weight: T -> nat, xs: seq<T>)
    requires forall i | 0 <= i < |xs| :: weight(xs[i]) == 0
    ensures Sum(weight, xs) == 0
  {
    if xs == [] {
    } else {
      SumZero(weight, xs[1..]);
    }
  }

  function Bag<T>(hand: T -> multiset<nat>, xs: seq<T>): multiset<nat> {
    if xs == [] then multiset{} else hand(xs[0]) + Bag(hand, xs[1..])
  }

  lemma {:induction false} BagUpdate<T>(hand: T -> multiset<nat>, xs: seq<T>, i: nat, x: T)
    requires i < |xs|
    ensures Bag(hand, xs[i := x]) + hand(xs[i]) == Bag(hand, xs) + hand(x)
  {
    var ys := xs[i := x];
    assert Bag(hand, ys) == hand(ys[0]) + Bag(hand, ys[1..]);
    assert Bag(hand, xs) == hand(xs[0]) + Bag(hand, xs[1..]);
    if i == 0 {
      assert ys[1..] == xs[1..];
      Exchange(hand(x), Bag(hand, xs[1..]), hand(xs[0]));
    } else {
      assert ys[1..] == xs[1..][i - 1 := x];
      BagUpdate(hand, xs[1..], i - 1, x);
      assert hand(xs[0]) + Bag(hand, ys[1..]) + hand(xs[i]) == hand(xs[0]) + (Bag(hand, ys[1..]) + hand(xs[i]));
      assert hand(xs[0]) + Bag(hand, xs[1..]) + hand(x) == hand(xs[0]) + (Bag(hand, xs[1..]) + hand(x));
    }
  }

  lemma Exchange(a: multiset<nat>, b: multiset<nat>, c: multiset<nat>)
    ensures a + b + c == c + b + a
  {
  }

  lemma {:induction false} BagCovers<T>(hand: T -> multiset<nat>, xs: seq<T>, i: nat)
    requires i < |xs|
    ensures hand(xs[i]) <= Bag(hand, xs)
  {
    if i == 0 {
    } else {
      BagCovers(hand, xs[1..], i - 1);
    }
  }

  lemma {:induction false} BagCoversTwo<T>(hand: T -> multiset<nat>, xs: seq<T>, i: nat, j: nat)
    requires i < j < |xs|
    ensures hand(xs[i]) + hand(xs[j]) <= Bag(hand, xs)
  {
    if i == 0 {
      BagCovers(hand, xs[1..], j - 1);
    } else {
      BagCoversTwo(hand, xs[1..], i - 1, j - 1);
    }
  }

  lemma {:induction false} BagEmpty<T>(hand: T -> multiset<nat>, xs: seq<T>)
    requires forall i | 0 <= i < |xs| :: hand(xs[i]) == multiset{}
    ensures Bag(hand, xs) == multiset{}
  {
    if xs == [] {
    } else {
      BagEmpty(hand, xs[1..]);
    }
  }

  /** Each number below n once. */
  function Range(n: nat): (all: multiset<nat>)
    ensures |all| == n
    ensures forall i: nat :: all[i] == if i < n then 1 else 0
  {
    if n == 0 then multiset{} else Range(n - 1) + multiset{n - 1}
  }

  /** 0, 1, ..., n - 1 */
  function Count(n: nat): (s: seq<nat>)
    ensures |s| == n && forall i | 0 <= i < n :: s[i] == i
  {
    seq(n, i => i)
  }

  lemma {:induction false} CountIsRange(n: nat)
    ensures multiset(Count(n)) == Range(n)
  {
    if n == 0 {
    } else {
      CountIsRange(n - 1);
      assert Count(n) == Count(n - 1) + [n - 1];
    }
  }
}
