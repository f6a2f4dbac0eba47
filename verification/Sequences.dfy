/** Facts about sequences that several modules need. */
module Sequences {

  lemma Associate<T>(a: seq<T>, b: seq<T>, c: seq<T>)
    ensures a + b + c == a + (b + c)
  {
  }

  /** How many of the calls throw. */
  function Failures<T>(calls: seq<T>, throws: T -> bool): nat {
    if calls == [] then 0
    else Failures(calls[..|calls| - 1], throws) + (if throws(calls[|calls| - 1]) then 1 else 0)
  }

  lemma {:induction false} FailuresAppend<T>(a: seq<T>, b: seq<T>, throws: T -> bool)
    ensures Failures(a + b, throws) == Failures(a, throws) + Failures(b, throws)
    decreases |b|
  {
    if b == [] {
      assert a + b == a;
    } else {
      assert (a + b)[..|a + b| - 1] == a + b[..|b| - 1];
      FailuresAppend(a, b[..|b| - 1], throws);
    }
  }
}
