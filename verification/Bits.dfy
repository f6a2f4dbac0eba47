/** Bitwise operations on natural numbers, bit by bit, and their effect on a number that is split
    into a high part and k low bits. */
module Bits {

  function Or(a: nat, b: nat): nat
    decreases a + b
  {
    if a == 0 && b == 0 then 0
    else 2 * Or(a / 2, b / 2) + if a % 2 == 1 || b % 2 == 1 then 1 else 0
  }

  function And(a: nat, b: nat): nat
    decreases a + b
  {
    if a == 0 && b == 0 then 0
    else 2 * And(a / 2, b / 2) + if a % 2 == 1 && b % 2 == 1 then 1 else 0
  }

  function Xor(a: nat, b: nat): nat
    decreases a + b
  {
    if a == 0 && b == 0 then 0
    else 2 * Xor(a / 2, b / 2) + if a % 2 != b % 2 then 1 else 0
  }

  function Pow2(k: nat): nat
    ensures Pow2(k) > 0
  {
    if k == 0 then 1 else 2 * Pow2(k - 1)
  }

  /** The number with high part h above the k low bits of l. */
  function Join(h: nat, l: nat, k: nat): nat {
    if k == 0 then h else 2 * Join(h, l / 2, k - 1) + l % 2
  }

  lemma {:induction false} OrJoin(h: nat, l: nat, h': nat, l': nat, k: nat)
    ensures Or(Join(h, l, k), Join(h', l', k)) == Join(Or(h, h'), Or(l, l'), k)
  {
    if k == 0 {
    } else {
      OrJoin(h, l / 2, h', l' / 2, k - 1);
      OrHalf(l, l');
      var a, b := Join(h, l, k), Join(h', l', k);
      assert a / 2 == Join(h, l / 2, k - 1) && a % 2 == l % 2;
      assert b / 2 == Join(h', l' / 2, k - 1) && b % 2 == l' % 2;
      OrHalf(a, b);
    }
  }

  lemma OrHalf(a: nat, b: nat)
    ensures Or(a, b) / 2 == Or(a / 2, b / 2)
    ensures Or(a, b) % 2 == if a % 2 == 1 || b % 2 == 1 then 1 else 0
  {
  }

  lemma {:induction false} AndJoin(h: nat, l: nat, h': nat, l': nat, k: nat)
    ensures And(Join(h, l, k), Join(h', l', k)) == Join(And(h, h'), And(l, l'), k)
  {
    if k == 0 {
    } else {
      AndJoin(h, l / 2, h', l' / 2, k - 1);
      AndHalf(l, l');
      var a, b := Join(h, l, k), Join(h', l', k);
      assert a / 2 == Join(h, l / 2, k - 1) && a % 2 == l % 2;
      assert b / 2 == Join(h', l' / 2, k - 1) && b % 2 == l' % 2;
      AndHalf(a, b);
    }
  }

  lemma AndHalf(a: nat, b: nat)
    ensures And(a, b) / 2 == And(a / 2, b / 2)
    ensures And(a, b) % 2 == if a % 2 == 1 && b % 2 == 1 then 1 else 0
  {
  }

  lemma {:induction false} XorJoin(h: nat, l: nat, h': nat, l': nat, k: nat)
    ensures Xor(Join(h, l, k), Join(h', l', k)) == Join(Xor(h, h'), Xor(l, l'), k)
  {
    if k == 0 {
    } else {
      XorJoin(h, l / 2, h', l' / 2, k - 1);
      XorHalf(l, l');
      var a, b := Join(h, l, k), Join(h', l', k);
      assert a / 2 == Join(h, l / 2, k - 1) && a % 2 == l % 2;
      assert b / 2 == Join(h', l' / 2, k - 1) && b % 2 == l' % 2;
      XorHalf(a, b);
    }
  }

  lemma XorHalf(a: nat, b: nat)
    ensures Xor(a, b) / 2 == Xor(a / 2, b / 2)
    ensures Xor(a, b) % 2 == if a % 2 != b % 2 then 1 else 0
  {
  }

  lemma {:induction false} Pow2Add(a: nat, b: nat)
    ensures Pow2(a + b) == Pow2(a) * Pow2(b)
  {
    if a == 0 {
    } else {
      Pow2Add(a - 1, b);
      assert Pow2(a + b) == 2 * Pow2(a - 1 + b);
    }
  }

  lemma TwiceProduct(h: int, p: int)
    ensures h * (2 * p) == 2 * (h * p)
  {
  }

  lemma {:induction false} JoinValue(h: nat, l: nat, k: nat)
    requires l < Pow2(k)
    ensures Join(h, l, k) == h * Pow2(k) + l
  {
    if k == 0 {
    } else {
      JoinValue(h, l / 2, k - 1);
      TwiceProduct(h, Pow2(k - 1));
    }
  }

  // ---------------------------------------------------------------- operations with masks

  lemma {:induction false} OrZero(a: nat)
    ensures Or(a, 0) == a && Or(0, a) == a
    decreases a
  {
    if a == 0 {
    } else {
      OrZero(a / 2);
    }
  }

  lemma {:induction false} AndZero(a: nat)
    ensures And(a, 0) == 0 && And(0, a) == 0
    decreases a
  {
    if a == 0 {
    } else {
      AndZero(a / 2);
    }
  }

  lemma {:induction false} XorZero(a: nat)
    ensures Xor(a, 0) == a && Xor(0, a) == a
    decreases a
  {
    if a == 0 {
    } else {
      XorZero(a / 2);
    }
  }

  lemma {:induction false} OrMask(l: nat, k: nat)
    requires l < Pow2(k)
    ensures Or(l, Pow2(k) - 1) == Pow2(k) - 1
  {
    if k == 0 {
    } else {
      OrMask(l / 2, k - 1);
      OrHalf(l, Pow2(k) - 1);
      assert (Pow2(k) - 1) / 2 == Pow2(k - 1) - 1;
    }
  }

  lemma {:induction false} AndMask(l: nat, k: nat)
    requires l < Pow2(k)
    ensures And(l, Pow2(k) - 1) == l
  {
    if k == 0 {
    } else {
      AndMask(l / 2, k - 1);
      AndHalf(l, Pow2(k) - 1);
      assert (Pow2(k) - 1) / 2 == Pow2(k - 1) - 1;
    }
  }

  lemma {:induction false} XorMask(l: nat, k: nat)
    requires l < Pow2(k)
    ensures Xor(Pow2(k) - 1, l) == Pow2(k) - 1 - l && Xor(l, Pow2(k) - 1) == Pow2(k) - 1 - l
  {
    if k == 0 {
    } else {
      XorMask(l / 2, k - 1);
      XorHalf(Pow2(k) - 1, l);
      XorHalf(l, Pow2(k) - 1);
      assert (Pow2(k) - 1) / 2 == Pow2(k - 1) - 1;
    }
  }

  // ---------------------------------------------------------------- complement

  /** The complement of all bits complements both parts. */
  lemma {:induction false} NotJoin(h: nat, l: nat, k: nat, width: nat)
    requires k <= width && h < Pow2(width - k) && l < Pow2(k)
    ensures Join(h, l, k) < Pow2(width)
    ensures Pow2(width) - 1 - Join(h, l, k) == Join(Pow2(width - k) - 1 - h, Pow2(k) - 1 - l, k)
  {
    if k == 0 {
    } else {
      NotJoin(h, l / 2, k - 1, width - 1);
      assert (Pow2(k) - 1 - l) / 2 == Pow2(k - 1) - 1 - l / 2;
    }
  }
}
