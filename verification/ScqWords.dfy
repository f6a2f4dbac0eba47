/** The packed 64-bit words of the SCQ ring.  A ring of 2^m words packs, from the top, a wrapping
    cycle, a safe bit and an m-bit index.  The expressions the program writes with shifts and
    masks are shown here to do on words what module ScqRing does on records. */
module ScqWords {
  import opened Bits
  import R = ScqRing

  const WORD: nat := 0x1_0000_0000_0000_0000

  /** The ring sizes the queue accepts: at least two words, at most 2^62. */
  predicate Geometry(m: nat) {
    1 <= m <= 62
  }

  function Not(x: nat): nat
    requires x < WORD
  {
    WORD - 1 - x
  }

  function ShiftLeft1(x: nat): nat {
    (2 * x) % WORD
  }

  function Signed(x: nat): int {
    if x < WORD / 2 then x else x - WORD
  }

  /** `before`: the signed difference of two words is negative. */
  predicate Before(left: nat, right: nat) {
    Signed((left - right) % WORD) < 0
  }

  predicate BeforeOrEqual(left: nat, right: nat) {
    Signed((left - right) % WORD) <= 0
  }

  function CycleMask(m: nat): nat {
    2 * Pow2(m) - 1
  }

  /** `(ticket << 1) | cycle_mask()` */
  function TicketCycle(m: nat, ticket: nat): nat {
    Or(ShiftLeft1(ticket), CycleMask(m))
  }

  // ---------------------------------------------------------------- encoding

  /** A cycle as far as a word can hold it: the remainder by the range of laps, counted by addition
      and subtraction to keep proofs linear. */
  function Lap(m: nat, cycle: int): (lap: nat)
    requires Geometry(m)
    ensures lap < Pow2(63 - m)
    decreases cycle < 0, if cycle < 0 then -cycle else cycle
  {
    var laps := Pow2(63 - m);
    if cycle < 0 then Lap(m, cycle + laps) else if cycle < laps then cycle else Lap(m, cycle - laps)
  }

  /** What is left out is a multiple of the range. */
  lemma {:induction false} LapValue(m: nat, cycle: int) returns (d: int)
    requires Geometry(m)
    ensures cycle == d * Pow2(63 - m) + Lap(m, cycle)
    decreases cycle < 0, if cycle < 0 then -cycle else cycle
  {
    var laps := Pow2(63 - m);
    if cycle < 0 {
      var e := LapValue(m, cycle + laps);
      OneLess(e, laps);
      d := e - 1;
    } else if cycle < laps {
      d := 0;
    } else {
      var e := LapValue(m, cycle - laps);
      OneLess(e + 1, laps);
      d := e + 1;
    }
  }

  lemma OneLess(e: int, laps: int)
    ensures (e - 1) * laps == e * laps - laps
  {
  }

  function IndexBits(m: nat, cell: R.Cell): nat {
    match cell
    case Vacant => Pow2(m) - 1
    case Holds(index) => index
  }

  predicate Fits(m: nat, w: R.Word) {
    w.cell.Holds? ==> w.cell.index < Pow2(m) - 1
  }

  /** The part of a word above its index field. */
  function Top(m: nat, w: R.Word): nat
    requires Geometry(m)
  {
    2 * Lap(m, w.cycle) + if w.safe then 1 else 0
  }

  function Encode(m: nat, w: R.Word): nat
    requires Geometry(m)
  {
    Join(Top(m, w), IndexBits(m, w.cell), m)
  }

  /** The word of a cycle with all lower bits set. */
  function CycleWord(m: nat, cycle: int): nat
    requires Geometry(m)
  {
    Encode(m, R.Word(cycle, true, R.Vacant))
  }

  lemma WordSize()
    ensures Pow2(64) == WORD
  {
    Pow2Of63();
  }

  lemma Pow2Of63()
    ensures Pow2(63) == 0x8000_0000_0000_0000
  {
    assert Pow2(1) == 2 && Pow2(2) == 4 && Pow2(3) == 8;
    DoubleWidth(3, 8);
    DoubleWidth(7, 128);
    DoubleWidth(15, 0x8000);
    DoubleWidth(31, 0x8000_0000);
  }

  lemma DoubleWidth(a: nat, value: nat)
    requires Pow2(a) == value
    ensures Pow2(2 * a + 1) == 2 * (value * value)
  {
    Pow2Add(a, a);
  }

  /** The parts of an encoded word can be read off again. */
  lemma {:induction false} JoinInjective(h: nat, l: nat, h': nat, l': nat, k: nat)
    requires l < Pow2(k) && l' < Pow2(k)
    ensures Join(h, l, k) == Join(h', l', k) <==> h == h' && l == l'
  {
    if k == 0 {
    } else {
      JoinInjective(h, l / 2, h', l' / 2, k - 1);
    }
  }

  // ---------------------------------------------------------------- masks on encoded words

  lemma RingSizeBits(m: nat)
    ensures Pow2(m) == Join(1, 0, m)
    ensures Pow2(m) - 1 == Join(0, Pow2(m) - 1, m)
    ensures CycleMask(m) == Join(1, Pow2(m) - 1, m)
  {
    JoinValue(1, 0, m);
    JoinValue(0, Pow2(m) - 1, m);
    JoinValue(1, Pow2(m) - 1, m);
  }

  lemma OrOne(h: nat, b: nat)
    requires b < 2
    ensures Or(2 * h + b, 1) == 2 * h + 1
  {
    OrZero(h);
    OrHalf(2 * h + b, 1);
    assert (2 * h + b) / 2 == h;
  }

  lemma AndOne(h: nat, b: nat)
    requires b < 2
    ensures And(2 * h + b, 1) == b
  {
    AndZero(h);
    AndHalf(2 * h + b, 1);
    assert (2 * h + b) / 2 == h && (2 * h + b) % 2 == b;
  }

  lemma XorOne(h: nat)
    ensures Xor(2 * h + 1, 1) == 2 * h
  {
    var x := 2 * h + 1;
    assert x / 2 == h && x % 2 == 1;
    XorZero(h);
    XorHalf(x, 1);
    FromHalves(Xor(x, 1), h);
  }

  lemma FromHalves(x: nat, h: nat)
    requires x / 2 == h && x % 2 == 0
    ensures x == 2 * h
  {
  }

  lemma OrTop(h: nat, l: nat, k: nat)
    requires l < Pow2(k)
    ensures Or(Join(h, l, k), Pow2(k)) == Join(Or(h, 1), l, k)
    ensures Or(Join(h, l, k), CycleMask(k)) == Join(Or(h, 1), Pow2(k) - 1, k)
  {
    RingSizeBits(k);
    OrJoin(h, l, 1, 0, k);
    OrZero(l);
    OrJoin(h, l, 1, Pow2(k) - 1, k);
    OrMask(l, k);
  }

  lemma OrTopOdd(lap: nat, b: nat, l: nat, k: nat)
    requires b < 2 && l < Pow2(k)
    ensures Or(Join(2 * lap + b, l, k), Pow2(k)) == Join(2 * lap + 1, l, k)
    ensures Or(Join(2 * lap + b, l, k), CycleMask(k)) == Join(2 * lap + 1, Pow2(k) - 1, k)
  {
    OrTop(2 * lap + b, l, k);
    OrOne(lap, b);
  }

  lemma OrLow(h: nat, l: nat, k: nat)
    requires l < Pow2(k)
    ensures Or(Join(h, l, k), Pow2(k) - 1) == Join(h, Pow2(k) - 1, k)
  {
    RingSizeBits(k);
    OrJoin(h, l, 0, Pow2(k) - 1, k);
    OrZero(h);
    OrMask(l, k);
  }

  lemma AndTop(h: nat, l: nat, k: nat)
    requires l < Pow2(k)
    ensures And(Join(h, l, k), Pow2(k) - 1) == l
  {
    var mask := Pow2(k) - 1;
    RingSizeBits(k);
    assert mask == Join(0, mask, k);
    AndJoin(h, l, 0, mask, k);
    AndZero(h);
    AndMask(l, k);
    assert And(Join(h, l, k), mask) == Join(0, l, k);
    JoinValue(0, l, k);
  }

  /** entry | cycle_mask is the cycle of the word. */
  lemma OrCycleMask(m: nat, w: R.Word)
    requires Geometry(m) && Fits(m, w)
    ensures Or(Encode(m, w), CycleMask(m)) == CycleWord(m, w.cycle)
  {
    OrTopOdd(Lap(m, w.cycle), if w.safe then 1 else 0, IndexBits(m, w.cell), m);
  }

  /** entry | ring_size is the word made safe. */
  lemma OrRingSize(m: nat, w: R.Word)
    requires Geometry(m) && Fits(m, w)
    ensures Or(Encode(m, w), Pow2(m)) == Encode(m, w.(safe := true))
  {
    OrTopOdd(Lap(m, w.cycle), if w.safe then 1 else 0, IndexBits(m, w.cell), m);
  }

  /** fetch_or of the ring mask makes the word vacant. */
  lemma OrRingMask(m: nat, w: R.Word)
    requires Geometry(m) && Fits(m, w)
    ensures Or(Encode(m, w), Pow2(m) - 1) == Encode(m, w.(cell := R.Vacant))
  {
    OrLow(Top(m, w), IndexBits(m, w.cell), m);
  }

  /** entry & ring_mask is the index field. */
  lemma AndRingMask(m: nat, w: R.Word)
    requires Geometry(m) && Fits(m, w)
    ensures And(Encode(m, w), Pow2(m) - 1) == IndexBits(m, w.cell)
  {
    AndTop(Top(m, w), IndexBits(m, w.cell), m);
  }

  lemma XorTop(h: nat, k: nat, x: nat)
    requires x < Pow2(k)
    ensures Xor(Join(h, Pow2(k) - 1, k), Pow2(k)) == Join(Xor(h, 1), Pow2(k) - 1, k)
    ensures Xor(Join(h, Pow2(k) - 1, k), x) == Join(h, Pow2(k) - 1 - x, k)
  {
    var mask := Pow2(k) - 1;
    RingSizeBits(k);
    XorJoin(h, mask, 1, 0, k);
    XorZero(mask);
    XorLow(h, mask, k, x);
  }

  lemma XorLow(h: nat, mask: nat, k: nat, x: nat)
    requires x < Pow2(k) && mask == Pow2(k) - 1
    ensures Xor(Join(h, mask, k), x) == Join(h, mask - x, k)
  {
    JoinValue(0, x, k);
    XorJoin(h, mask, 0, x, k);
    XorZero(h);
    XorMask(x, k);
  }

  /** tail_cycle ^ (index ^ ring_mask) is the safe word that holds the index. */
  lemma XorIndex(m: nat, cycle: int, index: nat)
    requires Geometry(m) && index < Pow2(m) - 1
    ensures Xor(CycleWord(m, cycle), Xor(index, Pow2(m) - 1)) == Encode(m, R.Word(cycle, true, R.Holds(index)))
  {
    XorMask(index, m);
    XorTop(2 * Lap(m, cycle) + 1, m, Pow2(m) - 1 - index);
  }

  /** entry_cycle ^ ring_size is the unsafe vacant word. */
  lemma XorRingSize(m: nat, cycle: int)
    requires Geometry(m)
    ensures Xor(CycleWord(m, cycle), Pow2(m)) == Encode(m, R.Word(cycle, false, R.Vacant))
  {
    XorTop(2 * Lap(m, cycle) + 1, m, 0);
    XorOne(Lap(m, cycle));
  }

  lemma NotRingSize(m: nat)
    requires Geometry(m)
    ensures Pow2(m) < WORD && Not(Pow2(m)) == Join(2 * (Pow2(63 - m) - 1), Pow2(m) - 1, m)
  {
    WordSize();
    RingSizeBits(m);
    NotJoin(1, 0, m, 64);
  }

  lemma AndEven(a: nat, b: nat, c: nat)
    requires b < 2
    ensures And(2 * a + b, 2 * c) == 2 * And(a, c)
  {
    AndHalf(2 * a + b, 2 * c);
  }

  lemma ClearTop(lap: nat, b: nat, l: nat, m: nat)
    requires Geometry(m) && lap < Pow2(63 - m) && b < 2 && l < Pow2(m)
    ensures Pow2(m) < WORD && And(Join(2 * lap + b, l, m), Not(Pow2(m))) == Join(2 * lap, l, m)
  {
    NotRingSize(m);
    AndJoin(2 * lap + b, l, 2 * (Pow2(63 - m) - 1), Pow2(m) - 1, m);
    AndMask(l, m);
    AndEven(lap, b, Pow2(63 - m) - 1);
    AndMask(lap, 63 - m);
  }

  /** entry & ~ring_size: the word made unsafe. */
  lemma ClearSafe(m: nat, w: R.Word)
    requires Geometry(m) && Fits(m, w)
    ensures Pow2(m) < WORD && And(Encode(m, w), Not(Pow2(m))) == Encode(m, w.(safe := false))
  {
    ClearTop(Lap(m, w.cycle), if w.safe then 1 else 0, IndexBits(m, w.cell), m);
  }

  lemma NotTop(h: nat, l: nat, m: nat)
    requires Geometry(m) && h < Pow2(64 - m) && l < Pow2(m)
    ensures Join(h, l, m) < WORD
    ensures And(Not(Join(h, l, m)), Pow2(m)) == Join(And(Pow2(64 - m) - 1 - h, 1), 0, m)
  {
    WordSize();
    NotJoin(h, l, m, 64);
    RingSizeBits(m);
    AndJoin(Pow2(64 - m) - 1 - h, Pow2(m) - 1 - l, 1, 0, m);
    AndZero(Pow2(m) - 1 - l);
  }

  lemma NotBit(lap: nat, b: nat, k: nat)
    requires lap < Pow2(k) && b < 2
    ensures 2 * lap + b < Pow2(k + 1) && And(Pow2(k + 1) - 1 - (2 * lap + b), 1) == 1 - b
  {
    AndOne(Pow2(k) - 1 - lap, 1 - b);
    assert Pow2(k + 1) - 1 - (2 * lap + b) == 2 * (Pow2(k) - 1 - lap) + (1 - b);
  }

  lemma UnsafeTop(lap: nat, b: nat, l: nat, m: nat)
    requires Geometry(m) && lap < Pow2(63 - m) && b < 2 && l < Pow2(m)
    ensures Join(2 * lap + b, l, m) < WORD
    ensures And(Not(Join(2 * lap + b, l, m)), Pow2(m)) == if b == 1 then 0 else Pow2(m)
  {
    NotBit(lap, b, 63 - m);
    NotTop(2 * lap + b, l, m);
    BitOfRing(1 - b, m);
  }

  lemma BitOfRing(b: nat, m: nat)
    requires b < 2
    ensures Join(b, 0, m) == if b == 1 then Pow2(m) else 0
  {
    JoinValue(b, 0, m);
  }

  lemma EncodeSplits(m: nat, w: R.Word) returns (lap: nat, l: nat)
    requires Geometry(m) && Fits(m, w)
    ensures lap < Pow2(63 - m) && l < Pow2(m)
    ensures Encode(m, w) == Join(2 * lap + if w.safe then 1 else 0, l, m)
  {
    lap, l := Lap(m, w.cycle), IndexBits(m, w.cell);
  }

  /** (~entry) & ring_size: the ring size if the word is unsafe. */
  lemma UnsafeBit(m: nat, w: R.Word)
    requires Geometry(m) && Fits(m, w)
    ensures Encode(m, w) < WORD
    ensures And(Not(Encode(m, w)), Pow2(m)) == if w.safe then 0 else Pow2(m)
  {
    var entry := Encode(m, w);
    var lap, l := EncodeSplits(m, w);
    UnsafeTop(lap, if w.safe then 1 else 0, l, m);
    assert entry < WORD && And(Not(entry), Pow2(m)) == if w.safe then 0 else Pow2(m);
  }

  // ---------------------------------------------------------------- wrapping differences

  lemma SignedDifference(x: int, d: int)
    requires -0x8000_0000_0000_0000 <= x < 0x8000_0000_0000_0000
    ensures Signed((x + WORD * d) % WORD) == x
  {
  }

  /** A cycle and its lap are a multiple of the range of laps apart. */
  lemma Reduce(m: nat, cycle: int) returns (d: int)
    requires Geometry(m)
    ensures 2 * Pow2(m) * cycle == 2 * Pow2(m) * Lap(m, cycle) + WORD * d
  {
    var p, q := Pow2(m), Pow2(63 - m);
    d := LapValue(m, cycle);
    RingTimesLaps(m);
    ReduceBy(p, q, cycle, Lap(m, cycle), d);
  }

  lemma ReduceBy(p: nat, q: nat, x: int, rest: int, d: int)
    requires x == d * q + rest && 2 * p * q == WORD
    ensures 2 * p * x == 2 * p * rest + WORD * d
  {
    Distribute(2 * p, d * q, rest);
    Associate(2 * p, q, d);
  }

  lemma Distribute(a: int, b: int, c: int)
    ensures a * (b + c) == a * b + a * c && a * (b - c) == a * b - a * c
  {
  }

  lemma Associate(a: int, b: int, c: int)
    ensures a * (b * c) == a * b * c
  {
  }

  lemma RingTimesLaps(m: nat)
    requires Geometry(m)
    ensures 2 * Pow2(m) * Pow2(63 - m) == WORD
    ensures 2 * Pow2(m) * Pow2(62 - m) == 0x8000_0000_0000_0000
  {
    Pow2Add(m, 63 - m);
    Pow2Add(m, 62 - m);
    Pow2Of63();
    assert Pow2(m + (63 - m)) == 2 * Pow2(m + (62 - m));
    Associate(2, Pow2(m), Pow2(63 - m));
    Associate(2, Pow2(m), Pow2(62 - m));
  }

  /** Two cycles closer than half the range of a word. */
  predicate Near(m: nat, a: int, b: int)
    requires Geometry(m)
  {
    b - a <= Pow2(62 - m) && a - b < Pow2(62 - m)
  }

  lemma CycleWordValue(m: nat, cycle: int)
    requires Geometry(m)
    ensures CycleWord(m, cycle) == 2 * Pow2(m) * Lap(m, cycle) + 2 * Pow2(m) - 1
  {
    JoinOdd(Lap(m, cycle), m, CycleWord(m, cycle));
  }

  lemma JoinOdd(lap: nat, m: nat, word: nat)
    requires word == Join(2 * lap + 1, Pow2(m) - 1, m)
    ensures word == 2 * Pow2(m) * lap + 2 * Pow2(m) - 1
  {
    JoinValue(2 * lap + 1, Pow2(m) - 1, m);
    TwiceTimes(lap, Pow2(m));
  }

  lemma TwiceTimes(a: int, b: int)
    ensures (2 * a + 1) * b == 2 * b * a + b
  {
  }

  lemma CycleDifference(m: nat, a: int, b: int) returns (d: int)
    requires Geometry(m) && Near(m, a, b)
    ensures CycleWord(m, a) - CycleWord(m, b) == 2 * Pow2(m) * (a - b) + WORD * d
    ensures -0x8000_0000_0000_0000 <= 2 * Pow2(m) * (a - b) < 0x8000_0000_0000_0000
    ensures 2 * Pow2(m) * (a - b) < 0 <==> a < b
    ensures 2 * Pow2(m) * (a - b) == 0 <==> a == b
  {
    var p := Pow2(m);
    RingTimesLaps(m);
    CycleWordValue(m, a);
    CycleWordValue(m, b);
    var da := Reduce(m, a);
    var db := Reduce(m, b);
    Distribute(2 * p, a, b);
    d := db - da;
    Scale(2 * p, a - b, Pow2(62 - m));
  }

  lemma Scale(c: int, x: int, bound: int)
    requires c > 0 && -bound <= x < bound
    ensures -(c * bound) <= c * x < c * bound
    ensures c * x < 0 <==> x < 0
    ensures c * x == 0 <==> x == 0
  {
  }

  /** `before` on the cycles of two words is the order of the cycles, and words of different
      cycles differ, as long as the cycles are near each other. */
  lemma CycleOrder(m: nat, a: int, b: int)
    requires Geometry(m) && Near(m, a, b)
    ensures Before(CycleWord(m, a), CycleWord(m, b)) <==> a < b
    ensures CycleWord(m, a) == CycleWord(m, b) <==> a == b
  {
    var d := CycleDifference(m, a, b);
    SignedDifference(2 * Pow2(m) * (a - b), d);
  }

  /** `before` and `before_or_equal` on wrapped tickets agree with ticket order while the distance
      stays under half the word range. */
  lemma TicketOrder(a: nat, b: nat)
    requires -0x8000_0000_0000_0000 <= a - b < 0x8000_0000_0000_0000
    ensures Before(a % WORD, b % WORD) <==> a < b
    ensures BeforeOrEqual(a % WORD, b % WORD) <==> a <= b
  {
    var d := b / WORD - a / WORD;
    assert a % WORD - b % WORD == a - b + WORD * d;
    SignedDifference(a - b, d);
  }

  // ---------------------------------------------------------------- tickets

  lemma {:induction false} TicketParts(n: nat, ticket: nat)
    requires n > 0
    ensures ticket == 2 * n * R.Cycle(n, ticket) + R.Slot(n, ticket)
    decreases ticket
  {
    if ticket >= 2 * n {
      TicketParts(n, ticket - 2 * n);
      Distribute(2 * n, R.Cycle(n, ticket - 2 * n), -1);
    }
  }

  /** The cycle of a ticket is the quotient and its slot the remainder by the ring size. */
  lemma CycleAndSlotDivide(n: nat, ticket: nat)
    requires n > 0
    ensures R.Cycle(n, ticket) == ticket / (2 * n) && R.Slot(n, ticket) == ticket % (2 * n)
  {
    TicketParts(n, ticket);
    DivideUnique(2 * n, R.Cycle(n, ticket), R.Slot(n, ticket));
  }

  lemma DivideUnique(d: nat, q: int, r: nat)
    requires r < d
    ensures (d * q + r) / d == q && (d * q + r) % d == r
  {
    var x := d * q + r;
    var q', r' := x / d, x % d;
    assert x == d * q' + r' && 0 <= r' < d;
    Distribute(d, q, q');
    if q < q' {
      Scale(d, q' - q - 1, q' - q);
      Distribute(d, q' - q, 1);
    } else if q' < q {
      Scale(d, q - q' - 1, q - q');
      Distribute(d, q - q', 1);
    }
  }

  lemma LapFits(p: nat, q: nat, lap: nat, slot: nat)
    requires lap < q && slot < p
    ensures 2 * p * lap + 2 * slot < 2 * p * q
  {
    var gap := q - 1 - lap;
    Distribute(2 * p, lap + 1, -gap);
    Distribute(2 * p, lap, 1);
    assert 2 * p * gap >= 0;
  }

  lemma Shifted(t: nat, rest: nat, d: int)
    requires 2 * t == rest + WORD * d && rest < WORD
    ensures ShiftLeft1(t % WORD) == rest
  {
    var q, r := t / WORD, t % WORD;
    assert 2 * r == rest + WORD * (d - 2 * q);
    Residue(2 * r, rest, d - 2 * q);
  }

  lemma OrShifted(lap: nat, slot: nat, m: nat, word: nat)
    requires slot < Pow2(m) && word == 2 * Pow2(m) * lap + 2 * slot
    ensures Or(word, CycleMask(m)) == 2 * Pow2(m) * lap + 2 * Pow2(m) - 1
  {
    assert Pow2(m + 1) == 2 * Pow2(m);
    JoinValue(lap, 2 * slot, m + 1);
    OrLow(lap, 2 * slot, m + 1);
    JoinValue(lap, Pow2(m + 1) - 1, m + 1);
    assert lap * (2 * Pow2(m)) == 2 * Pow2(m) * lap;
  }

  lemma ShiftedBy(p: nat, q: nat, cycle: nat, slot: nat, lap: nat, d: int)
    requires 2 * p * cycle == 2 * p * lap + WORD * d && 2 * p * q == WORD && lap < q && slot < p
    ensures ShiftLeft1((p * cycle + slot) % WORD) == 2 * p * lap + 2 * slot
  {
    LapFits(p, q, lap, slot);
    Associate(2, p, cycle);
    Shifted(p * cycle + slot, 2 * p * lap + 2 * slot, d);
  }

  lemma ShiftedToLap(m: nat, cycle: nat, slot: nat)
    requires Geometry(m) && slot < Pow2(m)
    ensures ShiftLeft1((Pow2(m) * cycle + slot) % WORD) == 2 * Pow2(m) * Lap(m, cycle) + 2 * slot
  {
    var d := Reduce(m, cycle);
    RingTimesLaps(m);
    ShiftedBy(Pow2(m), Pow2(63 - m), cycle, slot, Lap(m, cycle), d);
  }

  /** (ticket << 1) | cycle_mask is the cycle word of the ticket, however far tickets have wrapped. */
  lemma TicketCycleWord(m: nat, n: nat, ticket: nat)
    requires Geometry(m) && n > 0 && Pow2(m) == 2 * n
    ensures TicketCycle(m, ticket % WORD) == CycleWord(m, R.Cycle(n, ticket))
  {
    TicketParts(n, ticket);
    var cycle, slot := R.Cycle(n, ticket), R.Slot(n, ticket);
    ShiftedToLap(m, cycle, slot);
    OrShifted(Lap(m, cycle), slot, m, ShiftLeft1(ticket % WORD));
    CycleWordValue(m, cycle);
  }

  lemma TicketResidue(p: nat, q: nat, cycle: nat, slot: nat) returns (lap: nat)
    requires q > 0 && p * q == WORD && slot < p
    ensures (p * cycle + slot) % WORD == lap * p + slot
  {
    var d := cycle / q;
    lap := cycle % q;
    assert cycle == q * d + lap;
    Distribute(p, q * d, lap);
    Associate(p, q, d);
    RowFits(p, q, lap, slot);
    Residue(p * cycle + slot, lap * p + slot, d);
  }

  lemma RowFits(p: nat, q: nat, lap: nat, slot: nat)
    requires lap < q && slot < p
    ensures lap * p + slot < p * q && lap * p == p * lap
  {
    var gap := q - 1 - lap;
    Distribute(p, lap + 1, -gap);
    Distribute(p, lap, 1);
    assert p * gap >= 0;
  }

  lemma RingTimesTwoLaps(m: nat) returns (q: nat)
    requires Geometry(m)
    ensures q > 0 && Pow2(m) * q == WORD
  {
    q := 2 * Pow2(63 - m);
    RingTimesLaps(m);
    Associate(Pow2(m), 2, Pow2(63 - m));
  }

  /** map: ticket & ring_mask is the slot of the ticket. */
  lemma MapTicket(m: nat, n: nat, ticket: nat)
    requires Geometry(m) && n > 0 && Pow2(m) == 2 * n
    ensures And(ticket % WORD, Pow2(m) - 1) == R.Slot(n, ticket)
  {
    var q := RingTimesTwoLaps(m);
    var cycle, slot := R.Cycle(n, ticket), R.Slot(n, ticket);
    TicketParts(n, ticket);
    assert ticket == Pow2(m) * cycle + slot;
    var lap := TicketResidue(Pow2(m), q, cycle, slot);
    assert ticket % WORD == lap * Pow2(m) + slot;
    AndRow(lap, slot, m);
  }

  lemma AndRow(lap: nat, slot: nat, m: nat)
    requires slot < Pow2(m)
    ensures And(lap * Pow2(m) + slot, Pow2(m) - 1) == slot
  {
    JoinValue(lap, slot, m);
    AndTop(lap, slot, m);
  }

  lemma Residue(t: nat, rest: nat, d: int)
    requires t == rest + WORD * d && rest < WORD
    ensures t % WORD == rest
  {
  }

  // ---------------------------------------------------------------- the program's decisions on words

  datatype EnqueueTest = SwapAtOnce | LookAtHead | NextTicket

  /** The test `reusable` of `enqueue`, up to the load of head. */
  function TestWord(m: nat, tailCycle: nat, entry: nat): EnqueueTest {
    var entryCycle := Or(entry, CycleMask(m));
    if !Before(entryCycle, tailCycle) then NextTicket
    else if entry == entryCycle then SwapAtOnce
    else if entry == Xor(entryCycle, Pow2(m)) then LookAtHead
    else NextTicket
  }

  datatype WordVerdict = Take | Reload | Swap(replacement: nat, attempts: nat) | Abandon

  /** One pass through the inner loop of `try_dequeue`. */
  function JudgeWord(m: nat, headCycle: nat, attempts: nat, entry: nat): WordVerdict
    requires entry < WORD && Pow2(m) < WORD
  {
    var entryCycle := Or(entry, CycleMask(m));
    if entryCycle == headCycle then
      Take
    else if Or(entry, Pow2(m)) != entryCycle then
      var replacement := And(entry, Not(Pow2(m)));
      if entry == replacement then Abandon
      else if !Before(entryCycle, headCycle) then Abandon
      else Swap(replacement, attempts)
    else if attempts + 1 <= R.CATCHUP_ATTEMPTS then
      Reload
    else
      var replacement := Xor(headCycle, And(Not(entry), Pow2(m)));
      if !Before(entryCycle, headCycle) then Abandon else Swap(replacement, attempts + 1)
  }

  /** Equal words of one cycle have equal parts. */
  lemma EncodeParts(m: nat, v: R.Word, w: R.Word)
    requires Geometry(m) && Fits(m, v) && Fits(m, w) && v.cycle == w.cycle
    ensures Encode(m, v) == Encode(m, w) <==> v == w
  {
    JoinInjective(Top(m, v), IndexBits(m, v.cell), Top(m, w), IndexBits(m, w.cell), m);
  }

  function TestOf(next: R.Local): EnqueueTest {
    if next.EnqSwap? then SwapAtOnce else if next.EnqHead? then LookAtHead else NextTicket
  }

  function EncodeVerdict(m: nat, verdict: R.Verdict): WordVerdict
    requires Geometry(m)
  {
    match verdict
    case Take => Take
    case Reload => Reload
    case Swap(replacement, attempts) => Swap(Encode(m, replacement), attempts)
    case Abandon => Abandon
  }

  /** The test on packed words decides as the test on records does. */
  lemma TestWordRefines(m: nat, n: nat, index: nat, known: bool, ticket: nat, w: R.Word)
    requires Geometry(m) && n > 0 && Pow2(m) == 2 * n && Fits(m, w)
    requires Near(m, w.cycle, R.Cycle(n, ticket))
    ensures TestWord(m, TicketCycle(m, ticket % WORD), Encode(m, w))
         == TestOf(R.EnqueueDecision(n, index, known, ticket, w))
  {
    TicketCycleWord(m, n, ticket);
    OrCycleMask(m, w);
    CycleOrder(m, w.cycle, R.Cycle(n, ticket));
    XorRingSize(m, w.cycle);
    EncodeParts(m, w, R.Word(w.cycle, true, R.Vacant));
    EncodeParts(m, w, R.Word(w.cycle, false, R.Vacant));
  }

  /** head_cycle ^ ((~entry) & ring_size): a vacant word as safe as the entry. */
  lemma XorUnsafe(m: nat, cycle: int, safe: bool)
    requires Geometry(m)
    ensures Xor(CycleWord(m, cycle), if safe then 0 else Pow2(m)) == Encode(m, R.Word(cycle, safe, R.Vacant))
  {
    XorRingSize(m, cycle);
    XorZero(CycleWord(m, cycle));
  }

  lemma EntryFits(m: nat, w: R.Word)
    requires Geometry(m) && Fits(m, w)
    ensures Encode(m, w) < WORD && Pow2(m) < WORD
  {
    ClearSafe(m, w);
    UnsafeBit(m, w);
  }

  lemma JudgeHeld(m: nat, cycle: nat, attempts: nat, w: R.Word)
    requires Geometry(m) && Fits(m, w) && Near(m, w.cycle, cycle) && w.cycle != cycle && w.cell.Holds?
    ensures Encode(m, w) < WORD && Pow2(m) < WORD
    ensures JudgeWord(m, CycleWord(m, cycle), attempts, Encode(m, w))
         == if !w.safe || cycle < w.cycle then Abandon else Swap(Encode(m, w.(safe := false)), attempts)
  {
    EntryFits(m, w);
    OrCycleMask(m, w);
    CycleOrder(m, w.cycle, cycle);
    OrRingSize(m, w);
    EncodeParts(m, w.(safe := true), R.Word(w.cycle, true, R.Vacant));
    ClearSafe(m, w);
    EncodeParts(m, w, w.(safe := false));
  }

  lemma JudgeVacant(m: nat, cycle: nat, attempts: nat, w: R.Word)
    requires Geometry(m) && Fits(m, w) && Near(m, w.cycle, cycle) && w.cycle != cycle && w.cell.Vacant?
    ensures Encode(m, w) < WORD && Pow2(m) < WORD
    ensures JudgeWord(m, CycleWord(m, cycle), attempts, Encode(m, w))
         == if attempts + 1 <= R.CATCHUP_ATTEMPTS then Reload
            else if cycle < w.cycle then Abandon
            else Swap(Encode(m, R.Word(cycle, w.safe, R.Vacant)), attempts + 1)
  {
    EntryFits(m, w);
    OrCycleMask(m, w);
    CycleOrder(m, w.cycle, cycle);
    OrRingSize(m, w);
    UnsafeBit(m, w);
    XorUnsafe(m, cycle, w.safe);
  }

  lemma JudgeOwn(m: nat, cycle: nat, attempts: nat, w: R.Word)
    requires Geometry(m) && Fits(m, w) && w.cycle == cycle
    ensures Encode(m, w) < WORD && Pow2(m) < WORD
    ensures JudgeWord(m, CycleWord(m, cycle), attempts, Encode(m, w)) == Take
  {
    EntryFits(m, w);
    OrCycleMask(m, w);
  }

  /** The inner loop on packed words judges as it does on records, and swaps in the packed form of
      the same replacement. */
  lemma JudgeWordRefines(m: nat, n: nat, ticket: nat, attempts: nat, w: R.Word)
    requires Geometry(m) && n > 0 && Pow2(m) == 2 * n && Fits(m, w)
    requires Near(m, w.cycle, R.Cycle(n, ticket))
    ensures Encode(m, w) < WORD && Pow2(m) < WORD
    ensures JudgeWord(m, TicketCycle(m, ticket % WORD), attempts, Encode(m, w))
         == EncodeVerdict(m, R.Judge(n, ticket, attempts, w))
  {
    var cycle := R.Cycle(n, ticket);
    TicketCycleWord(m, n, ticket);
    if w.cycle == cycle {
      JudgeOwn(m, cycle, attempts, w);
    } else if w.cell.Holds? {
      JudgeHeld(m, cycle, attempts, w);
    } else {
      JudgeVacant(m, cycle, attempts, w);
    }
  }

  /** Initialisers: all ones is the vacant word of lap -1. */
  lemma UnusedWord(m: nat)
    requires Geometry(m)
    ensures Encode(m, R.UNUSED) == WORD - 1
  {
    RingTimesLaps(m);
    CycleWordValue(m, -1);
    Distribute(2 * Pow2(m), Pow2(63 - m), 1);
  }

  /** Initialisers: ring_size + index is the word of lap 0 that holds the index. */
  lemma FullWord(m: nat, index: nat)
    requires Geometry(m) && index < Pow2(m) - 1
    ensures Encode(m, R.Word(0, true, R.Holds(index))) == Pow2(m) + index
  {
    assert Encode(m, R.Word(0, true, R.Holds(index))) == Join(1, index, m);
    JoinValue(1, index, m);
  }
}
