/** The SCQ ring of packed 64-bit words, used by one operation at a time. */
module ScqSequential {
  import opened Wrappers
  import opened Bits
  import opened ScqWords
  import R = ScqRing
  import P = ScqProgress

  predicate RingOf(m: nat, n: nat) {
    Geometry(m) && n > 0 && Pow2(m) == 2 * n
  }

  /** The record in the slot of ticket k when the ring holds `contents` from ticket `head` on: the
      index stored there, or a vacant safe word of the lap before. */
  function Expected(n: nat, head: nat, contents: seq<nat>, k: nat): R.Word
    requires n > 0 && head <= k
  {
    if k - head < |contents| then R.Word(R.Cycle(n, k), true, R.Holds(contents[k - head]))
    else R.Word(R.Cycle(n, k) - 1, true, R.Vacant)
  }

  ghost predicate Shows(m: nat, n: nat, words: seq<nat>, head: nat, contents: seq<nat>)
    requires RingOf(m, n) && |words| == 2 * n
  {
    forall k: nat | head <= k < head + 2 * n ::
      words[R.Slot(n, k)] == Encode(m, Expected(n, head, contents, k))
  }

  /** `scalable_circular_index_queue` over wrapping words.  The ghost fields give the tickets
      without wrapping and the indices in the ring, oldest first. */
  class IndexRing {
    const capacity: nat
    const ringSize: nat
    const ringMask: nat
    const entries: array<nat>
    var head: nat
    var tail: nat
    var threshold: int

    ghost const bits: nat
    ghost var headTicket: nat
    ghost var contents: seq<nat>

    /** The sizes fit and the counters are the tickets, wrapped. */
    ghost predicate Counting()
      reads this
    {
      && RingOf(bits, capacity)
      && ringSize == 2 * capacity && ringMask == ringSize - 1 && entries.Length == ringSize
      && head == headTicket % WORD && tail == (headTicket + |contents|) % WORD
      && |contents| <= capacity
    }

    ghost predicate Valid()
      reads this, entries
    {
      && Counting()
      && (forall i | 0 <= i < |contents| :: contents[i] < capacity)
      && -1 <= threshold <= R.InitialThreshold(capacity)
      && (contents != [] ==> threshold == R.InitialThreshold(capacity))
      && Shows(bits, capacity, entries[..], headTicket, contents)
    }

    constructor Empty(capacity: nat, ghost bits: nat)
      requires RingOf(bits, capacity)
      ensures Valid() && fresh(entries) && this.capacity == capacity
      ensures contents == []
    {
      this.capacity := capacity;
      this.bits := bits;
      var size := 2 * capacity;
      var words := new nat[size];
      for index := 0 to size
        invariant forall j | 0 <= j < index :: words[j] == WORD - 1
      {
        words[index] := WORD - 1;
      }
      ringSize, ringMask, entries := size, size - 1, words;
      head, threshold, tail := 0, -1, 0;
      headTicket, contents := 0, [];
      new;
      UnusedWord(bits);
    }

    constructor Full(capacity: nat, ghost bits: nat)
      requires RingOf(bits, capacity)
      ensures Valid() && fresh(entries) && this.capacity == capacity
      ensures contents == seq(capacity, i => i)
    {
      this.capacity := capacity;
      this.bits := bits;
      var size := 2 * capacity;
      var words := new nat[size];
      for index := 0 to capacity
        invariant forall j | 0 <= j < index :: words[j] == size + j
      {
        words[index] := size + index;
      }
      for index := capacity to size
        invariant forall j | 0 <= j < capacity :: words[j] == size + j
        invariant forall j | capacity <= j < index :: words[j] == WORD - 1
      {
        words[index] := WORD - 1;
      }
      ringSize, ringMask, entries := size, size - 1, words;
      head, threshold, tail := 0, R.InitialThreshold(capacity), capacity;
      headTicket, contents := 0, seq(capacity, i => i);
      new;
      UnusedWord(bits);
      CapacityFits(bits, capacity);
      forall k: nat | k < ringSize
        ensures entries[..][R.Slot(capacity, k)] == Encode(bits, Expected(capacity, 0, contents, k))
      {
        if k < capacity {
          FullWord(bits, k);
        }
      }
    }

    /** `compare_exchange_weak` on an entry: it may fail for no reason. */
    method CompareExchange(slot: nat, expected: nat, desired: nat, spurious: bool) returns (ok: bool, observed: nat)
      requires slot < entries.Length
      modifies entries
      ensures ok == (old(entries[slot]) == expected && !spurious) && observed == old(entries[slot])
      ensures entries[..] == if ok then old(entries[..])[slot := desired] else old(entries[..])
    {
      observed := entries[slot];
      ok := observed == expected && !spurious;
      if ok {
        entries[slot] := desired;
      }
    }

    /** The test of `enqueue` on a loaded word. */
    predicate Reusable(entry: nat, ticket: nat, tailCycle: nat)
      requires ringSize > 0
      reads this
    {
      var entryCycle := Or(entry, 2 * ringSize - 1);
      && Before(entryCycle, tailCycle)
      && (entry == entryCycle || (entry == Xor(entryCycle, ringSize) && BeforeOrEqual(head, ticket)))
    }

    /** The inner loop of `enqueue` on a reusable word.  Nobody else writes the word, so it stays
        reusable, and the ticket is not given up. */
    method SwapIn(target: nat, ticket: nat, tailCycle: nat, word: nat, spurious: nat)
      requires ringSize > 0 && target < entries.Length && Reusable(entries[target], ticket, tailCycle)
      modifies entries
      ensures entries[..] == old(entries[..])[target := word]
    {
      var entry := entries[target];
      var failures: nat, swapped := spurious, false;
      while !swapped
        invariant !swapped ==> entries[..] == old(entries[..]) && entry == entries[target]
        invariant swapped ==> entries[..] == old(entries[..])[target := word]
        decreases failures, !swapped
      {
        assert Reusable(entry, ticket, tailCycle);
        swapped, entry := CompareExchange(target, entry, word, failures > 0);
        failures := if failures > 0 then failures - 1 else 0;
      }
    }

    /** Draws a tail ticket: the slot it is mapped to, its cycle, and the word that stores the index there. */
    method DrawTail(index: nat) returns (ticket: nat, target: nat, tailCycle: nat, word: nat)
      requires Counting() && index < capacity && |contents| < capacity
      modifies this`tail
      ensures tail == (headTicket + |contents| + 1) % WORD
      ensures var k := headTicket + |contents|;
              && ticket == k % WORD && target == R.Slot(capacity, k)
              && tailCycle == TicketCycle(bits, ticket)
              && word == Encode(bits, R.Word(R.Cycle(capacity, k), true, R.Holds(index)))
    {
      ghost var k := headTicket + |contents|;
      MapTicket(bits, capacity, k);
      EnqueueWrites(bits, capacity, k, index);
      NextTicketWord(k);
      assert tail == k % WORD && 2 * ringSize - 1 == CycleMask(bits) && ringMask == Pow2(bits) - 1;
      ticket := tail;
      tail := (tail + 1) % WORD;
      tailCycle := Or(ShiftLeft1(ticket), 2 * ringSize - 1);
      target := And(ticket, ringMask);
      word := Xor(tailCycle, Xor(index, ringMask));
    }

    /** The vacant word of the lap before passes the test. */
    lemma VacantIsReusable(k: nat, entry: nat)
      requires RingOf(bits, capacity) && ringSize == 2 * capacity
      requires entry == Encode(bits, R.Word(R.Cycle(capacity, k) - 1, true, R.Vacant))
      ensures Reusable(entry, k % WORD, TicketCycle(bits, k % WORD))
    {
      EnqueueMeets(bits, capacity, k);
    }

    /** Draws the next tail ticket, which is never given up, and stores the index in its slot. */
    method Store(index: nat, spurious: nat)
      requires Counting() && index < capacity && |contents| < capacity
      requires var k := headTicket + |contents|;
               entries[R.Slot(capacity, k)] == Encode(bits, R.Word(R.Cycle(capacity, k) - 1, true, R.Vacant))
      modifies this`tail, entries
      ensures tail == (headTicket + |contents| + 1) % WORD
      ensures var k := headTicket + |contents|;
              entries[..] == old(entries[..])[R.Slot(capacity, k) := Encode(bits, R.Word(R.Cycle(capacity, k), true, R.Holds(index)))]
    {
      VacantIsReusable(headTicket + |contents|, entries[R.Slot(capacity, headTicket + |contents|)]);
      var ticket, target, tailCycle, word := DrawTail(index);
      SwapIn(target, ticket, tailCycle, word, spurious);
    }

    /** The end of `enqueue`. */
    method RaiseThreshold(knownNonempty: bool)
      modifies this`threshold
      ensures threshold == if knownNonempty then old(threshold) else R.InitialThreshold(capacity)
    {
      if !knownNonempty && threshold != R.InitialThreshold(capacity) {
        threshold := R.InitialThreshold(capacity);
      }
    }

    /** Appends an index, after any number of spurious failures of the exchange. */
    method Enqueue(index: nat, knownNonempty: bool, spurious: nat)
      requires Valid() && index < capacity && |contents| < capacity
      requires knownNonempty ==> contents != []
      modifies this, entries
      ensures Valid() && contents == old(contents) + [index] && headTicket == old(headTicket)
    {
      AppendShows(bits, capacity, entries[..], headTicket, contents, index);
      Store(index, spurious);
      RaiseThreshold(knownNonempty);
      ghost var before := |contents|;
      contents := contents + [index];
      assert |contents| == before + 1 && tail == (headTicket + |contents|) % WORD;
    }

    /** Draws a head ticket: the slot it is mapped to and its cycle. */
    method DrawHead() returns (ticket: nat, target: nat, headCycle: nat)
      requires Counting()
      modifies this`head
      ensures head == (headTicket + 1) % WORD
      ensures ticket == headTicket % WORD && target == R.Slot(capacity, headTicket)
      ensures headCycle == CycleWord(bits, R.Cycle(capacity, headTicket))
    {
      MapTicket(bits, capacity, headTicket);
      TicketCycleWord(bits, capacity, headTicket);
      NextTicketWord(headTicket);
      assert head == headTicket % WORD && 2 * ringSize - 1 == CycleMask(bits) && ringMask == Pow2(bits) - 1;
      ticket := head;
      head := (head + 1) % WORD;
      headCycle := Or(ShiftLeft1(ticket), 2 * ringSize - 1);
      target := And(ticket, ringMask);
    }

    /** The inner loop of `try_dequeue` on the word of an index or on a vacant word of the lap
        before: it takes the index, or it waits for one and then moves the word to its own lap. */
    method Visit(target: nat, headCycle: nat, spurious: nat, ghost cycle: int, ghost index: Option<nat>)
      returns (result: Option<nat>)
      requires RingOf(bits, capacity) && ringSize == 2 * capacity && ringMask == ringSize - 1
      requires target < entries.Length && headCycle == CycleWord(bits, cycle) && cycle >= 0
      requires index.Some? ==> index.value < capacity
      requires index.Some? ==> entries[target] == Encode(bits, R.Word(cycle, true, R.Holds(index.value)))
      requires index.None? ==> entries[target] == Encode(bits, R.Word(cycle - 1, true, R.Vacant))
      modifies entries
      ensures result == index
      ensures entries[..] == old(entries[..])[target := Encode(bits, R.Word(cycle, true, R.Vacant))]
    {
      var attempts: nat := 0;
      var entry := entries[target];
      var failures: nat := spurious;
      VisitWords(bits, capacity, cycle, index);
      while true
        invariant entries[..] == old(entries[..]) && entry == entries[target]
        decreases failures, R.CATCHUP_ATTEMPTS - attempts
      {
        var entryCycle := Or(entry, 2 * ringSize - 1);
        if entryCycle == headCycle {
          entries[target] := Or(entries[target], ringMask);
          return Some(And(entry, ringMask));
        }
        // One operation at a time leaves no word of an older lap occupied.
        assert Or(entry, ringSize) == entryCycle;
        attempts := attempts + 1;
        if attempts <= R.CATCHUP_ATTEMPTS {
          entry := entries[target];
          continue;
        }
        var replacement := Xor(headCycle, And(Not(entry), ringSize));
        if !Before(entryCycle, headCycle) {
          break;
        }
        var ok;
        ok, entry := CompareExchange(target, entry, replacement, failures > 0);
        if ok {
          break;
        }
        failures := failures - 1;
      }
      return None;
    }
  
    /** `catch_up`: moves tail to head, after any number of spurious failures. */
    method CatchUp(seenTail: nat, target: nat, spurious: nat)
      requires seenTail == tail && target == head && Before(tail, head)
      modifies this`tail
      ensures tail == head
    {
      var expected, desired := seenTail, target;
      var failures: nat := spurious;
      while failures > 0
        invariant expected == tail == old(tail) && desired == head
      {
        failures := failures - 1;
        desired := head;
        expected := tail;
        // Nobody else moves tail, so it is still behind head.
        assert Before(expected, desired);
      }
      tail := desired;
    }

    /** The end of a `try_dequeue` that found nothing at the ticket k. */
    method AnswerEmpty(ticket: nat, spurious: nat, ghost k: nat)
      requires ticket == tail == k % WORD && head == (k + 1) % WORD
      modifies this`tail, this`threshold
      ensures tail == head && threshold == old(threshold) - 1
    {
      TicketOrder(k, k + 1);
      NextTicketWord(k);
      assert BeforeOrEqual(tail, (ticket + 1) % WORD);
      CatchUp(tail, (ticket + 1) % WORD, spurious);
      threshold := threshold - 1;
    }

    /** Draws the next head ticket and visits its word, which holds the oldest index, if any. */
    method VisitNext(spurious: nat) returns (ticket: nat, result: Option<nat>)
      requires Counting() && (contents != [] ==> contents[0] < capacity)
      requires entries[R.Slot(capacity, headTicket)] == Encode(bits, Expected(capacity, headTicket, contents, headTicket))
      modifies this`head, entries
      ensures head == (headTicket + 1) % WORD && ticket == headTicket % WORD
      ensures result == if contents == [] then None else Some(contents[0])
      ensures entries[..] == old(entries[..])[R.Slot(capacity, headTicket) := Encode(bits, R.Word(R.Cycle(capacity, headTicket), true, R.Vacant))]
    {
      var target, headCycle;
      ticket, target, headCycle := DrawHead();
      result := Visit(target, headCycle, spurious, R.Cycle(capacity, headTicket), if contents == [] then None else Some(contents[0]));
    }

    /** Removes the oldest index.  The answer is None exactly when the ring is empty. */
    method TryDequeue(knownNonempty: bool, spurious: nat) returns (result: Option<nat>)
      requires Valid() && (knownNonempty ==> contents != [])
      modifies this, entries
      ensures Valid()
      ensures result == if old(contents) == [] then None else Some(old(contents)[0])
      ensures contents == if old(contents) == [] then [] else old(contents)[1..]
    {
      if !knownNonempty && threshold < 0 {
        return None;
      }
      ghost var k := headTicket;
      assert entries[..][R.Slot(capacity, k)] == Encode(bits, Expected(capacity, k, contents, k));
      HeadShows(bits, capacity, entries[..], headTicket, contents);
      var ticket;
      ticket, result := VisitNext(spurious);
      headTicket := k + 1;
      if result.Some? {
        contents := contents[1..];
        return;
      }
      AnswerEmpty(ticket, spurious, k);
    }
  }

  /** Passing the head ticket: its slot is ready for the ticket one lap later. */
  lemma HeadShows(m: nat, n: nat, words: seq<nat>, head: nat, contents: seq<nat>)
    requires RingOf(m, n) && |words| == 2 * n && Shows(m, n, words, head, contents) && |contents| <= 2 * n
    ensures var words' := words[R.Slot(n, head) := Encode(m, R.Word(R.Cycle(n, head), true, R.Vacant))];
            Shows(m, n, words', head + 1, if contents == [] then [] else contents[1..])
  {
    SlotsDiffer(n, head, head);
    NextLap(n, head);
    var contents' := if contents == [] then [] else contents[1..];
    var words' := words[R.Slot(n, head) := Encode(m, R.Word(R.Cycle(n, head), true, R.Vacant))];
    forall k: nat | head + 1 <= k < head + 1 + 2 * n
      ensures words'[R.Slot(n, k)] == Encode(m, Expected(n, head + 1, contents', k))
    {
      if k < head + 2 * n {
        assert Expected(n, head + 1, contents', k) == Expected(n, head, contents, k);
      } else {
        assert k == head + 2 * n && k - (head + 1) >= |contents'|;
      }
    }
  }

  lemma NextLap(n: nat, k: nat)
    requires n > 0
    ensures R.Slot(n, k + 2 * n) == R.Slot(n, k) && R.Cycle(n, k + 2 * n) == R.Cycle(n, k) + 1
  {
  }

  /** The words a dequeue of the given lap meets and writes. */
  lemma VisitWords(m: nat, n: nat, cycle: int, index: Option<nat>)
    requires RingOf(m, n) && cycle >= 0
    ensures index.Some? && index.value < n ==>
              var entry := Encode(m, R.Word(cycle, true, R.Holds(index.value)));
              && Or(entry, CycleMask(m)) == CycleWord(m, cycle)
              && Or(entry, Pow2(m) - 1) == CycleWord(m, cycle)
              && And(entry, Pow2(m) - 1) == index.value
    ensures var entry := Encode(m, R.Word(cycle - 1, true, R.Vacant));
            && entry < WORD && Or(entry, CycleMask(m)) == entry != CycleWord(m, cycle)
            && Or(entry, Pow2(m)) == entry && Before(entry, CycleWord(m, cycle))
            && Xor(CycleWord(m, cycle), And(Not(entry), Pow2(m))) == CycleWord(m, cycle)
  {
    if index.Some? && index.value < n {
      var w := R.Word(cycle, true, R.Holds(index.value));
      OrCycleMask(m, w);
      OrRingMask(m, w);
      AndRingMask(m, w);
    }
    var v := R.Word(cycle - 1, true, R.Vacant);
    OrCycleMask(m, v);
    OrRingSize(m, v);
    UnsafeBit(m, v);
    CycleOrder(m, cycle - 1, cycle);
    XorZero(CycleWord(m, cycle));
  }

  lemma NextTicketWord(k: nat)
    ensures (k % WORD + 1) % WORD == (k + 1) % WORD
  {
  }

  lemma CapacityFits(bits: nat, capacity: nat)
    requires Geometry(bits) && Pow2(bits) == 2 * capacity
    ensures 2 * capacity <= 0x4000_0000_0000_0000
  {
    RingTimesLaps(bits);
    TwoLaps(Pow2(bits), Pow2(62 - bits));
  }

  lemma TwoLaps(p: nat, q: nat)
    requires q > 0
    ensures p <= p * q
  {
  }

  /** Within one lap every ticket has a slot of its own. */
  lemma SlotsDiffer(n: nat, from: nat, k: nat)
    requires n > 0 && from <= k < from + 2 * n
    ensures forall j: nat | from <= j < from + 2 * n :: R.Slot(n, j) == R.Slot(n, k) ==> j == k
  {
    forall j: nat | from <= j < from + 2 * n && R.Slot(n, j) == R.Slot(n, k)
      ensures j == k
    {
      if j < k {
        P.LapApart(n, j, k);
      } else if k < j {
        P.LapApart(n, k, j);
      }
    }
  }

  lemma AppendShows(m: nat, n: nat, words: seq<nat>, head: nat, contents: seq<nat>, index: nat)
    requires RingOf(m, n) && |words| == 2 * n && Shows(m, n, words, head, contents) && |contents| < 2 * n
    ensures var k := head + |contents|;
            && words[R.Slot(n, k)] == Encode(m, R.Word(R.Cycle(n, k) - 1, true, R.Vacant))
            && Shows(m, n, words[R.Slot(n, k) := Encode(m, R.Word(R.Cycle(n, k), true, R.Holds(index)))],
                     head, contents + [index])
  {
    SlotsDiffer(n, head, head + |contents|);
  }

  /** The vacant word that an enqueue at ticket k meets. */
  lemma EnqueueMeets(m: nat, n: nat, k: nat)
    requires RingOf(m, n)
    ensures And(k % WORD, Pow2(m) - 1) == R.Slot(n, k)
    ensures var entry := Encode(m, R.Word(R.Cycle(n, k) - 1, true, R.Vacant));
            Or(entry, CycleMask(m)) == entry && Before(entry, TicketCycle(m, k % WORD))
  {
    var c: int := R.Cycle(n, k);
    MapTicket(m, n, k);
    TicketCycleWord(m, n, k);
    OrCycleMask(m, R.Word(c - 1, true, R.Vacant));
    assert Encode(m, R.Word(c - 1, true, R.Vacant)) == CycleWord(m, c - 1);
    CycleOrder(m, c - 1, c);
  }

  /** The word that it writes. */
  lemma EnqueueWrites(m: nat, n: nat, k: nat, index: nat)
    requires RingOf(m, n) && index < n
    ensures Xor(TicketCycle(m, k % WORD), Xor(index, Pow2(m) - 1))
         == Encode(m, R.Word(R.Cycle(n, k), true, R.Holds(index)))
  {
    TicketCycleWord(m, n, k);
    XorIndex(m, R.Cycle(n, k), index);
  }
}
