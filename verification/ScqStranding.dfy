/** What too many dequeuers can do: runs after which every thread has returned, indices are in the
    ring, and a dequeue alone does not find them. */
module ScqStranding {
  import opened Wrappers
  import opened ScqRing
  import opened ScqSafety
  import opened ScqProgress
  import opened ScqDistance
  import opened ScqThreshold
  import opened ScqAlone

  function Last(run: seq<State>): State
    requires run != []
  {
    run[|run| - 1]
  }

  lemma Then(run: seq<State>, step: Step) returns (longer: seq<State>, e: State)
    requires IsRun(run) && Shape(Last(run)) && Enabled(Last(run), step)
    ensures IsRun(longer) && run <= longer && e == Last(longer) == Do(Last(run), step)
  {
    e := Do(Last(run), step);
    longer := run + [e];
    forall i: nat | i + 1 < |longer|
      ensures StepAt(longer, i)
    {
      if i + 1 < |run| {
        assert StepAt(run, i);
      } else {
        assert Next(Last(run), longer[i + 1]);
      }
    }
  }

  /** From this ticket on every slot is vacant, safe and of an older lap. */
  ghost predicate Fresh(s: State, from: nat)
    requires Shape(s)
  {
    forall k: nat | from <= k :: WordAt(s, k).safe && WordAt(s, k).cell.Vacant? && WordAt(s, k).cycle < Cycle(s.n, k)
  }

  lemma FreshStays(s: State, s': State, from: nat)
    requires Shape(s) && Fresh(s, from) && s'.words == s.words && s'.n == s.n
    ensures Fresh(s', from)
  {
    assert forall k: nat :: WordAt(s', k) == WordAt(s, k);
  }

  lemma FreshAfter(s: State, s': State, j: nat, w: Word)
    requires Shape(s) && Fresh(s, j) && Writes(s, s', j, w) && w.safe && w.cell.Vacant? && w.cycle == Cycle(s.n, j)
    ensures Fresh(s', j + 1)
  {
    WordsAfter(s, s', j, w);
    SameSlotAll(s.n, j);
  }

  /** The same for the tickets of a window. */
  ghost predicate FreshWithin(s: State, from: nat, to: nat)
    requires Shape(s)
  {
    forall k: nat | from <= k < to :: FreshWord(s, k)
  }

  predicate FreshWord(s: State, k: nat)
    requires Shape(s)
  {
    WordAt(s, k).safe && WordAt(s, k).cell.Vacant? && WordAt(s, k).cycle < Cycle(s.n, k)
  }

  lemma WindowAfter(s: State, s': State, j: nat, to: nat, w: Word)
    requires Shape(s) && FreshWithin(s, j, to) && to <= j + 2 * s.n && Writes(s, s', j, w)
    ensures FreshWithin(s', j + 1, to)
  {
    WordsAfter(s, s', j, w);
    forall k: nat | j + 1 <= k < to
      ensures FreshWord(s', k)
    {
      assert FreshWord(s, k);
      if Slot(s.n, j) == Slot(s.n, k) {
        LapApart(s.n, j, k);
      }
    }
  }

  // ---------------------------------------------------------------- one dequeuer abandons its ticket

  /** It loads the vacant word of its ticket until its patience ends. */
  lemma {:induction false} Reloads(run: seq<State>, t: nat, j: nat, attempts: nat, w: Word) returns (longer: seq<State>)
    requires IsRun(run) && Shape(Last(run)) && t < |Last(run).threads| && attempts <= CATCHUP_ATTEMPTS
    requires Last(run).threads[t] == DeqLoad(false, 1, j, attempts)
    requires WordAt(Last(run), j) == w && w.cell.Vacant? && w.cycle < Cycle(Last(run).n, j)
    ensures IsRun(longer) && run <= longer
    ensures Last(longer) == Goto(Last(run), t, DeqSwap(false, 1, j, CATCHUP_ATTEMPTS + 1, w, Word(Cycle(Last(run).n, j), w.safe, Vacant)))
    decreases CATCHUP_ATTEMPTS - attempts
  {
    var e;
    longer, e := Then(run, Advance(t));
    if attempts < CATCHUP_ATTEMPTS {
      assert e == Goto(Last(run), t, DeqLoad(false, 1, j, attempts + 1));
      longer := Reloads(longer, t, j, attempts + 1, w);
    } else {
      assert e == Goto(Last(run), t, DeqSwap(false, 1, j, attempts + 1, w, Word(Cycle(Last(run).n, j), w.safe, Vacant)));
    }
  }

  /** A ring with nothing ahead of head, and thread t about to draw a head ticket. */
  ghost predicate Bare(s: State, t: nat) {
    Shape(s) && t < |s.threads| && s.threads[t] == DeqTicket(false, 0) && s.head == s.tail && Fresh(s, s.head)
  }

  lemma DrawAndReload(run: seq<State>, t: nat) returns (longer: seq<State>, w: Word)
    requires IsRun(run) && Bare(Last(run), t)
    ensures IsRun(longer) && run <= longer
    ensures var s := Last(run);
            && w == WordAt(s, s.head)
            && Last(longer) == s.(head := s.head + 1, headOwner := s.headOwner + [t],
                                  threads := s.threads[t := DeqSwap(false, 1, s.head, CATCHUP_ATTEMPTS + 1, w, Word(Cycle(s.n, s.head), w.safe, Vacant))])
  {
    var s := Last(run);
    w := WordAt(s, s.head);
    var e;
    longer, e := Then(run, Advance(t));
    assert e == s.(head := s.head + 1, headOwner := s.headOwner + [t], threads := s.threads[t := DeqLoad(false, 1, s.head, 0)]);
    longer := Reloads(longer, t, s.head, 0, w);
  }

  /** It moves the word to its own lap and tail up to head, and stops before lowering the threshold. */
  lemma AbandonTicketAlone(run: seq<State>, t: nat) returns (longer: seq<State>)
    requires IsRun(run) && Bare(Last(run), t)
    ensures IsRun(longer) && run <= longer
    ensures var s, e := Last(run), Last(longer);
            && Shape(e) && e.n == s.n && e.threads == s.threads[t := DeqGiveUp]
            && e.head == e.tail == s.head + 1 && Fresh(e, e.head) && e.threshold == s.threshold
            && e.stored == s.stored && e.taken == s.taken
  {
    var s := Last(run);
    var r1, w := DrawAndReload(run, t);
    var s1 := Last(r1);
    var r2, s2 := Then(r1, Advance(t));
    FreshStays(s, s1, s.head);
    FreshAfter(s1, s2, s.head, Word(Cycle(s.n, s.head), w.safe, Vacant));
    longer := CatchUpAlone(r2, t, s.head);
    FreshStays(s2, Last(longer), s.head + 1);
  }

  lemma CatchUpAlone(run: seq<State>, t: nat, ticket: nat) returns (longer: seq<State>)
    requires IsRun(run) && Shape(Last(run)) && t < |Last(run).threads| && Last(run).threads[t] == DeqTail(1, ticket)
    requires Last(run).tail == ticket
    ensures IsRun(longer) && run <= longer && Last(longer) == Last(run).(threads := Last(run).threads[t := DeqGiveUp], tail := ticket + 1)
  {
    var s := Last(run);
    var r1, s1 := Then(run, Advance(t));
    assert s1 == Goto(s, t, CatchSwap(ticket, ticket + 1));
    var r2, s2 := Then(r1, Advance(t));
    longer := r2;
  }

  // ---------------------------------------------------------------- all of them

  /** The first i dequeuers are at a, the others at b, and the enqueuer comes last. */
  predicate Ranks(threads: seq<Local>, m: nat, i: nat, a: Local, b: Local, last: Local) {
    && i <= m && |threads| == m + 1 && threads[m] == last
    && (forall t | 0 <= t < i :: threads[t] == a)
    && (forall t | i <= t < m :: threads[t] == b)
  }

  /** Everything stored so far has been taken, and nothing is ahead of head. */
  ghost predicate Emptied(s: State, n: nat, head: nat, past: map<nat, nat>) {
    && Shape(s) && s.n == n && s.head == s.tail == head && Fresh(s, head)
    && s.stored == past && s.taken == past && s.threshold == InitialThreshold(n)
  }

  /** Every dequeuer passes the gate. */
  lemma {:induction false} GatesPassed(run: seq<State>, n: nat, head: nat, past: map<nat, nat>, i: nat, last: Local) returns (longer: seq<State>)
    requires IsRun(run) && Emptied(Last(run), n, head, past) && Ranks(Last(run).threads, 3 * n, i, DeqTicket(false, 0), Idle, last)
    ensures IsRun(longer) && run <= longer && Emptied(Last(longer), n, head, past)
    ensures Ranks(Last(longer).threads, 3 * n, 3 * n, DeqTicket(false, 0), Idle, last)
    decreases 3 * n - i
  {
    longer := run;
    if i < 3 * n {
      longer := GatePassed(run, n, head, past, i);
      longer := GatesPassed(longer, n, head, past, i + 1, last);
    }
  }

  lemma GatePassed(run: seq<State>, n: nat, head: nat, past: map<nat, nat>, i: nat) returns (longer: seq<State>)
    requires IsRun(run) && Emptied(Last(run), n, head, past) && i < |Last(run).threads| && Last(run).threads[i] == Idle
    ensures IsRun(longer) && run <= longer && Emptied(Last(longer), n, head, past)
    ensures Last(longer).threads == Last(run).threads[i := DeqTicket(false, 0)]
  {
    var s := Last(run);
    var r1, s1 := Then(run, StartDequeue(i, false));
    assert s1 == Goto(s, i, DeqGate);
    var r2, s2 := Then(r1, Advance(i));
    assert s2 == Goto(s, i, DeqTicket(false, 0));
    FreshStays(s, s2, head);
    longer := r2;
  }

  /** Every dequeuer abandons a ticket and stops before lowering the threshold. */
  lemma {:induction false} AllAbandon(run: seq<State>, n: nat, head: nat, past: map<nat, nat>, i: nat, last: Local) returns (longer: seq<State>)
    requires IsRun(run) && Emptied(Last(run), n, head + i, past) && Ranks(Last(run).threads, 3 * n, i, DeqGiveUp, DeqTicket(false, 0), last)
    ensures IsRun(longer) && run <= longer && Emptied(Last(longer), n, head + 3 * n, past)
    ensures Ranks(Last(longer).threads, 3 * n, 3 * n, DeqGiveUp, DeqTicket(false, 0), last)
    decreases 3 * n - i
  {
    longer := run;
    if i < 3 * n {
      longer := AbandonTicketAlone(run, i);
      longer := AllAbandon(longer, n, head, past, i + 1, last);
    }
  }

  /** Some indices 0, 1, ... are in the ring, at the tickets from head on. */
  ghost predicate Loaded(s: State, n: nat, head: nat, count: nat, past: map<nat, nat>, threshold: int) {
    && Shape(s) && s.n == n && s.head == head && s.tail == head + count && s.threshold == threshold && s.taken == past
    && (forall j: nat :: j in s.stored <==> j in past || head <= j < head + count)
    && (forall j | head <= j < head + count :: s.stored[j] == j - head)
  }

  /** Every dequeuer lowers the threshold and returns. */
  lemma {:induction false} AllGiveUp(run: seq<State>, n: nat, head: nat, count: nat, past: map<nat, nat>, i: nat) returns (longer: seq<State>)
    requires IsRun(run) && Loaded(Last(run), n, head, count, past, InitialThreshold(n) - i)
    requires Ranks(Last(run).threads, 3 * n, i, Done(None), DeqGiveUp, Done(None))
    ensures IsRun(longer) && run <= longer && Loaded(Last(longer), n, head, count, past, -1)
    ensures Ranks(Last(longer).threads, 3 * n, 3 * n, Done(None), DeqGiveUp, Done(None))
    decreases 3 * n - i
  {
    longer := run;
    if i < 3 * n {
      var s := Last(run);
      var e;
      longer, e := Then(run, Advance(i));
      assert e == Goto(s, i, Done(None)).(threshold := s.threshold - 1);
      longer := AllGiveUp(longer, n, head, count, past, i + 1);
    }
  }

  // ---------------------------------------------------------------- the enqueuer

  predicate Free(l: Local) {
    l.Idle? || l.Done?
  }

  lemma StoreOne(run: seq<State>, t: nat, index: nat) returns (longer: seq<State>)
    requires IsRun(run) && Shape(Last(run)) && t < |Last(run).threads| && Free(Last(run).threads[t])
    requires index < Last(run).n && FreshWord(Last(run), Last(run).tail)
    ensures IsRun(longer) && run <= longer
    ensures var s, e := Last(run), Last(longer);
            && Shape(e) && e.n == s.n && e.threads == s.threads[t := EnqThreshold]
            && e.head == s.head && e.tail == s.tail + 1 && e.threshold == s.threshold
            && e.words == s.words[Slot(s.n, s.tail) := Word(Cycle(s.n, s.tail), true, Holds(index))]
            && e.stored == s.stored[s.tail := index] && e.taken == s.taken
  {
    var s := Last(run);
    var w := WordAt(s, s.tail);
    var r1, s1 := Then(run, StartEnqueue(t, index, false));
    var r2, s2 := Then(r1, Advance(t));
    assert s2.threads == s.threads[t := EnqLoad(index, false, s.tail)] && s2.words == s.words;
    longer := StoreDrawn(r2, t, index, s.tail, w);
  }

  lemma StoreDrawn(run: seq<State>, t: nat, index: nat, k: nat, w: Word) returns (longer: seq<State>)
    requires IsRun(run) && Shape(Last(run)) && t < |Last(run).threads| && Last(run).threads[t] == EnqLoad(index, false, k)
    requires w == WordAt(Last(run), k) && FreshWord(Last(run), k)
    ensures IsRun(longer) && run <= longer
    ensures var s := Last(run);
            Last(longer) == s.(threads := s.threads[t := EnqThreshold], stored := s.stored[k := index], stores := s.stores + 1,
                               words := s.words[Slot(s.n, k) := Word(Cycle(s.n, k), true, Holds(index))])
  {
    var s := Last(run);
    var r1, s1 := Then(run, Advance(t));
    assert s1 == Goto(s, t, EnqSwap(index, false, k, w));
    var r2, s2 := Then(r1, Advance(t));
    longer := r2;
  }

  /** The threshold is full, so the enqueue leaves it. */
  lemma EnqueueOne(run: seq<State>, n: nat, head: nat, past: map<nat, nat>, i: nat, to: nat) returns (longer: seq<State>)
    requires IsRun(run) && Loaded(Last(run), n, head, i, past, InitialThreshold(n)) && i < n && head + i < to <= head + i + 2 * n
    requires Shape(Last(run)) && FreshWithin(Last(run), head + i, to)
    requires |Last(run).threads| == 3 * n + 1 && Free(Last(run).threads[3 * n])
    ensures IsRun(longer) && run <= longer && Loaded(Last(longer), n, head, i + 1, past, InitialThreshold(n))
    ensures Shape(Last(longer)) && FreshWithin(Last(longer), head + i + 1, to)
    ensures Last(longer).threads == Last(run).threads[3 * n := Done(None)]
  {
    var s := Last(run);
    assert FreshWord(s, s.tail);
    var r1 := StoreOne(run, 3 * n, i);
    var s1 := Last(r1);
    WindowAfter(s, s1, s.tail, to, Word(Cycle(s.n, s.tail), true, Holds(i)));
    var e;
    longer, e := Then(r1, Advance(3 * n));
    assert e == Goto(s1, 3 * n, Done(None));
    WindowStays(s1, e, head + i + 1, to);
  }

  lemma WindowStays(s: State, s': State, from: nat, to: nat)
    requires Shape(s) && FreshWithin(s, from, to) && s'.words == s.words && s'.n == s.n
    ensures FreshWithin(s', from, to)
  {
    forall k: nat | from <= k < to
      ensures FreshWord(s', k)
    {
      assert FreshWord(s, k) && WordAt(s', k) == WordAt(s, k);
    }
  }

  lemma {:induction false} EnqueueAll(run: seq<State>, n: nat, head: nat, past: map<nat, nat>, i: nat, count: nat, last: Local) returns (longer: seq<State>)
    requires IsRun(run) && Loaded(Last(run), n, head, i, past, InitialThreshold(n)) && i <= count <= n && n > 0
    requires Shape(Last(run)) && FreshWithin(Last(run), head + i, head + count)
    requires Ranks(Last(run).threads, 3 * n, 0, Done(None), DeqGiveUp, last) && last.Done? && (i == count ==> last == Done(None))
    ensures IsRun(longer) && run <= longer && Loaded(Last(longer), n, head, count, past, InitialThreshold(n))
    ensures Ranks(Last(longer).threads, 3 * n, 0, Done(None), DeqGiveUp, Done(None))
    decreases count - i
  {
    longer := run;
    if i < count {
      longer := EnqueueOne(run, n, head, past, i, head + count);
      longer := EnqueueAll(longer, n, head, past, i + 1, count, Done(None));
    }
  }

  // ---------------------------------------------------------------- from an emptied ring

  lemma EmptiedIsLoaded(s: State, n: nat, head: nat, past: map<nat, nat>, count: nat)
    requires Emptied(s, n, head, past)
    ensures Loaded(s, n, head, 0, past, InitialThreshold(n)) && FreshWithin(s, head, head + count)
  {
    forall k: nat | head <= k < head + count
      ensures FreshWord(s, k)
    {
      assert WordAt(s, k).safe && WordAt(s, k).cell.Vacant?;
    }
  }

  /** 3n dequeuers pass the gate and abandon a ticket, some indices are stored, the dequeuers lower
      the threshold and return, and another dequeue begins. */
  lemma Strand(run: seq<State>, n: nat, head: nat, past: map<nat, nat>, count: nat, last: Local) returns (longer: seq<State>)
    requires IsRun(run) && Emptied(Last(run), n, head, past) && 0 < count <= n && last.Done?
    requires Ranks(Last(run).threads, 3 * n, 0, DeqTicket(false, 0), Idle, last)
    ensures IsRun(longer) && run <= longer && Loaded(Last(longer), n, head + 3 * n, count, past, -1)
    ensures Ranks(Last(longer).threads, 3 * n, 3 * n, Done(None), DeqGiveUp, DeqGate)
  {
    var k := head + 3 * n;
    var r1 := GatesPassed(run, n, head, past, 0, last);
    var r2 := AllAbandon(r1, n, head, past, 0, last);
    EmptiedIsLoaded(Last(r2), n, k, past, count);
    var r3 := EnqueueAll(r2, n, k, past, 0, count, last);
    var r4 := AllGiveUp(r3, n, k, count, past, 0);
    var s;
    longer, s := Then(r4, StartDequeue(3 * n, false));
    assert s == Goto(Last(r4), 3 * n, DeqGate);
  }

  /** The last dequeue is refused at the gate. */
  lemma Refused(run: seq<State>, n: nat, head: nat, count: nat, past: map<nat, nat>) returns (steps: nat)
    requires n > 0 && IsRun(run) && Loaded(Last(run), n, head, count, past, -1) && count > 0
    requires Ranks(Last(run).threads, 3 * n, 3 * n, Done(None), DeqGiveUp, DeqGate)
    ensures Inv(Last(run)) && (forall j: nat :: j in Residents(Last(run)) <==> head <= j < head + count)
    ensures Solo(Last(run), 3 * n, steps).threads[3 * n] == Done(None)
  {
    StrandedResidents(run, n, head, count, past);
    steps := LoneDequeue(run, |run| - 1, 3 * n, Some(head));
  }

  lemma StrandedResidents(run: seq<State>, n: nat, head: nat, count: nat, past: map<nat, nat>)
    requires IsRun(run) && Loaded(Last(run), n, head, count, past, -1) && count > 0
    ensures forall j: nat :: j in Residents(Last(run)) <==> head <= j < head + count
    ensures FirstResident(Last(run), head)
  {
    RunKeepsInv(run, |run| - 1);
    OnlyResidents(Last(run), n, head, count, past);
  }

  lemma OnlyResidents(s: State, n: nat, head: nat, count: nat, past: map<nat, nat>)
    requires Inv(s) && Loaded(s, n, head, count, past, -1) && count > 0
    ensures forall j: nat :: j in Residents(s) <==> head <= j < head + count
    ensures FirstResident(s, head)
  {
    forall j | j in past
      ensures j < head
    {
      assert j in s.taken;
    }
    forall j: nat
      ensures j in Residents(s) <==> head <= j < head + count
    {
      assert j in s.stored <==> j in past || head <= j < head + count;
      assert j in s.taken <==> j in past;
    }
    assert head in Residents(s);
  }

  // ---------------------------------------------------------------- a ring that starts empty

  function EmptyRing(n: nat): State
    requires n > 0
  {
    State(n, seq(2 * n, _ => UNUSED), 0, 0, -1, seq(3 * n + 1, _ => Idle), map[], map[], {}, 0, 0, [], map[])
  }

  lemma EmptyIsFresh(n: nat)
    requires n > 0
    ensures InitEmpty(EmptyRing(n)) && FreshWord(EmptyRing(n), 0)
  {
  }

  /** The first enqueue raises the threshold. */
  lemma FirstStored(n: nat) returns (run: seq<State>)
    requires n > 0
    ensures IsRun(run)
    ensures var e := Last(run);
            && Shape(e) && e.n == n && e.head == 0 && e.tail == 1 && e.threshold == InitialThreshold(n)
            && Ranks(e.threads, 3 * n, 3 * n, Idle, Idle, Done(None))
            && e.words == EmptyRing(n).words[0 := Word(0, true, Holds(0))]
            && e.stored == map[0 := 0] && e.taken == map[]
  {
    var s := EmptyRing(n);
    EmptyIsFresh(n);
    run := [s];
    var e1, e2;
    run := StoreOne(run, 3 * n, 0);
    run, e1 := Then(run, Advance(3 * n));
    assert e1.threads == s.threads[3 * n := EnqReset];
    run, e2 := Then(run, Advance(3 * n));
    assert e2.threads == s.threads[3 * n := Done(None)];
  }

  /** The first dequeue takes it. */
  lemma FirstTaken(n: nat) returns (run: seq<State>)
    requires n > 0
    ensures IsRun(run) && Emptied(Last(run), n, 1, map[0 := 0])
    ensures Ranks(Last(run).threads, 3 * n, 0, DeqTicket(false, 0), Idle, Done(Some(0)))
  {
    run := FirstStored(n);
    var full := EmptyRing(n).words[0 := Word(0, true, Holds(0))];
    assert Last(run).words == full;
    run := TakeNext(run, n, 3 * n, 0);
    assert Last(run).words == full[0 := Word(0, true, Vacant)];
    VacantIsFresh(Last(run), n, 1);
  }

  /** A dequeue of one thread takes the index at the next ticket of the first lap. */
  lemma TakeNext(run: seq<State>, n: nat, t: nat, i: nat) returns (longer: seq<State>)
    requires IsRun(run) && Shape(Last(run)) && t < |Last(run).threads| && Free(Last(run).threads[t])
    requires Last(run).n == n && Last(run).head == i < n && Last(run).words[i] == Word(0, true, Holds(i)) && Last(run).threshold >= 0
    ensures IsRun(longer) && run <= longer
    ensures var s, e := Last(run), Last(longer);
            && Shape(e) && e.n == n && e.head == i + 1 && e.tail == s.tail && e.threshold == s.threshold
            && e.threads == s.threads[t := Done(Some(i))] && e.words == s.words[i := Word(0, true, Vacant)]
            && e.stored == s.stored && e.taken == s.taken[i := i]
  {
    var s := Last(run);
    var r1, s1 := Then(run, StartDequeue(t, false));
    assert s1 == Goto(s, t, DeqGate);
    var r2, s2 := Then(r1, Advance(t));
    assert s2 == Goto(s, t, DeqTicket(false, 0));
    longer := TakeDrawn(r2, n, t, i);
  }

  lemma TakeDrawn(run: seq<State>, n: nat, t: nat, i: nat) returns (longer: seq<State>)
    requires IsRun(run) && Shape(Last(run)) && t < |Last(run).threads| && Last(run).threads[t] == DeqTicket(false, 0)
    requires Last(run).n == n && Last(run).head == i < n && Last(run).words[i] == Word(0, true, Holds(i))
    ensures IsRun(longer) && run <= longer
    ensures var s, e := Last(run), Last(longer);
            && Shape(e) && e.n == n && e.head == i + 1 && e.tail == s.tail && e.threshold == s.threshold
            && e.threads == s.threads[t := Done(Some(i))] && e.words == s.words[i := Word(0, true, Vacant)]
            && e.stored == s.stored && e.taken == s.taken[i := i]
  {
    var s := Last(run);
    var r1, s1 := Then(run, Advance(t));
    assert s1.threads == s.threads[t := DeqLoad(false, 1, i, 0)];
    var r2, s2 := Then(r1, Advance(t));
    assert s2 == Goto(s1, t, DeqTake(i, Word(0, true, Holds(i))));
    var r3, s3 := Then(r2, Advance(t));
    longer := r3;
  }

  /** The words of the first lap are vacant up to head, and the others unused. */
  lemma VacantIsFresh(s: State, n: nat, head: nat)
    requires Shape(s) && s.n == n && head <= n
    requires forall j | 0 <= j < 2 * n :: s.words[j] == if j < head then Word(0, true, Vacant) else UNUSED
    ensures Fresh(s, head)
  {
    forall k: nat | head <= k
      ensures WordAt(s, k).safe && WordAt(s, k).cell.Vacant? && WordAt(s, k).cycle < Cycle(n, k)
    {
      if Slot(n, k) < head {
        SameSlot(n, Slot(n, k), k);
      }
    }
  }

  /** For every capacity n some run with 3n dequeuers leaves an index in the ring, with every thread
      back from its call, where a dequeue that then runs alone answers nullopt. */
  lemma IndexIsStranded(n: nat) returns (run: seq<State>, k: nat, steps: nat)
    requires n > 0
    ensures IsRun(run) && Inv(Last(run)) && Last(run).n == n && k in Residents(Last(run))
    ensures var s := Last(run);
            && |s.threads| == 3 * n + 1 && s.threads[3 * n] == DeqGate
            && (forall t | 0 <= t < 3 * n :: s.threads[t].Done?)
            && Solo(s, 3 * n, steps).threads[3 * n] == Done(None)
  {
    k := 1 + 3 * n;
    run := FirstTaken(n);
    run := Strand(run, n, 1, map[0 := 0], 1, Done(Some(0)));
    steps := Refused(run, n, k, 1, map[0 := 0]);
  }

  // ---------------------------------------------------------------- a ring that starts full

  function FullRing(n: nat): State
    requires n > 0
  {
    State(n, seq(2 * n, i requires 0 <= i => if i < n then Word(0, true, Holds(i)) else UNUSED), 0, n, InitialThreshold(n),
          seq(3 * n + 1, _ => Idle), Identity(n), map[], {}, n, 0, [], map[])
  }

  /** The first i of the indices have been taken. */
  ghost predicate PartlyTaken(s: State, n: nat, i: nat) {
    && Shape(s) && s.n == n && i <= n && s.head == i && s.tail == n && s.threshold == InitialThreshold(n)
    && s.stored == Identity(n) && s.taken == Identity(i)
    && forall j | 0 <= j < 2 * n ::
         s.words[j] == if j < i then Word(0, true, Vacant) else if j < n then Word(0, true, Holds(j)) else UNUSED
  }

  lemma {:induction false} TakeAll(run: seq<State>, n: nat, i: nat, last: Local) returns (longer: seq<State>, last': Local)
    requires IsRun(run) && PartlyTaken(Last(run), n, i) && Ranks(Last(run).threads, 3 * n, 0, DeqTicket(false, 0), Idle, last)
    requires Free(last) && (i == n ==> last.Done?)
    ensures IsRun(longer) && run <= longer && PartlyTaken(Last(longer), n, n) && last'.Done?
    ensures Ranks(Last(longer).threads, 3 * n, 0, DeqTicket(false, 0), Idle, last')
    decreases n - i
  {
    longer, last' := run, last;
    if i < n {
      longer := TakeNext(run, n, 3 * n, i);
      longer, last' := TakeAll(longer, n, i + 1, Done(Some(i)));
    }
  }

  /** For every capacity n some run of a ring that starts full ends, with every thread back from its
      call, with all n indices in the ring again, where a dequeue that then runs alone answers nullopt. */
  lemma FullIsStranded(n: nat) returns (run: seq<State>, steps: nat)
    requires n > 0
    ensures IsRun(run) && InitFull(run[0]) && Inv(Last(run)) && Last(run).n == n
    ensures var s := Last(run);
            && |s.threads| == 3 * n + 1 && s.threads[3 * n] == DeqGate
            && (forall t | 0 <= t < 3 * n :: s.threads[t].Done?)
            && (forall j: nat :: j in Residents(s) <==> s.head <= j < s.head + n)
            && (forall j | s.head <= j < s.head + n :: j in s.stored && s.stored[j] == j - s.head)
            && Solo(s, 3 * n, steps).threads[3 * n] == Done(None)
  {
    var s := FullRing(n);
    var r1, last := TakeAll([s], n, 0, Idle);
    VacantIsFresh(Last(r1), n, n);
    run := Strand(r1, n, n, Identity(n), n, last);
    steps := Refused(run, n, 4 * n, n, Identity(n));
  }
}
