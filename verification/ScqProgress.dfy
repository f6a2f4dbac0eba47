/** Progress of the SCQ ring: an operation that runs alone ends, within a number of tickets that
    is known beforehand, and no dequeue draws more than 3n tickets between two threshold resets. */
module ScqProgress {
  import opened Wrappers
  import opened ScqRing
  import opened ScqSafety

  // ---------------------------------------------------------------- running alone

  predicate Busy(s: State, t: nat) {
    t < |s.threads| && !s.threads[t].Idle? && !s.threads[t].Done?
  }

  /** Up to k steps of thread t and of no other thread, without spurious failures. */
  ghost function Solo(s: State, t: nat, k: nat): (s': State)
    requires Inv(s) && t < |s.threads|
    ensures Inv(s') && |s'.threads| == |s.threads| && s'.n == s.n
    decreases k
  {
    if k == 0 || !Busy(s, t) then s
    else
      AdvanceKeeps(s, t);
      Solo(DoAdvance(s, t), t, k - 1)
  }

  // ---------------------------------------------------------------- a ticket with a usable slot

  /** Distinct tickets of one slot are at least a lap apart. */
  lemma {:induction false} LapApart(n: nat, a: nat, b: nat)
    requires n > 0 && a < b && Slot(n, a) == Slot(n, b)
    ensures a + 2 * n <= b
    decreases b
  {
    if a >= 2 * n {
      LapApart(n, a - 2 * n, b - 2 * n);
    }
  }

  /** The ticket of a slot on a given lap. */
  function TicketOf(n: nat, cycle: nat, slot: nat): (ticket: nat)
    requires n > 0 && slot < 2 * n
    ensures Cycle(n, ticket) == cycle && Slot(n, ticket) == slot
  {
    if cycle == 0 then slot else TicketOf(n, cycle - 1, slot) + 2 * n
  }

  /** The words have not run ahead of head and tail. */
  lemma CycleBehind(s: State, ticket: nat)
    requires Inv(s) && s.head <= ticket && s.tail <= ticket
    ensures WordAt(s, ticket).cycle < Cycle(s.n, ticket)
  {
    var w := WordAt(s, ticket);
    if w.cycle >= 0 {
      var k := TicketOf(s.n, w.cycle, Slot(s.n, ticket));
      assert WordAt(s, k) == w;
      SameSlot(s.n, k, ticket);
    }
  }

  /** The ticket whose index occupies the slot of the given ticket. */
  ghost function Occupant(s: State, ticket: nat): (k: nat)
    requires Inv(s) && WordAt(s, ticket).cell.Holds?
    ensures Slot(s.n, k) == Slot(s.n, ticket) && k in s.stored && k !in s.taken
  {
    var k := TicketOf(s.n, WordAt(s, ticket).cycle, Slot(s.n, ticket));
    assert WordAt(s, k) == WordAt(s, ticket);
    k
  }

  ghost predicate AllHeld(s: State, from: nat, count: nat)
    requires Shape(s)
  {
    forall k: nat | from <= k < from + count :: WordAt(s, k).cell.Holds?
  }

  predicate SlotWithin(n: nat, k: nat, from: nat, count: nat)
    requires n > 0
  {
    exists j | from <= j < from + count :: Slot(n, j) == Slot(n, k)
  }

  /** Tickets in a row that are all mapped to occupied words have as many occupants. */
  lemma {:induction false} Occupants(s: State, from: nat, count: nat) returns (ks: set<nat>)
    requires Inv(s) && count <= 2 * s.n && AllHeld(s, from, count)
    ensures ks <= s.stored.Keys - s.taken.Keys && |ks| == count
    ensures forall k | k in ks :: SlotWithin(s.n, k, from, count)
  {
    if count == 0 {
      ks := {};
    } else {
      var rest := Occupants(s, from, count - 1);
      var last := from + count - 1;
      var k := Occupant(s, last);
      forall r | r in rest
        ensures r != k && SlotWithin(s.n, r, from, count)
      {
        var j :| from <= j < last && Slot(s.n, j) == Slot(s.n, r);
        if Slot(s.n, j) == Slot(s.n, last) {
          LapApart(s.n, j, last);
        }
      }
      assert Slot(s.n, last) == Slot(s.n, k);
      ks := rest + {k};
    }
  }

  /** Pigeonhole: of more tickets in a row than there are indices in the ring, one is mapped to a
      vacant word. */
  lemma VacantTicket(s: State, from: nat, count: nat) returns (free: nat)
    requires Inv(s) && s.stores - s.deliveries < count <= 2 * s.n
    ensures from <= free < from + count && WordAt(s, free).cell.Vacant?
  {
    if AllHeld(s, from, count) {
      var ks := Occupants(s, from, count);
      ResidentsFit(s, ks);
      free := from;
    } else {
      free :| from <= free < from + count && WordAt(s, free).cell.Vacant?;
    }
  }

  lemma ResidentsFit(s: State, ks: set<nat>)
    requires Inv(s) && ks <= s.stored.Keys - s.taken.Keys
    ensures |ks| <= s.stores - s.deliveries
  {
    assert s.stored.Keys == s.taken.Keys + (s.stored.Keys - s.taken.Keys);
    assert |s.stored.Keys| == |s.stored| && |s.taken.Keys| == |s.taken|;
    Subset(ks, s.stored.Keys - s.taken.Keys);
  }

  lemma {:induction false} Subset<T>(a: set<T>, b: set<T>)
    requires a <= b
    ensures |a| <= |b|
  {
    assert b == a + (b - a);
  }

  // ---------------------------------------------------------------- an enqueue alone

  /** Whether a compare-exchange of a thread would fail. */
  predicate Stale(s: State, l: Local)
    requires Shape(s)
  {
    (l.EnqHead? || l.EnqSwap? || l.DeqSwap?) && WordAt(s, l.ticket) != l.entry
  }

  /** Ticket `free` will do for the enqueuer t: it is ahead of head, its word is vacant and it is
      either still to be drawn or the one that t has just drawn. */
  ghost predicate WithinReach(s: State, t: nat, free: nat)
    requires Shape(s) && t < |s.threads|
  {
    && HasIndex(s.threads[t])
    && s.head <= free && WordAt(s, free).cell.Vacant? && WordAt(s, free).cycle < Cycle(s.n, free)
    && (s.tail <= free || (s.tail == free + 1 && HoldsTail(s.threads[t]) && s.threads[t].ticket == free
                           && !Stale(s, s.threads[t])))
  }

  /** The steps an enqueuer alone still needs to store its index, given a ticket that will do. */
  ghost function EnqueueWork(s: State, t: nat, free: nat): nat
    requires Shape(s) && t < |s.threads| && WithinReach(s, t, free)
  {
    var l := s.threads[t];
    6 * (free + 1 - s.tail)
    + if l.EnqLoad? then 5
      else if l.EnqHead? then (if Stale(s, l) then 4 else 2)
      else if l.EnqSwap? then (if Stale(s, l) then 3 else 1)
      else 0
  }

  predicate Succeeds(s: State, l: Local)
    requires Shape(s)
  {
    l.EnqSwap? && !Stale(s, l)
  }

  lemma EnqueueFrame(s: State, s': State, t: nat)
    requires Shape(s) && t < |s.threads| && HasIndex(s.threads[t]) && !Succeeds(s, s.threads[t])
    requires s' == DoEnqueue(s, t)
    ensures s'.words == s.words && s'.n == s.n && |s'.threads| == |s.threads|
    ensures s'.stored == s.stored && s'.stores == s.stores && s'.taken == s.taken && s'.deliveries == s.deliveries
    ensures s.tail <= s'.tail
    ensures HasIndex(s'.threads[t]) && s'.threads[t].index == s.threads[t].index
  {
  }

  lemma EnqueueReach(s: State, s': State, t: nat, free: nat)
    requires Shape(s) && t < |s.threads| && WithinReach(s, t, free) && !Succeeds(s, s.threads[t])
    requires s' == DoEnqueue(s, t)
    ensures Shape(s') && t < |s'.threads| && WithinReach(s', t, free)
  {
    EnqueueFrame(s, s', t);
  }

  lemma EnqueueLess(s: State, s': State, t: nat, free: nat)
    requires Shape(s) && t < |s.threads| && WithinReach(s, t, free) && !Succeeds(s, s.threads[t])
    requires s' == DoEnqueue(s, t)
    requires Shape(s') && t < |s'.threads| && WithinReach(s', t, free)
    ensures EnqueueWork(s', t, free) < EnqueueWork(s, t, free)
  {
    EnqueueFrame(s, s', t);
  }

  /** The state in which an enqueuer that ran alone has stored its index. */
  ghost predicate StoredAt(s: State, e: State, index: nat, ticket: nat) {
    && e.stored == s.stored[ticket := index] && e.stores == s.stores + 1
    && ticket !in s.stored && ticket < e.tail
    && e.taken == s.taken && e.deliveries == s.deliveries
  }

  lemma SuccessStores(s: State, s': State, t: nat)
    requires Inv(s) && t < |s.threads| && Succeeds(s, s.threads[t]) && s' == DoEnqueue(s, t)
    ensures |s'.threads| == |s.threads| && s'.tail == s.tail
    ensures s'.threads[t].Done? || s'.threads[t].EnqThreshold?
    ensures StoredAt(s, s', s.threads[t].index, s.threads[t].ticket)
  {
  }

  lemma SoloStep(s: State, s': State, t: nat, k: nat)
    requires Inv(s) && Busy(s, t) && s' == DoAdvance(s, t) && Inv(s') && |s'.threads| == |s.threads|
    ensures Solo(s, t, k + 1) == Solo(s', t, k)
  {
  }

  lemma EnqueueStepAlone(s: State, t: nat, free: nat) returns (s': State)
    requires Inv(s) && t < |s.threads| && WithinReach(s, t, free) && !Succeeds(s, s.threads[t])
    ensures Busy(s, t) && s' == DoAdvance(s, t) && Inv(s') && |s'.threads| == |s.threads|
    ensures WithinReach(s', t, free) && EnqueueWork(s', t, free) < EnqueueWork(s, t, free)
    ensures s'.threads[t].index == s.threads[t].index && s.tail <= s'.tail
    ensures s'.stored == s.stored && s'.stores == s.stores && s'.taken == s.taken && s'.deliveries == s.deliveries
    ensures forall k: nat :: Solo(s, t, k + 1) == Solo(s', t, k)
  {
    EnqueueKeeps(s, t);
    s' := DoEnqueue(s, t);
    forall k: nat
      ensures Solo(s, t, k + 1) == Solo(s', t, k)
    {
      SoloStep(s, s', t, k);
    }
    EnqueueFrame(s, s', t);
    EnqueueReach(s, s', t, free);
    EnqueueLess(s, s', t, free);
  }

  lemma EnqueueLastStep(s: State, t: nat) returns (s': State)
    requires Inv(s) && t < |s.threads| && Succeeds(s, s.threads[t])
    ensures s' == Solo(s, t, 1) && |s'.threads| == |s.threads| && s'.tail == s.tail
    ensures s'.threads[t].Done? || s'.threads[t].EnqThreshold?
    ensures StoredAt(s, s', s.threads[t].index, s.threads[t].ticket)
  {
    EnqueueKeeps(s, t);
    s' := DoEnqueue(s, t);
    SuccessStores(s, s', t);
    SoloStep(s, s', t, 0);
  }

  lemma {:induction false} EnqueueAloneStores(s: State, t: nat, free: nat) returns (k: nat, ticket: nat, e: State)
    requires Inv(s) && t < |s.threads| && WithinReach(s, t, free)
    ensures k <= EnqueueWork(s, t, free) + 1 && e == Solo(s, t, k)
    ensures e.threads[t].Done? || e.threads[t].EnqThreshold?
    ensures StoredAt(s, e, s.threads[t].index, ticket)
    ensures s.tail <= e.tail <= free + 1
    decreases EnqueueWork(s, t, free)
  {
    if Succeeds(s, s.threads[t]) {
      e := EnqueueLastStep(s, t);
      k, ticket := 1, s.threads[t].ticket;
    } else {
      var s' := EnqueueStepAlone(s, t, free);
      k, ticket, e := EnqueueAloneStores(s', t, free);
      k := k + 1;
    }
  }

  function Max(a: int, b: int): int {
    if a < b then b else a
  }

  /** From any reachable state with fewer than n indices in the ring, an enqueue running alone
      stores its index, and it draws at most n tickets beyond those head is ahead of tail. */
  lemma EnqueueAlone(run: seq<State>, i: nat, t: nat) returns (k: nat, ticket: nat, e: State)
    requires IsRun(run) && i < |run| && t < |run[i].threads| && HasIndex(run[i].threads[t])
    requires run[i].stores - run[i].deliveries < run[i].n
    ensures Inv(run[i]) && e == Solo(run[i], t, k)
    ensures StoredAt(run[i], e, run[i].threads[t].index, ticket)
    ensures e.threads[t].Done? || e.threads[t].EnqThreshold?
    ensures e.tail - run[i].tail <= Max(run[i].head - run[i].tail, 0) + run[i].n
    ensures k <= 6 * (Max(run[i].head - run[i].tail, 0) + run[i].n + 1)
  {
    var s := run[i];
    RunKeepsInv(run, i);
    var from := Max(s.head, s.tail);
    var free := VacantTicket(s, from, s.n);
    CycleBehind(s, free);
    k, ticket, e := EnqueueAloneStores(s, t, free);
  }

  // ---------------------------------------------------------------- a dequeue alone

  /** The points of a `try_dequeue(false)`. */
  predicate Dequeuing(l: Local) {
    || l.DeqGate? || l.DeqTake? || l.DeqTail? || l.DeqGiveUp? || l.DeqSpend?
    || l.CatchSwap? || l.CatchHead? || l.CatchTail?
    || ((l.DeqTicket? || l.DeqLoad? || l.DeqSwap?) && !l.known)
  }

  /** Reloads of a vacant word that are still possible with one ticket. */
  function Patience(attempts: nat): nat {
    if attempts <= CATCHUP_ATTEMPTS then CATCHUP_ATTEMPTS + 1 - attempts else 0
  }

  /** Tickets the threshold still allows. */
  function Allowance(s: State): nat {
    if s.threshold < 0 then 0 else s.threshold
  }

  /** The steps a dequeuer alone still spends on its ticket. */
  function DequeueWork(s: State, t: nat): nat
    requires Shape(s) && t < |s.threads|
  {
    var l := s.threads[t];
    match l
    case DeqGate => 3 * CATCHUP_ATTEMPTS + 101
    case DeqTicket(_, _) => 3 * CATCHUP_ATTEMPTS + 100
    case DeqLoad(_, _, _, attempts) => 3 * Patience(attempts) + 21
    case DeqSwap(_, _, _, attempts, _, _) => 3 * Patience(attempts) + if Stale(s, l) then 22 else 20
    case DeqTail(_, _) => 15
    case CatchSwap(seenTail, _) => if seenTail == s.tail then 5 else 10
    case CatchHead => 9
    case CatchTail(_) => 8
    case DeqSpend(_) => 3
    case DeqGiveUp => 2
    case DeqTake(_, _) => 1
    case _ => 0
  }

  ghost predicate Less(s: State, s': State, t: nat)
    requires Shape(s) && Shape(s') && t < |s.threads| && t < |s'.threads|
  {
    && (s'.threads[t].Done? || Dequeuing(s'.threads[t]))
    && (|| Allowance(s') < Allowance(s)
        || (Allowance(s') == Allowance(s) && DequeueWork(s', t) < DequeueWork(s, t)))
  }

  /** Reacting to the current word: it takes, reloads, gives up, or prepares a swap that will succeed. */
  lemma FollowLess(s: State, s': State, t: nat, spent: nat, ticket: nat, attempts: nat)
    requires Shape(s) && t < |s.threads|
    requires s' == Follow(s, t, false, spent, ticket, attempts, WordAt(s, ticket))
    ensures |s'.threads| == |s.threads| && Shape(s') && Dequeuing(s'.threads[t]) && s'.threshold == s.threshold
    ensures DequeueWork(s', t) < 3 * Patience(attempts) + 21
  {
    var w := WordAt(s, ticket);
    match Judge(s.n, ticket, attempts, w)
    case Take => assert s'.threads[t] == DeqTake(ticket, w);
    case Reload => assert s'.threads[t] == DeqLoad(false, spent, ticket, attempts + 1);
    case Swap(replacement, attempts') => assert s'.threads[t] == DeqSwap(false, spent, ticket, attempts', w, replacement);
    case Abandon => assert s'.threads[t] == DeqTail(spent, ticket);
  }

  lemma DequeueLess(s: State, s': State, t: nat)
    requires Shape(s) && t < |s.threads| && IsDequeue(s.threads[t]) && Dequeuing(s.threads[t])
    requires s' == DoDequeue(s, t)
    ensures |s'.threads| == |s.threads| && Shape(s') && Less(s, s', t)
  {
    match s.threads[t]
    case DeqLoad(_, spent, ticket, attempts) =>
      FollowLess(s, s', t, spent, ticket, attempts);
    case DeqSwap(_, spent, ticket, attempts, entry, _) =>
      if WordAt(s, ticket) != entry {
        FollowLess(s, s', t, spent, ticket, attempts);
      }
    case DeqTicket(_, _) =>
    case DeqTake(_, _) =>
  }

  lemma CatchUpLess(s: State, s': State, t: nat)
    requires Shape(s) && t < |s.threads| && IsCatchUp(s.threads[t])
    requires s' == DoCatchUp(s, t)
    ensures |s'.threads| == |s.threads| && Shape(s') && Less(s, s', t)
  {
  }

  lemma ThresholdLess(s: State, s': State, t: nat)
    requires Shape(s) && t < |s.threads| && IsThreshold(s.threads[t]) && Dequeuing(s.threads[t])
    requires s' == DoThreshold(s, t)
    ensures |s'.threads| == |s.threads| && Shape(s') && Less(s, s', t)
  {
  }

  lemma AdvanceLess(s: State, t: nat) returns (s': State)
    requires Inv(s) && t < |s.threads| && Dequeuing(s.threads[t])
    ensures Busy(s, t) && s' == DoAdvance(s, t) && Inv(s') && |s'.threads| == |s.threads|
    ensures Less(s, s', t)
  {
    AdvanceKeeps(s, t);
    s' := DoAdvance(s, t);
    if IsDequeue(s.threads[t]) {
      DequeueLess(s, s', t);
    } else if IsCatchUp(s.threads[t]) {
      CatchUpLess(s, s', t);
    } else {
      ThresholdLess(s, s', t);
    }
  }

  /** The most steps that a dequeuer alone spends on one ticket. */
  const ROUND: nat := 3 * CATCHUP_ATTEMPTS + 101

  ghost function DequeueBound(s: State, t: nat): nat
    requires Shape(s) && t < |s.threads|
  {
    DequeueWork(s, t) + Allowance(s) * ROUND
  }

  lemma BoundFalls(s: State, s': State, t: nat)
    requires Shape(s) && Shape(s') && t < |s.threads| && t < |s'.threads| && Less(s, s', t)
    requires Dequeuing(s.threads[t])
    ensures DequeueBound(s', t) < DequeueBound(s, t)
  {
  }

  /** A `try_dequeue(false)` running alone returns, within a number of steps known beforehand. */
  lemma {:induction false} DequeueAlone(s: State, t: nat) returns (k: nat, e: State)
    requires Inv(s) && t < |s.threads| && Dequeuing(s.threads[t])
    ensures e == Solo(s, t, k) && e.threads[t].Done? && k <= DequeueBound(s, t)
    decreases DequeueBound(s, t)
  {
    var s' := AdvanceLess(s, t);
    BoundFalls(s, s', t);
    if s'.threads[t].Done? {
      SoloStep(s, s', t, 0);
      k, e := 1, s';
    } else {
      k, e := DequeueAlone(s', t);
      SoloStep(s, s', t, k);
      k := k + 1;
    }
  }

  // ---------------------------------------------------------------- the ticket budget of a dequeue

  /** The threshold never exceeds 3n - 1. */
  lemma {:induction false} ThresholdIsBounded(run: seq<State>, i: nat)
    requires IsRun(run) && i < |run|
    ensures run[i].threshold <= InitialThreshold(run[i].n) && run[i].n == run[0].n
  {
    if i == 0 {
    } else {
      ThresholdIsBounded(run, i - 1);
      assert StepAt(run, i - 1);
      var step :| Enabled(run[i - 1], step) && run[i] == Do(run[i - 1], step);
      ThresholdStep(run[i - 1], step);
    }
  }

  lemma ThresholdStep(s: State, step: Step)
    requires Shape(s) && Enabled(s, step)
    ensures Do(s, step).threshold <= Max(s.threshold, InitialThreshold(s.n))
  {
  }

  predicate HasSpent(l: Local) {
    l.DeqTicket? || l.DeqLoad? || l.DeqSwap? || l.DeqTail? || l.DeqSpend?
  }

  /** The tickets a call of `try_dequeue(false)` has drawn are paid for by the threshold, all but
      the last one. */
  predicate Paid(s: State, l: Local, start: int) {
    && (HasSpent(l) && !l.DeqTail? && !l.DeqSpend? ==> !l.known)
    && (l.DeqTicket? ==> l.spent <= Max(start, 0) && s.threshold <= start - l.spent)
    && (HasSpent(l) && !l.DeqTicket? ==>
          1 <= l.spent <= Max(start, 0) + 1 && s.threshold <= start - (l.spent - 1))
    && (l.DeqGate? ==> s.threshold <= start)
  }

  /** The threads that are inside a call of `try_dequeue(false)`. */
  predicate InDequeue(l: Local) {
    IsDequeue(l) || IsCatchUp(l) || l.DeqGate? || l.DeqGiveUp? || l.DeqSpend?
  }

  lemma PaidStep(s: State, s': State, step: Step, start: int)
    requires Shape(s) && Enabled(s, step) && s' == Do(s, step)
    requires InDequeue(s.threads[step.thread]) && Paid(s, s.threads[step.thread], start)
    ensures Paid(s', s'.threads[step.thread], start)
  {
    var t := step.thread;
    match step
    case Advance(_) =>
      if IsDequeue(s.threads[t]) {
        PaidDequeue(s, s', t, start);
      } else if IsCatchUp(s.threads[t]) {
        PaidCatchUp(s, s', t, start);
      } else {
        PaidThreshold(s, s', t, start);
      }
    case SpuriousFailure(_) => PaidFailure(s, s', t, start);
  }

  lemma PaidThreshold(s: State, s': State, t: nat, start: int)
    requires Shape(s) && t < |s.threads| && IsThreshold(s.threads[t]) && s' == DoThreshold(s, t)
    requires InDequeue(s.threads[t]) && Paid(s, s.threads[t], start)
    ensures Paid(s', s'.threads[t], start)
  {
  }

  lemma PaidFailure(s: State, s': State, t: nat, start: int)
    requires Shape(s) && t < |s.threads| && (s.threads[t].DeqSwap? || s.threads[t].CatchSwap?) && s' == FailSwap(s, t)
    requires Paid(s, s.threads[t], start)
    ensures Paid(s', s'.threads[t], start)
  {
  }

  /** The inner loop keeps the count of the call, or ends it. */
  lemma FollowSpent(s: State, s': State, t: nat, spent: nat, ticket: nat, attempts: nat)
    requires Shape(s) && t < |s.threads|
    requires s' == Follow(s, t, false, spent, ticket, attempts, WordAt(s, ticket))
    ensures var l' := s'.threads[t];
            l'.DeqTake? || (HasSpent(l') && !l'.DeqTicket? && l'.spent == spent && (l'.DeqTail? || (!l'.DeqSpend? && !l'.known)))
  {
    var w := WordAt(s, ticket);
    match Judge(s.n, ticket, attempts, w)
    case Take => assert s'.threads[t] == DeqTake(ticket, w);
    case Reload => assert s'.threads[t] == DeqLoad(false, spent, ticket, attempts + 1);
    case Swap(replacement, attempts') => assert s'.threads[t] == DeqSwap(false, spent, ticket, attempts', w, replacement);
    case Abandon => assert s'.threads[t] == DeqTail(spent, ticket);
  }

  lemma PaidDequeue(s: State, s': State, t: nat, start: int)
    requires Shape(s) && t < |s.threads| && IsDequeue(s.threads[t]) && s' == DoDequeue(s, t)
    requires Paid(s, s.threads[t], start)
    ensures Paid(s', s'.threads[t], start)
  {
    match s.threads[t]
    case DeqLoad(_, spent, ticket, attempts) =>
      FollowSpent(s, s', t, spent, ticket, attempts);
    case DeqSwap(_, spent, ticket, attempts, entry, _) =>
      if WordAt(s, ticket) != entry {
        FollowSpent(s, s', t, spent, ticket, attempts);
      }
    case DeqTicket(_, _) =>
    case DeqTake(_, _) =>
  }

  lemma PaidCatchUp(s: State, s': State, t: nat, start: int)
    requires Shape(s) && t < |s.threads| && IsCatchUp(s.threads[t]) && s' == DoCatchUp(s, t)
    requires Paid(s, s.threads[t], start)
    ensures Paid(s', s'.threads[t], start)
  {
  }

  /** Between two threshold resets no call of `try_dequeue(false)` draws more than 3n tickets,
      whatever the other threads do. */
  lemma {:induction false} TicketBudget(run: seq<State>, i: nat, j: nat, t: nat)
    requires IsRun(run) && i <= j < |run| && t < |run[i].threads| && run[i].threads[t].DeqGate?
    requires forall x: nat | i <= x < j :: run[x + 1].threshold <= run[x].threshold
    requires forall x: nat | i <= x <= j :: t < |run[x].threads| && InDequeue(run[x].threads[t])
    ensures Paid(run[j], run[j].threads[t], run[i].threshold)
    ensures HasSpent(run[j].threads[t]) ==> run[j].threads[t].spent <= 3 * run[j].n
  {
    if i < j {
      TicketBudget(run, i, j - 1, t);
      var s, s' := run[j - 1], run[j - 1 + 1];
      assert s'.threshold <= s.threshold;
      assert StepAt(run, j - 1);
      var step :| Enabled(s, step) && s' == Do(s, step);
      ThresholdStep(s, step);
      if step.thread == t {
        PaidStep(s, s', step, run[i].threshold);
      }
    }
    ThresholdIsBounded(run, i);
    ThresholdIsBounded(run, j);
    assert Shape(run[0]);
  }
}
