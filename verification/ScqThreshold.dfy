/** Why the threshold suffices: with at most 2n threads inside `try_dequeue` at once, and no more than
    n indices about, a ring at rest has threshold enough left for a dequeue to reach its first index. */
module ScqThreshold {
  import opened Wrappers
  import opened ScqRing
  import opened ScqSafety
  import opened ScqProgress
  import opened ScqDistance

  // ---------------------------------------------------------------- what the threshold has to pay for

  predicate Enqueuing(l: Local) {
    HasIndex(l) || l.EnqThreshold? || l.EnqReset?
  }

  /** No enqueue is under way. */
  ghost predicate NoEnqueue(s: State) {
    forall t | 0 <= t < |s.threads| :: !Enqueuing(s.threads[t])
  }

  /** A dequeuer that will lower the threshold once more for the ticket it has drawn. */
  predicate Owes(s: State, l: Local) {
    || ((l.DeqLoad? || l.DeqSwap?) && !l.known && l.ticket !in s.stored)
    || l.DeqTail? || l.CatchSwap? || l.CatchHead? || l.CatchTail? || l.DeqGiveUp? || l.DeqSpend?
  }

  ghost function Owers(s: State): set<nat> {
    set t | 0 <= t < |s.threads| && Owes(s, s.threads[t])
  }

  /** The tickets between head and k with nothing to take. */
  ghost function Gaps(s: State, k: nat): set<nat> {
    set j: nat | s.head <= j < k && j !in s.stored
  }

  /** The threshold pays for what is owed and for every gap before an index. */
  ghost predicate Funded(s: State) {
    forall k | k in Residents(s) && s.head <= k :: s.threshold >= |Owers(s)| + |Gaps(s, k)|
  }

  // ---------------------------------------------------------------- what callers are asked for

  /** The threads inside a call of `try_dequeue`. */
  ghost function Dequeuers(s: State): set<nat> {
    set t | 0 <= t < |s.threads| && InDequeue(s.threads[t])
  }

  /** At most 2n dequeuers at once, at most n indices about, and every enqueue checks the threshold. */
  ghost predicate Moderate(s: State) {
    && WithinCapacity(s)
    && |Dequeuers(s)| <= 2 * s.n
    && forall t | 0 <= t < |s.threads| && HasIndex(s.threads[t]) :: !s.threads[t].known
  }

  ghost predicate AllModerate(run: seq<State>) {
    forall i | 0 <= i < |run| :: Moderate(run[i])
  }

  lemma OwersAreDequeuers(s: State)
    ensures |Owers(s)| <= |Dequeuers(s)|
  {
    Subset(Owers(s), Dequeuers(s));
  }

  // ---------------------------------------------------------------- one thread moves

  lemma OwersAfter(s: State, s': State, t: nat)
    requires t < |s.threads| == |s'.threads| && s'.threads == s.threads[t := s'.threads[t]] && s'.stored == s.stored
    ensures |Owers(s')| + (if Owes(s, s.threads[t]) then 1 else 0) == |Owers(s)| + (if Owes(s', s'.threads[t]) then 1 else 0)
  {
    var others := set u | 0 <= u < |s.threads| && u != t && Owes(s, s.threads[u]);
    assert forall u | 0 <= u < |s.threads| && u != t :: Owes(s', s'.threads[u]) <==> Owes(s, s.threads[u]);
    assert Owers(s) == if Owes(s, s.threads[t]) then others + {t} else others;
    assert Owers(s') == if Owes(s', s'.threads[t]) then others + {t} else others;
  }

  lemma GapsStay(s: State, s': State, k: nat)
    requires s'.head == s.head && s'.stored == s.stored
    ensures Gaps(s', k) == Gaps(s, k)
  {
  }

  lemma GapsAfterDraw(s: State, s': State, k: nat)
    requires s'.head == s.head + 1 && s'.stored == s.stored && s.head < k
    ensures |Gaps(s, k)| == |Gaps(s', k)| + (if s.head in s.stored then 0 else 1)
  {
    assert Gaps(s, k) == if s.head in s.stored then Gaps(s', k) else Gaps(s', k) + {s.head};
  }

  /** A step of a dequeuer that moves its debt and the threshold together. */
  lemma PayKeepsFunded(s: State, s': State, t: nat)
    requires Funded(s) && t < |s.threads| == |s'.threads| && s'.threads == s.threads[t := s'.threads[t]]
    requires s'.stored == s.stored && s.taken.Keys <= s'.taken.Keys && s'.head == s.head
    requires s'.threshold + (if Owes(s, s.threads[t]) then 1 else 0) >= s.threshold + (if Owes(s', s'.threads[t]) then 1 else 0)
    ensures Funded(s')
  {
    OwersAfter(s, s', t);
    forall k | k in Residents(s') && s'.head <= k
      ensures s'.threshold >= |Owers(s')| + |Gaps(s', k)|
    {
      GapsStay(s, s', k);
    }
  }

  lemma DrawKeepsFunded(s: State, s': State, t: nat)
    requires Shape(s) && Funded(s) && t < |s.threads| && s.threads[t].DeqTicket? && s' == DoDequeue(s, t)
    ensures Funded(s')
  {
    OwersAfter(s, s', t);
    forall k | k in Residents(s') && s'.head <= k
      ensures s'.threshold >= |Owers(s')| + |Gaps(s', k)|
    {
      GapsAfterDraw(s, s', k);
    }
  }

  // ---------------------------------------------------------------- steps of dequeuers

  lemma FollowFrame(s: State, s': State, t: nat, known: bool, spent: nat, ticket: nat, attempts: nat)
    requires Shape(s) && t < |s.threads| && s' == Follow(s, t, known, spent, ticket, attempts, WordAt(s, ticket))
    ensures s'.threads == s.threads[t := s'.threads[t]] && s'.stored == s.stored && s'.taken == s.taken && s'.head == s.head
  {
  }

  lemma FollowPays(s: State, s': State, t: nat, known: bool, spent: nat, ticket: nat, attempts: nat)
    requires Shape(s) && t < |s.threads| && s' == Follow(s, t, known, spent, ticket, attempts, WordAt(s, ticket))
    requires Judge(s.n, ticket, attempts, WordAt(s, ticket)).Take? <==> ticket in s.stored
    ensures Owes(s', s'.threads[t]) <==> !known && ticket !in s.stored
  {
    FollowFrame(s, s', t, known, spent, ticket, attempts);
    match Judge(s.n, ticket, attempts, WordAt(s, ticket))
    case Take => assert s'.threads[t].DeqTake?;
    case Reload => assert s'.threads[t] == DeqLoad(known, spent, ticket, attempts + 1);
    case Swap(replacement, attempts') =>
      assert s'.threads[t] == DeqSwap(known, spent, ticket, attempts', WordAt(s, ticket), replacement);
    case Abandon => assert s'.threads[t] == AfterInnerLoop(known, spent, ticket);
  }

  /** A dequeuer takes what is stored at its ticket, and leaves only when nothing is. */
  lemma FollowKnows(s: State, ticket: nat, attempts: nat, t: nat)
    requires Inv(s) && t < |s.threads| && (s.threads[t].DeqLoad? || s.threads[t].DeqSwap?) && s.threads[t].ticket == ticket
    ensures Judge(s.n, ticket, attempts, WordAt(s, ticket)).Take? <==> ticket in s.stored
  {
    assert ticket !in s.taken && ticket !in s.abandoned;
  }

  lemma LoadPays(s: State, s': State, t: nat)
    requires Inv(s) && Funded(s) && t < |s.threads| && (s.threads[t].DeqLoad? || s.threads[t].DeqSwap?)
    requires var l := s.threads[t]; s' == Follow(s, t, l.known, l.spent, l.ticket, l.attempts, WordAt(s, l.ticket))
    ensures Funded(s')
  {
    var l := s.threads[t];
    FollowKnows(s, l.ticket, l.attempts, t);
    FollowFrame(s, s', t, l.known, l.spent, l.ticket, l.attempts);
    FollowPays(s, s', t, l.known, l.spent, l.ticket, l.attempts);
    PayKeepsFunded(s, s', t);
  }

  lemma SwapPays(s: State, s': State, t: nat)
    requires Inv(s) && Funded(s) && t < |s.threads| && s.threads[t].DeqSwap?
    requires WordAt(s, s.threads[t].ticket) == s.threads[t].entry && s' == DoDequeue(s, t)
    ensures Funded(s')
  {
    assert LocalSound(s, s.threads[t]);
    var ticket := s.threads[t].ticket;
    assert ticket !in s.stored;
    PayKeepsFunded(s, s', t);
  }

  lemma DequeuePays(s: State, s': State, t: nat)
    requires Inv(s) && Funded(s) && t < |s.threads| && IsDequeue(s.threads[t]) && s' == DoDequeue(s, t)
    ensures Funded(s')
  {
    match s.threads[t]
    case DeqTicket(_, _) => DrawKeepsFunded(s, s', t);
    case DeqLoad(_, _, _, _) => LoadPays(s, s', t);
    case DeqSwap(_, _, ticket, _, entry, _) =>
      if WordAt(s, ticket) == entry {
        SwapPays(s, s', t);
      } else {
        LoadPays(s, s', t);
      }
    case DeqTake(_, _) => PayKeepsFunded(s, s', t);
  }

  lemma CatchUpPays(s: State, s': State, t: nat)
    requires Shape(s) && Funded(s) && t < |s.threads| && IsCatchUp(s.threads[t]) && s' == DoCatchUp(s, t)
    ensures Funded(s')
  {
    CatchUpOwes(s, s', t);
    PayKeepsFunded(s, s', t);
  }

  lemma CatchUpOwes(s: State, s': State, t: nat)
    requires Shape(s) && t < |s.threads| && IsCatchUp(s.threads[t]) && s' == DoCatchUp(s, t)
    ensures Owes(s, s.threads[t]) && Owes(s', s'.threads[t]) && s'.threshold == s.threshold
    ensures s'.threads == s.threads[t := s'.threads[t]] && s'.stored == s.stored && s'.taken == s.taken && s'.head == s.head
  {
  }

  lemma ThresholdPays(s: State, s': State, t: nat)
    requires Shape(s) && Funded(s) && t < |s.threads| && (s.threads[t].DeqGate? || s.threads[t].DeqGiveUp? || s.threads[t].DeqSpend?)
    requires s' == DoThreshold(s, t)
    ensures Funded(s')
  {
    PayKeepsFunded(s, s', t);
  }

  lemma FailurePays(s: State, s': State, t: nat)
    requires Inv(s) && Funded(s) && t < |s.threads| && (s.threads[t].DeqSwap? || s.threads[t].CatchSwap?) && s' == FailSwap(s, t)
    ensures Funded(s')
  {
    if s.threads[t].DeqSwap? {
      LoadPays(s, s', t);
    } else {
      PayKeepsFunded(s, s', t);
    }
  }

  // ---------------------------------------------------------------- steps of enqueuers

  /** The last enqueue under way ends with the threshold at its full value. */
  lemma LastEnqueue(s: State, s': State, step: Step)
    requires Shape(s) && Enabled(s, step) && s' == Do(s, step) && !NoEnqueue(s) && NoEnqueue(s')
    requires forall t | 0 <= t < |s.threads| && HasIndex(s.threads[t]) :: !s.threads[t].known
    ensures s'.threshold == InitialThreshold(s'.n)
  {
    var u :| 0 <= u < |s.threads| && Enqueuing(s.threads[u]);
    assert u == step.thread;
    match step
    case Advance(t) => LastAdvance(s, s', t);
    case SpuriousFailure(_) =>
    case StartEnqueue(_, _, _) =>
    case StartDequeue(_, _) =>
  }

  lemma LastAdvance(s: State, s': State, t: nat)
    requires Shape(s) && t < |s.threads| && Enqueuing(s.threads[t]) && s' == DoAdvance(s, t)
    requires !Enqueuing(s'.threads[t]) && (HasIndex(s.threads[t]) ==> !s.threads[t].known)
    ensures s'.threshold == InitialThreshold(s'.n)
  {
  }

  ghost function Tickets(lo: nat, hi: nat): (all: set<nat>)
    requires lo <= hi
    ensures |all| == hi - lo
    ensures forall j: nat :: j in all <==> lo <= j < hi
    decreases hi
  {
    if lo == hi then {} else Tickets(lo, hi - 1) + {hi - 1}
  }

  lemma GapsAndStored(s: State, k: nat, filled: set<nat>)
    requires s.head <= k && forall j | j in filled :: s.head <= j < k && j in s.stored
    ensures |Gaps(s, k)| + |filled| <= k - s.head
  {
    Subset(Gaps(s, k) + filled, Tickets(s.head, k));
    assert |Gaps(s, k) + filled| == |Gaps(s, k)| + |filled|;
  }

  /** With no enqueue under way the gaps of the window are wasted tickets, so they are fewer than n. */
  lemma GapsAreFew(s: State, w: seq<Waste>, k: nat)
    requires WasteSound(s, w) && HistorySound(s) && Near(s) && NoEnqueue(s) && k in Residents(s) && s.head <= k
    ensures |Gaps(s, k)| < s.n
  {
    var live, wasted := WastedAreFew(s, w, k - s.head);
    NobodyHolds(s);
    forall j | j in live
      ensures s.head <= j < k && j in s.stored
    {
      assert j in LiveTickets(s);
    }
    GapsAndStored(s, k, live);
  }

  lemma NobodyHolds(s: State)
    requires NoEnqueue(s)
    ensures HeldTickets(s) == {}
  {
  }

  lemma FullIsFunded(s: State, w: seq<Waste>)
    requires WasteSound(s, w) && HistorySound(s) && Near(s) && NoEnqueue(s) && Moderate(s)
    requires s.threshold == InitialThreshold(s.n)
    ensures Funded(s)
  {
    OwersAreDequeuers(s);
    forall k | k in Residents(s) && s.head <= k
      ensures s.threshold >= |Owers(s)| + |Gaps(s, k)|
    {
      GapsAreFew(s, w, k);
    }
  }

  // ---------------------------------------------------------------- any step

  /** A step after which no enqueue is under way, and before which there was none. */
  lemma QuietStep(s: State, s': State, step: Step)
    requires Inv(s) && Enabled(s, step) && s' == Do(s, step) && NoEnqueue(s) && NoEnqueue(s') && Funded(s)
    ensures Funded(s')
  {
    var t := step.thread;
    assert !Enqueuing(s'.threads[t]);
    match step
    case StartEnqueue(_, _, _) =>
    case StartDequeue(_, _) => PayKeepsFunded(s, s', t);
    case SpuriousFailure(_) => FailurePays(s, s', t);
    case Advance(_) =>
      if IsDequeue(s.threads[t]) {
        DequeuePays(s, s', t);
      } else if IsCatchUp(s.threads[t]) {
        CatchUpPays(s, s', t);
      } else {
        ThresholdPays(s, s', t);
      }
  }

  lemma StepFunds(s: State, s': State, step: Step, w': seq<Waste>)
    requires Inv(s) && Enabled(s, step) && s' == Do(s, step)
    requires Moderate(s) && Moderate(s') && WasteSound(s', w') && HistorySound(s') && Near(s')
    requires NoEnqueue(s) ==> Funded(s)
    ensures NoEnqueue(s') ==> Funded(s')
  {
    if NoEnqueue(s') {
      if NoEnqueue(s) {
        QuietStep(s, s', step);
      } else {
        LastEnqueue(s, s', step);
        FullIsFunded(s', w');
      }
    }
  }

  lemma InitFunded(s: State)
    requires Init(s)
    ensures Funded(s)
  {
    assert Owers(s) == {};
    forall k | k in Residents(s) && s.head <= k
      ensures |Gaps(s, k)| == 0
    {
      assert Gaps(s, k) == {};
    }
  }

  lemma NextFunds(s: State, s': State, w': seq<Waste>)
    requires Inv(s) && Next(s, s')
    requires Moderate(s) && Moderate(s') && WasteSound(s', w') && HistorySound(s') && Near(s')
    requires NoEnqueue(s) ==> Funded(s)
    ensures NoEnqueue(s') ==> Funded(s')
  {
    var step :| Enabled(s, step) && s' == Do(s, step);
    StepFunds(s, s', step, w');
  }

  lemma NextAtFunds(run: seq<State>, i: nat, w': seq<Waste>)
    requires IsRun(run) && AllModerate(run) && 0 < i < |run| && Inv(run[i - 1])
    requires WasteSound(run[i], w') && HistorySound(run[i]) && Near(run[i])
    requires NoEnqueue(run[i - 1]) ==> Funded(run[i - 1])
    ensures NoEnqueue(run[i]) ==> Funded(run[i])
  {
    assert StepAt(run, i - 1);
    NextFunds(run[i - 1], run[i], w');
  }

  lemma WithinAlong(run: seq<State>)
    requires AllModerate(run)
    ensures AllWithinCapacity(run)
  {
  }

  lemma StepAtFunds(run: seq<State>, i: nat)
    requires IsRun(run) && AllModerate(run) && 0 < i < |run| && (NoEnqueue(run[i - 1]) ==> Funded(run[i - 1]))
    ensures NoEnqueue(run[i]) ==> Funded(run[i])
  {
    WithinAlong(run);
    RunKeepsInv(run, i - 1);
    HistoryAt(run, i);
    var w' := RunWaste(run, i);
    NextAtFunds(run, i, w');
  }

  lemma {:induction false} RunFunds(run: seq<State>, i: nat)
    requires IsRun(run) && AllModerate(run) && i < |run|
    ensures NoEnqueue(run[i]) ==> Funded(run[i])
  {
    if i == 0 {
      InitFunded(run[i]);
    } else {
      RunFunds(run, i - 1);
      StepAtFunds(run, i);
    }
  }

  // ---------------------------------------------------------------- a ring at rest

  /** The first index that is still to be taken. */
  ghost predicate FirstResident(s: State, k: nat) {
    k in Residents(s) && s.head <= k && forall j | j in Residents(s) && s.head <= j :: k <= j
  }

  /** With nobody enqueuing or dequeuing, the threshold reaches as far as the first index. */
  lemma ThresholdReaches(run: seq<State>, i: nat, k: nat)
    requires IsRun(run) && AllModerate(run) && i < |run| && NoEnqueue(run[i])
    requires FirstResident(run[i], k)
    ensures run[i].threshold >= k - run[i].head
  {
    RunFunds(run, i);
    RunKeepsInv(run, i);
    GapsBeforeFirst(run[i], k);
  }

  lemma GapsBeforeFirst(s: State, k: nat)
    requires HistorySound(s) && FirstResident(s, k)
    ensures |Gaps(s, k)| == k - s.head
  {
    forall j: nat | s.head <= j < k
      ensures j !in s.stored
    {
      assert j in s.stored ==> j in Residents(s);
    }
    assert Gaps(s, k) == Tickets(s.head, k);
  }
}
