/** What the SCQ invariant means for whole runs: exactly-once transfer, no ABA, catch-up and
    justified emptiness. */
module ScqTheorems {
  import opened Wrappers
  import opened ScqRing
  import opened ScqSafety

  // ---------------------------------------------------------------- whole runs

  lemma {:induction false} RunEvolves(run: seq<State>, i: nat, j: nat)
    requires IsRun(run) && i <= j < |run|
    ensures Evolves(run[i], run[j])
  {
    if i == j {
      EvolvesReflexive(run, i);
    } else {
      RunEvolves(run, i, j - 1);
      StepEvolves(run, j - 1);
      EvolvesTransitive(run[i], run[j - 1], run[j]);
    }
  }

  lemma EvolvesReflexive(run: seq<State>, i: nat)
    requires IsRun(run) && i < |run|
    ensures Evolves(run[i], run[i])
  {
    RunKeepsInv(run, i);
  }

  lemma StepEvolves(run: seq<State>, i: nat)
    requires IsRun(run) && i + 1 < |run|
    ensures Evolves(run[i], run[i + 1])
  {
    RunKeepsInv(run, i);
    assert StepAt(run, i);
    NextKeepsInv(run[i], run[i + 1]);
  }

  lemma EvolvesTransitive(a: State, b: State, c: State)
    requires Evolves(a, b) && Evolves(b, c)
    ensures Evolves(a, c)
  {
    forall k: nat
      ensures AtMost(WordAt(a, k), WordAt(c, k))
    {
      assert AtMost(WordAt(a, k), WordAt(b, k)) && AtMost(WordAt(b, k), WordAt(c, k));
    }
  }

  // ---------------------------------------------------------------- exactly once

  /** An index stored at a ticket stays in the slot of that ticket until the head ticket of the
      same number takes it, and only that ticket ever does. */
  lemma StoredStaysUntilTaken(run: seq<State>, i: nat, j: nat, ticket: nat)
    requires IsRun(run) && i <= j < |run| && ticket in run[i].stored
    ensures Shape(run[j]) && ticket in run[j].stored && run[j].stored[ticket] == run[i].stored[ticket]
    ensures if ticket in run[j].taken then run[j].taken[ticket] == run[i].stored[ticket]
            else WordAt(run[j], ticket).cycle == Cycle(run[j].n, ticket)
                 && WordAt(run[j], ticket).cell == Holds(run[i].stored[ticket])
  {
    RunEvolves(run, i, j);
    RunKeepsInv(run, j);
  }

  /** Once its dequeuer has abandoned a ticket, nothing is ever stored at it. */
  lemma AbandonedNeverStored(run: seq<State>, i: nat, j: nat, ticket: nat)
    requires IsRun(run) && i <= j < |run| && ticket in run[i].abandoned
    ensures ticket !in run[j].stored && ticket !in run[j].taken
  {
    RunEvolves(run, i, j);
    RunKeepsInv(run, j);
  }

  /** Every successful dequeue takes a ticket of its own, and every successful enqueue stores at
      a ticket of its own: what was stored is what was delivered and what is resident. */
  lemma NothingLostOrDuplicated(run: seq<State>, i: nat)
    requires IsRun(run) && i < |run|
    ensures var s := run[i];
            && s.taken.Keys <= s.stored.Keys
            && s.stores == s.deliveries + |s.stored.Keys - s.taken.Keys|
  {
    RunKeepsInv(run, i);
    var s := run[i];
    assert s.stored.Keys == s.taken.Keys + (s.stored.Keys - s.taken.Keys);
    assert |s.stored.Keys| == |s.stored| && |s.taken.Keys| == |s.taken|;
  }

  /** A dequeue returns a real index, the one stored at its own ticket, which nobody took before. */
  lemma DequeueReturnsItsTicket(run: seq<State>, i: nat, t: nat)
    requires IsRun(run) && i < |run| && t < |run[i].threads| && run[i].threads[t].DeqTake?
    ensures Shape(run[i])
    ensures var s, s' := run[i], DoAdvance(run[i], t);
            var ticket := s.threads[t].ticket;
            && ticket in s.stored && ticket !in s.taken
            && s.stored[ticket] < s.n
            && s'.threads[t] == Done(Some(s.stored[ticket]))
            && s'.taken == s.taken[ticket := s.stored[ticket]]
  {
    RunKeepsInv(run, i);
    assert LocalSound(run[i], run[i].threads[t]);
  }

  /** No two threads hold the same head ticket, or the same tail ticket. */
  lemma TicketsAreExclusive(run: seq<State>, i: nat, t: nat, u: nat)
    requires IsRun(run) && i < |run| && t < |run[i].threads| && u < |run[i].threads| && t != u
    requires var a, b := run[i].threads[t], run[i].threads[u];
             (HoldsHead(a) && HoldsHead(b)) || (HoldsTail(a) && HoldsTail(b))
    ensures run[i].threads[t].ticket != run[i].threads[u].ticket
  {
    RunKeepsInv(run, i);
  }

  // ---------------------------------------------------------------- no ABA

  /** The word of a slot only climbs in rank, so it never returns to a value it left. */
  lemma NoAba(run: seq<State>, i: nat, j: nat, k: nat, ticket: nat)
    requires IsRun(run) && i <= j <= k < |run|
    requires Shape(run[i]) && Shape(run[k]) && WordAt(run[i], ticket) == WordAt(run[k], ticket)
    ensures Shape(run[j]) && WordAt(run[j], ticket) == WordAt(run[i], ticket)
  {
    RunEvolves(run, i, j);
    RunEvolves(run, j, k);
    assert AtMost(WordAt(run[i], ticket), WordAt(run[j], ticket));
    assert AtMost(WordAt(run[j], ticket), WordAt(run[k], ticket));
  }

  /** The early look at head of an enqueuer is still good when its swap succeeds: its ticket was
      not abandoned, even if head has passed it since. */
  lemma SwapReachesItsDequeuer(run: seq<State>, i: nat, t: nat)
    requires IsRun(run) && i < |run| && t < |run[i].threads| && run[i].threads[t].EnqSwap?
    requires Shape(run[i]) && WordAt(run[i], run[i].threads[t].ticket) == run[i].threads[t].entry
    ensures var s := run[i];
            var ticket := s.threads[t].ticket;
            && ticket !in s.abandoned && ticket !in s.taken
            && (ticket < s.head ==>
                  && ticket < |s.headOwner| && s.headOwner[ticket] < |s.threads|
                  && HoldsHead(s.threads[s.headOwner[ticket]])
                  && s.threads[s.headOwner[ticket]].ticket == ticket)
  {
    var s := run[i];
    RunKeepsInv(run, i);
    var l := s.threads[t];
    StoresInReach(s, StoreIndex(s, t, l.index, l.known, l.ticket), t);
  }

  // ---------------------------------------------------------------- catch-up and emptiness

  lemma TailIsMonotone(run: seq<State>, i: nat, j: nat)
    requires IsRun(run) && i <= j < |run|
    ensures run[i].tail <= run[j].tail && run[i].head <= run[j].head
  {
    RunEvolves(run, i, j);
  }

  /** `catch_up` never moves tail past head. */
  lemma CatchUpStopsAtHead(run: seq<State>, i: nat, t: nat)
    requires IsRun(run) && i < |run| && t < |run[i].threads| && run[i].threads[t].CatchSwap?
    ensures Shape(run[i])
    ensures var s' := DoCatchUp(run[i], t);
            s'.tail != run[i].tail ==> run[i].tail < s'.tail <= s'.head
  {
    RunKeepsInv(run, i);
    assert LocalSound(run[i], run[i].threads[t]);
    CatchUpLocal(run[i], t);
  }

  /** Thread t goes through `catch_up` for its ticket from i, and is about to lower the threshold at j. */
  ghost predicate CatchesUp(run: seq<State>, i: nat, j: nat, t: nat) {
    && IsRun(run) && i < j < |run| && (forall m | i <= m <= j :: t < |run[m].threads|)
    && run[i].threads[t].DeqTail?
    && (forall m | i < m < j :: run[m].threads[t].CatchSwap? || run[m].threads[t].CatchHead? || run[m].threads[t].CatchTail?)
    && run[j].threads[t].DeqGiveUp?
  }

  /** What a thread in `catch_up` is after. */
  predicate Pursues(s: State, l: Local, ticket: nat) {
    && ticket < s.head
    && match l
       case CatchSwap(_, target) => ticket < target
       case CatchHead => true
       case CatchTail(target) => ticket < target
       case DeqGiveUp => ticket < s.tail
       case _ => false
  }

  lemma CatchUpPursues(s: State, s': State, t: nat, ticket: nat)
    requires Shape(s) && t < |s.threads| && IsCatchUp(s.threads[t]) && s' == DoCatchUp(s, t) && ticket < s.head
    requires if s.threads[t].DeqTail? then s.threads[t].ticket == ticket && !s'.threads[t].DeqSpend? else Pursues(s, s.threads[t], ticket)
    ensures Pursues(s', s'.threads[t], ticket)
  {
  }

  lemma StepPursues(run: seq<State>, m: nat, t: nat, ticket: nat)
    requires IsRun(run) && m + 1 < |run| && t < |run[m].threads| && t < |run[m + 1].threads| && IsCatchUp(run[m].threads[t])
    requires if run[m].threads[t].DeqTail? then run[m].threads[t].ticket == ticket else Pursues(run[m], run[m].threads[t], ticket)
    requires run[m + 1].threads[t] != run[m].threads[t] ==> !run[m + 1].threads[t].DeqSpend?
    ensures run[m + 1].threads[t] == run[m].threads[t] || Pursues(run[m + 1], run[m + 1].threads[t], ticket)
    ensures run[m].head <= run[m + 1].head && run[m].tail <= run[m + 1].tail
  {
    TailIsMonotone(run, m, m + 1);
    RunKeepsInv(run, m);
    assert LocalSound(run[m], run[m].threads[t]);
    assert StepAt(run, m);
    var step :| Enabled(run[m], step) && run[m + 1] == Do(run[m], step);
    if step.thread == t {
      OwnPursues(run[m], run[m + 1], step, ticket);
    }
  }

  lemma OwnPursues(s: State, s': State, step: Step, ticket: nat)
    requires Shape(s) && Enabled(s, step) && s' == Do(s, step) && IsCatchUp(s.threads[step.thread]) && ticket < s.head
    requires var l := s.threads[step.thread]; if l.DeqTail? then l.ticket == ticket else Pursues(s, l, ticket)
    requires !s'.threads[step.thread].DeqSpend?
    ensures Pursues(s', s'.threads[step.thread], ticket)
  {
    if step.SpuriousFailure? {
      assert s'.threads[step.thread] == CatchHead;
    } else {
      CatchUpPursues(s, s', step.thread, ticket);
    }
  }

  lemma {:induction false} RunPursues(run: seq<State>, i: nat, m: nat, j: nat, t: nat)
    requires CatchesUp(run, i, j, t) && i < m <= j
    ensures Pursues(run[m], run[m].threads[t], run[i].threads[t].ticket)
  {
    if m > i + 1 {
      RunPursues(run, i, m - 1, j, t);
    }
    StepPursues(run, m - 1, t, run[i].threads[t].ticket);
  }

  /** When `catch_up` is done tail has passed the ticket that it was called for, whatever the other
      threads did meanwhile, so no enqueue draws that ticket or an earlier one again. */
  lemma CatchUpPassesItsTicket(run: seq<State>, i: nat, j: nat, k: nat, t: nat)
    requires CatchesUp(run, i, j, t) && j <= k < |run|
    ensures run[i].threads[t].ticket < run[k].tail
  {
    RunPursues(run, i, j, j, t);
    TailIsMonotone(run, j, k);
  }

  /** When the tail check of a dequeue answers empty, every index in the ring is already promised:
      its head ticket is in the hands of another dequeuer that has not left its inner loop. */
  lemma EmptyAnswerIsJustified(run: seq<State>, i: nat, t: nat, ticket: nat)
    requires IsRun(run) && i < |run| && t < |run[i].threads| && run[i].threads[t].DeqTail?
    requires run[i].tail <= run[i].threads[t].ticket + 1
    requires ticket in run[i].stored && ticket !in run[i].taken
    ensures ticket < |run[i].headOwner|
    ensures var s := run[i];
            var u := s.headOwner[ticket];
            u != t && u < |s.threads| && HoldsHead(s.threads[u]) && s.threads[u].ticket == ticket
  {
    RunKeepsInv(run, i);
    assert LocalSound(run[i], run[i].threads[t]);
  }

  /** A ring at rest has nothing promised: if the tail check answers empty while no other
      dequeuer is in its inner loop, the ring holds no index. */
  lemma EmptyAnswerAtRest(run: seq<State>, i: nat, t: nat)
    requires IsRun(run) && i < |run| && t < |run[i].threads| && run[i].threads[t].DeqTail?
    requires run[i].tail <= run[i].threads[t].ticket + 1
    requires forall u | 0 <= u < |run[i].threads| :: !HoldsHead(run[i].threads[u])
    ensures run[i].stored.Keys == run[i].taken.Keys && run[i].stores == run[i].deliveries
  {
    RunKeepsInv(run, i);
    forall ticket | ticket in run[i].stored
      ensures ticket in run[i].taken
    {
      if ticket !in run[i].taken {
        EmptyAnswerIsJustified(run, i, t, ticket);
      }
    }
    NothingLostOrDuplicated(run, i);
  }

  // ---------------------------------------------------------------- first in, first out

  /** Thread t calls `enqueue` at i and stores its index at the ticket in the step to j. */
  ghost predicate EnqueueCall(run: seq<State>, i: nat, j: nat, t: nat, ticket: nat) {
    && i + 1 < j < |run|
    && (forall m | i <= m < j :: t < |run[m].threads|)
    && !HasIndex(run[i].threads[t])
    && (forall m | i < m < j :: HasIndex(run[m].threads[t]))
    && run[j - 1].threads[t].EnqSwap? && run[j - 1].threads[t].ticket == ticket
    && ticket !in run[j - 1].stored && ticket in run[j].stored
  }

  /** The ticket of a thread that holds one was drawn after the call began. */
  ghost predicate DrawnSince(s: State, t: nat, tail: nat) {
    t < |s.threads| && (HoldsTail(s.threads[t]) ==> s.threads[t].ticket >= tail)
  }

  lemma StepKeepsDrawn(s: State, s': State, t: nat, tail: nat)
    requires Inv(s) && Next(s, s') && DrawnSince(s, t, tail) && tail <= s.tail
    ensures DrawnSince(s', t, tail)
  {
    var step :| Enabled(s, step) && s' == Do(s, step);
    if step.thread == t {
      OwnStepKeepsDrawn(s, s', step, tail);
    }
  }

  lemma OwnStepKeepsDrawn(s: State, s': State, step: Step, tail: nat)
    requires Shape(s) && Enabled(s, step) && s' == Do(s, step) && DrawnSince(s, step.thread, tail) && tail <= s.tail
    ensures DrawnSince(s', step.thread, tail)
  {
    var t := step.thread;
    match step
    case StartEnqueue(_, _, _) =>
    case StartDequeue(_, _) =>
    case SpuriousFailure(_) => FailureTicket(s, s', t);
    case Advance(_) =>
      if IsEnqueue(s.threads[t]) {
        EnqueueTicket(s, s', t);
      } else {
        OtherTicket(s, s', t);
      }
  }

  lemma FailureTicket(s: State, s': State, t: nat)
    requires Shape(s) && Enabled(s, SpuriousFailure(t)) && s' == FailSwap(s, t)
    ensures HoldsTail(s'.threads[t]) ==> HoldsTail(s.threads[t]) && s'.threads[t].ticket == s.threads[t].ticket
  {
    match s.threads[t]
    case EnqSwap(index, known, ticket, _) => ExamineTicket(s, s', t, index, known, ticket);
    case DeqSwap(known, spent, ticket, attempts, _, _) => FollowTicket(s, s', t, known, spent, ticket, attempts);
    case CatchSwap(_, _) => assert s'.threads[t] == CatchHead;
  }

  lemma ExamineTicket(s: State, s': State, t: nat, index: nat, known: bool, ticket: nat)
    requires Shape(s) && t < |s.threads| && s' == Examine(s, t, index, known, ticket)
    ensures HoldsTail(s'.threads[t]) ==> s'.threads[t].ticket == ticket
  {
    assert s'.threads[t] == EnqueueDecision(s.n, index, known, ticket, WordAt(s, ticket));
  }

  lemma EnqueueTicket(s: State, s': State, t: nat)
    requires Shape(s) && t < |s.threads| && IsEnqueue(s.threads[t]) && s' == DoEnqueue(s, t)
    ensures HoldsTail(s'.threads[t]) ==>
              if s.threads[t].EnqTicket? then s'.threads[t].ticket == s.tail else s'.threads[t].ticket == s.threads[t].ticket
  {
    match s.threads[t]
    case EnqTicket(index, known) => assert s'.threads[t] == EnqLoad(index, known, s.tail);
    case EnqLoad(index, known, ticket) => ExamineTicket(s, s', t, index, known, ticket);
    case EnqHead(index, known, ticket, entry) =>
      assert s'.threads[t] == if s.head <= ticket then EnqSwap(index, known, ticket, entry) else EnqTicket(index, known);
    case EnqSwap(index, known, ticket, entry) =>
      if WordAt(s, ticket) == entry {
        assert s'.threads[t] == if known then Done(None) else EnqThreshold;
      } else {
        ExamineTicket(s, s', t, index, known, ticket);
      }
  }

  lemma OtherTicket(s: State, s': State, t: nat)
    requires Shape(s) && Enabled(s, Advance(t)) && !IsEnqueue(s.threads[t]) && s' == DoAdvance(s, t)
    ensures !HoldsTail(s'.threads[t])
  {
    if IsDequeue(s.threads[t]) {
      DequeueTicket(s, s', t);
    } else if IsCatchUp(s.threads[t]) {
      CatchUpTicket(s, s', t);
    } else {
      assert s' == DoThreshold(s, t);
    }
  }

  lemma DequeueTicket(s: State, s': State, t: nat)
    requires Shape(s) && t < |s.threads| && IsDequeue(s.threads[t]) && s' == DoDequeue(s, t)
    ensures !HoldsTail(s'.threads[t])
  {
    match s.threads[t]
    case DeqTicket(known, spent) => assert s'.threads[t] == DeqLoad(known, spent + 1, s.head, 0);
    case DeqLoad(known, spent, ticket, attempts) => FollowTicket(s, s', t, known, spent, ticket, attempts);
    case DeqSwap(known, spent, ticket, attempts, entry, _) =>
      if WordAt(s, ticket) == entry {
        assert s'.threads[t] == AfterInnerLoop(known, spent, ticket);
      } else {
        FollowTicket(s, s', t, known, spent, ticket, attempts);
      }
    case DeqTake(_, _) => assert s'.threads[t].Done?;
  }

  lemma FollowTicket(s: State, s': State, t: nat, known: bool, spent: nat, ticket: nat, attempts: nat)
    requires Shape(s) && t < |s.threads| && s' == Follow(s, t, known, spent, ticket, attempts, WordAt(s, ticket))
    ensures !HoldsTail(s'.threads[t])
  {
    var entry := WordAt(s, ticket);
    match Judge(s.n, ticket, attempts, entry)
    case Take => assert s'.threads[t] == DeqTake(ticket, entry);
    case Reload => assert s'.threads[t] == DeqLoad(known, spent, ticket, attempts + 1);
    case Swap(replacement, attempts') => assert s'.threads[t] == DeqSwap(known, spent, ticket, attempts', entry, replacement);
    case Abandon => assert s'.threads[t] == AfterInnerLoop(known, spent, ticket);
  }

  lemma CatchUpTicket(s: State, s': State, t: nat)
    requires Shape(s) && t < |s.threads| && IsCatchUp(s.threads[t]) && s' == DoCatchUp(s, t)
    ensures !HoldsTail(s'.threads[t])
  {
  }

  lemma DrawnAtStep(run: seq<State>, m: nat, t: nat, tail: nat)
    requires IsRun(run) && m + 1 < |run| && DrawnSince(run[m], t, tail) && tail <= run[m].tail
    ensures DrawnSince(run[m + 1], t, tail)
  {
    RunKeepsInv(run, m);
    assert StepAt(run, m);
    StepKeepsDrawn(run[m], run[m + 1], t, tail);
  }

  lemma {:induction false} RunDraws(run: seq<State>, i: nat, m: nat, t: nat)
    requires IsRun(run) && i <= m < |run| && t < |run[i].threads| && !HasIndex(run[i].threads[t])
    ensures DrawnSince(run[m], t, run[i].tail)
  {
    if i == m {
    } else {
      RunDraws(run, i, m - 1, t);
      TailIsMonotone(run, i, m - 1);
      DrawnAtStep(run, m - 1, t, run[i].tail);
    }
  }

  /** First in, first out in real time: if an index has been stored at `first` before the enqueue that
      stores at `second` begins, then `first` is the lower ticket, and when `second` has been taken
      `first` has been taken too, or is in the hands of a dequeuer that drew its head ticket earlier. */
  lemma FirstInFirstOut(run: seq<State>, i: nat, j: nat, k: nat, t: nat, first: nat, second: nat)
    requires IsRun(run) && i < j <= k < |run| && first in run[i].stored && EnqueueCall(run, i, j, t, second)
    ensures first < second < run[j].tail
    ensures second in run[k].taken && first !in run[k].taken ==>
              && first < second < |run[k].headOwner|
              && var u := run[k].headOwner[first];
                 u < |run[k].threads| && HoldsHead(run[k].threads[u]) && run[k].threads[u].ticket == first
  {
    LowerTicket(run, i, j, t, first, second);
    RunEvolves(run, i, k);
    RunKeepsInv(run, k);
    if second in run[k].taken && first !in run[k].taken {
      InTheHands(run[k], first, second);
    }
  }

  lemma BelowTail(run: seq<State>, i: nat, ticket: nat)
    requires IsRun(run) && i < |run| && ticket in run[i].stored
    ensures ticket < run[i].tail
  {
    RunKeepsInv(run, i);
  }

  lemma LowerTicket(run: seq<State>, i: nat, j: nat, t: nat, first: nat, second: nat)
    requires IsRun(run) && i < j < |run| && first in run[i].stored && EnqueueCall(run, i, j, t, second)
    ensures first < second < run[j].tail
  {
    BelowTail(run, i, first);
    BelowTail(run, j, second);
    RunDraws(run, i, j - 1, t);
    assert DrawnSince(run[j - 1], t, run[i].tail);
  }

  /** A stored ticket below one that was taken has been drawn by a dequeuer. */
  lemma InTheHands(s: State, first: nat, second: nat)
    requires TicketsOwned(s) && HistorySound(s) && first < second && second in s.taken && first in s.stored && first !in s.taken
    ensures second < |s.headOwner|
    ensures var u := s.headOwner[first]; u < |s.threads| && HoldsHead(s.threads[u]) && s.threads[u].ticket == first
  {
    assert first < s.head && first !in s.abandoned;
  }
}
