/** What the lock-free queue promises over every run. */
module LockFreeTheorems {
  import opened Wrappers
  import opened Tally
  import opened LockFreeQueue
  import opened LockFreeSafety

  // ---------------------------------------------------------------- indices

  lemma {:induction false} BagFinds(threads: seq<Local>, x: nat) returns (t: nat)
    requires Bag(Hand, threads)[x] > 0
    ensures t < |threads| && SlotOf(threads[t]) == Some(x)
  {
    if Hand(threads[0])[x] > 0 {
      t := 0;
    } else {
      var u := BagFinds(threads[1..], x);
      t := u + 1;
    }
  }

  ghost predicate Held(s: State, x: nat) {
    exists t :: 0 <= t < |s.threads| && SlotOf(s.threads[t]) == Some(x)
  }

  /** In every reachable state each index is in exactly one place: once in one of the two rings, or
      in the hands of one thread.  So the rings together never hold more than all the indices. */
  lemma IndexConservation(run: seq<State>, i: nat, x: nat)
    requires IsRun(run) && i < |run| && x < run[i].capacity
    ensures var s := run[i];
            && multiset(s.available)[x] + multiset(s.published)[x] == (if Held(s, x) then 0 else 1)
            && (forall t, u | 0 <= t < |s.threads| && 0 <= u < |s.threads| && t != u ::
                  SlotOf(s.threads[t]) != Some(x) || SlotOf(s.threads[u]) != Some(x))
            && |s.available| + |s.published| <= s.capacity
  {
    RunKeepsInv(run, i);
    PlacesOf(run[i], x);
    RingsFit(run[i]);
  }

  lemma PlacesOf(s: State, x: nat)
    requires Conserved(s) && x < s.capacity
    ensures multiset(s.available)[x] + multiset(s.published)[x] == (if Held(s, x) then 0 else 1)
    ensures forall t, u | 0 <= t < |s.threads| && 0 <= u < |s.threads| && t != u ::
              SlotOf(s.threads[t]) != Some(x) || SlotOf(s.threads[u]) != Some(x)
  {
    assert Range(s.capacity)[x] == multiset(s.available)[x] + multiset(s.published)[x] + Bag(Hand, s.threads)[x];
    if Bag(Hand, s.threads)[x] > 0 {
      var t := BagFinds(s.threads, x);
      assert Held(s, x);
    }
    forall t | 0 <= t < |s.threads| && SlotOf(s.threads[t]) == Some(x)
      ensures Bag(Hand, s.threads)[x] > 0
      ensures forall u | 0 <= u < |s.threads| && u != t :: SlotOf(s.threads[u]) != Some(x)
    {
      BagCovers(Hand, s.threads, t);
      OwnSlot(s, t);
    }
  }

  // ---------------------------------------------------------------- lifetimes

  lemma {:induction false} OccupyingFits(threads: seq<Local>)
    ensures Sum(Occupying, threads) <= |Bag(Hand, threads)|
  {
    if threads == [] {
    } else {
      OccupyingFits(threads[1..]);
    }
  }

  /** No event is ever constructed over a live one, or moved from or destroyed in an empty slot;
      the count of occupied slots never underflows and never exceeds the capacity. */
  lemma LifetimesAreSafe(run: seq<State>, i: nat, t: nat)
    requires IsRun(run) && i < |run| && t < |run[i].threads|
    ensures var s, l := run[i], run[i].threads[t];
            && (l.Producer? && l.p.Construct? ==> l.p.slot < |s.slots| && s.slots[l.p.slot] == None)
            && (l.Producer? && l.p.Publish? ==> Live(s, l.p.slot))
            && (l.Consumer? && (l.c.MoveOut? || l.c.Destroy?) ==> Live(s, l.c.slot))
            && (l.Closer? && l.k.SweepDestroy? ==> Live(s, l.k.slot))
            && (Occupying(l) == 1 ==> s.occupied > 0)
            && s.occupied <= s.capacity
            && !s.fault
  {
    RunKeepsInv(run, i);
    var s := run[i];
    assert HandSound(s, s.threads[t]);
    InsideCounts(s, t);
    OccupiedFits(s);
  }

  lemma OccupiedFits(s: State)
    requires Conserved(s) && Counted(s)
    ensures s.occupied <= s.capacity
  {
    OccupyingFits(s.threads);
    assert |Range(s.capacity)| == |multiset(s.available)| + |multiset(s.published)| + |Bag(Hand, s.threads)|;
  }

  // ---------------------------------------------------------------- over whole runs

  /** Accepted events stay accepted in order, a settled fate is final, a closed gate stays closed
      and admits nobody, and once no producer is left the published ring only shrinks. */
  ghost predicate Evolves(s: State, s': State) {
    && s.accepted <= s'.accepted
    && FateEvolves(s.fate, s'.fate)
    && GateEvolves(s.producers, s'.producers)
    && GateEvolves(s.consumers, s'.consumers)
    && (s.quiesced ==> s'.quiesced)
    && (Shut(s.producers) ==> s'.accepted == s.accepted && |s'.published| <= |s.published|)
    && (s.swept ==> s'.swept)
  }

  ghost predicate FateEvolves(f: seq<Fate>, f': seq<Fate>) {
    && |f| <= |f'|
    && forall k | 0 <= k < |f| :: f[k] == f'[k] || f[k] == InHand
  }

  ghost predicate GateEvolves(g: Gate, g': Gate) {
    g.closed ==> g'.closed && g'.active <= g.active
  }

  lemma EffectEvolves(s: State, s': State, t: nat, move: Move)
    requires Effect(s, s', t, move) && HandSound(s, s.threads[t])
    ensures s.accepted <= s'.accepted && FateEvolves(s.fate, s'.fate)
  {
  }

  lemma StepEvolves(s: State, s': State)
    requires Inv(s) && Next(s, s')
    ensures Evolves(s, s')
  {
    var step :| Enabled(s, step) && s' == Do(s, step);
    var move := StepKeeps(s, s', step);
    assert HandSound(s, s.threads[step.thread]);
    EffectEvolves(s, s', step.thread, move);
  }

  lemma EvolvesOn(a: State, b: State, c: State)
    requires Evolves(a, b) && Evolves(b, c)
    ensures Evolves(a, c)
  {
  }

  lemma StepAtEvolves(run: seq<State>, i: nat)
    requires IsRun(run) && 0 < i < |run| && Inv(run[i - 1])
    ensures Evolves(run[i - 1], run[i])
  {
    assert StepAt(run, i - 1);
    StepEvolves(run[i - 1], run[i]);
  }

  lemma {:induction false} RunEvolves(run: seq<State>, i: nat, j: nat)
    requires IsRun(run) && i <= j < |run|
    ensures Evolves(run[i], run[j])
  {
    if i == j {
    } else {
      RunEvolves(run, i, j - 1);
      RunKeepsInv(run, j - 1);
      StepAtEvolves(run, j);
      EvolvesOn(run[i], run[j - 1], run[j]);
    }
  }

  // ---------------------------------------------------------------- accepted events

  ghost predicate Settled(s: State) {
    multiset(s.fate)[Delivered] == s.pops && multiset(s.fate)[Dropped] == s.discards
  }

  lemma SettleOne(f: seq<Fate>, k: nat, end: Fate)
    requires k < |f| && f[k] == InHand && end != InHand
    ensures multiset(f[k := end]) == multiset(f) - multiset{InHand} + multiset{end}
  {
  }

  lemma EffectSettles(s: State, s': State, t: nat, move: Move)
    requires Effect(s, s', t, move) && HandSound(s, s.threads[t]) && Settled(s)
    ensures Settled(s')
  {
    var k := TicketOf(s.threads[t]);
    if k.Some? && TicketOf(s'.threads[t]).None? {
      SettleOne(s.fate, k.value, s'.fate[k.value]);
    } else if move == Claimed {
      assert multiset(s'.fate) == multiset(s.fate) + multiset{InHand};
    }
  }

  lemma {:induction false} RunSettles(run: seq<State>, i: nat)
    requires IsRun(run) && i < |run|
    ensures Settled(run[i])
  {
    if i == 0 {
    } else {
      RunSettles(run, i - 1);
      RunKeepsInv(run, i - 1);
      StepSettles(run, i);
    }
  }

  lemma NextSettles(s: State, s': State)
    requires Inv(s) && Next(s, s') && Settled(s)
    ensures Settled(s')
  {
    var step :| Enabled(s, step) && s' == Do(s, step);
    var move := StepKeeps(s, s', step);
    assert HandSound(s, s.threads[step.thread]);
    EffectSettles(s, s', step.thread, move);
  }

  lemma StepSettles(run: seq<State>, i: nat)
    requires IsRun(run) && 0 < i < |run| && Inv(run[i - 1]) && Settled(run[i - 1])
    ensures Settled(run[i])
  {
    assert StepAt(run, i - 1);
    NextSettles(run[i - 1], run[i]);
  }

  /** Every accepted event leaves exactly once: it is still published, in the hands of one thread,
      popped, or discarded; the pops and discards that were counted are those of different events;
      and what has been popped or discarded stays so. */
  lemma AcceptedLeaveOnce(run: seq<State>, i: nat, j: nat)
    requires IsRun(run) && i <= j < |run|
    ensures run[i].accepted <= run[j].accepted
    ensures FateEvolves(run[i].fate, run[j].fate)
    ensures var s := run[i];
            && |s.accepted| == s.pops + s.discards + Sum(Carrying, s.threads) + |s.published|
            && multiset(s.fate)[Delivered] == s.pops && multiset(s.fate)[Dropped] == s.discards
  {
    RunEvolves(run, i, j);
    RunKeepsInv(run, i);
    RunSettles(run, i);
  }

  /** A pop claims the oldest accepted event that nobody has claimed, and that event is what it
      moves out, and what it answers, having delivered it. */
  lemma PopsAreInOrder(run: seq<State>, i: nat, t: nat)
    requires IsRun(run) && i < |run| && t < |run[i].threads|
    ensures var s, l := run[i], run[i].threads[t];
            && (l == Consumer(Claim) && s.published != [] ==>
                  |s.fate| < |s.accepted| && s.published[0] < |s.slots| && s.slots[s.published[0]] == Some(s.accepted[|s.fate|]))
            && (l.Consumer? && l.c.MoveOut? ==>
                  l.c.ticket < |s.accepted| && Live(s, l.c.slot) && s.slots[l.c.slot].value == s.accepted[l.c.ticket])
            && (l.Consumer? && l.c.Destroy? ==> l.c.ticket < |s.accepted| && l.c.event == s.accepted[l.c.ticket])
            && (l.Done? && l.outcome.Popped? ==>
                  && l.outcome.ticket < |s.fate| <= |s.accepted|
                  && s.fate[l.outcome.ticket] == Delivered && s.accepted[l.outcome.ticket] == l.outcome.event)
  {
    RunKeepsInv(run, i);
    assert HandSound(run[i], run[i].threads[t]);
  }

  /** The event at this ticket has been answered by thread t, and nobody else will answer it. */
  ghost predicate Spent(s: State, t: nat, ticket: nat) {
    && ticket < |s.fate| && s.fate[ticket] == Delivered
    && forall u | 0 <= u < |s.threads| && AnswerOf(s.threads[u]).Some? ::
         AnswerOf(s.threads[u]).value.ticket == ticket ==> u == t && s.threads[u].Done?
  }

  lemma RestingForgets(s: State, s': State, step: Step)
    requires Enabled(s, step) && s' == Do(s, step) && s.threads[step.thread].Done?
    ensures step.thread < |s'.threads| && AnswerOf(s'.threads[step.thread]).None?
  {
  }

  /** The thread that moved does not answer the spent event anew. */
  lemma MoverIsSpent(s: State, s': State, step: Step, t: nat, ticket: nat)
    requires Inv(s) && Enabled(s, step) && s' == Do(s, step) && |s'.threads| == |s.threads| && Spent(s, t, ticket)
    ensures var l := s'.threads[step.thread];
            AnswerOf(l).Some? && AnswerOf(l).value.ticket == ticket ==> step.thread == t && l.Done?
  {
    var x := step.thread;
    var move := StepKeeps(s, s', step);
    assert HandSound(s, s.threads[x]);
    if s.threads[x].Done? {
      RestingForgets(s, s', step);
    }
  }

  lemma StepKeepsSpent(s: State, s': State, t: nat, ticket: nat)
    requires Inv(s) && Next(s, s') && Spent(s, t, ticket)
    ensures Spent(s', t, ticket)
  {
    StepEvolves(s, s');
    var step :| Enabled(s, step) && s' == Do(s, step);
    OthersStay(s, s', step);
    MoverIsSpent(s, s', step, t, ticket);
  }

  lemma OthersStay(s: State, s': State, step: Step)
    requires Inv(s) && Enabled(s, step) && s' == Do(s, step)
    ensures |s'.threads| == |s.threads|
    ensures forall u | 0 <= u < |s.threads| && u != step.thread :: s'.threads[u] == s.threads[u]
  {
    var move := StepKeeps(s, s', step);
  }

  lemma SpentAtStep(run: seq<State>, i: nat, t: nat, ticket: nat)
    requires IsRun(run) && 0 < i < |run| && Inv(run[i - 1]) && Spent(run[i - 1], t, ticket)
    ensures Spent(run[i], t, ticket)
  {
    assert StepAt(run, i - 1);
    StepKeepsSpent(run[i - 1], run[i], t, ticket);
  }

  lemma {:induction false} SpentForGood(run: seq<State>, i: nat, j: nat, t: nat, ticket: nat)
    requires IsRun(run) && i <= j < |run| && Spent(run[i], t, ticket)
    ensures Spent(run[j], t, ticket)
  {
    if i == j {
    } else {
      SpentForGood(run, i, j - 1, t, ticket);
      RunKeepsInv(run, j - 1);
      SpentAtStep(run, j, t, ticket);
    }
  }

  /** The step after i completes a pop of thread t with the event at this ticket. */
  ghost predicate PopReturns(run: seq<State>, i: nat, t: nat, ticket: nat) {
    && i + 1 < |run| && t < |run[i].threads| && t < |run[i + 1].threads|
    && run[i].threads[t].Consumer? && run[i + 1].threads[t].Done?
    && AnswerOf(run[i].threads[t]).Some? && AnswerOf(run[i].threads[t]).value.ticket == ticket
    && AnswerOf(run[i + 1].threads[t]) == AnswerOf(run[i].threads[t])
  }

  /** Two pops never answer the same accepted event, by whichever threads and whenever. */
  lemma AnswersAreDistinct(run: seq<State>, i: nat, j: nat, t: nat, u: nat, first: nat, second: nat)
    requires IsRun(run) && i <= j && (i < j || t != u) && PopReturns(run, i, t, first) && PopReturns(run, j, u, second)
    ensures first != second
  {
    if i == j {
      RunKeepsInv(run, i);
    } else {
      RunKeepsInv(run, i + 1);
      assert HandSound(run[i + 1], run[i + 1].threads[t]);
      if first == second {
        SpentForGood(run, i + 1, j, t, first);
        assert false;
      }
    }
  }

  // ---------------------------------------------------------------- the gates

  /** Once the closed bit is set nobody enters; when `close_gate` returns there is nobody inside,
      and then nothing more is accepted, ever. */
  lemma ClosedGateAdmitsNobody(run: seq<State>, i: nat, j: nat)
    requires IsRun(run) && i <= j < |run|
    ensures GateEvolves(run[i].producers, run[j].producers) && GateEvolves(run[i].consumers, run[j].consumers)
    ensures run[i].quiesced ==> Shut(run[i].producers)
    ensures Shut(run[i].producers) ==>
              && (forall t | 0 <= t < |run[j].threads| :: !run[j].threads[t].Producer?)
              && run[j].accepted == run[i].accepted && |run[j].published| <= |run[i].published|
  {
    RunEvolves(run, i, j);
    RunKeepsInv(run, i);
    RunKeepsInv(run, j);
    forall t | 0 <= t < |run[j].threads| && Shut(run[i].producers)
      ensures !run[j].threads[t].Producer?
    {
      SumCovers(Producing, run[j].threads, t);
    }
  }

  lemma GateReturnsAlone(run: seq<State>, i: nat, t: nat, u: nat)
    requires IsRun(run) && i < |run| && t < |run[i].threads| && u < |run[i].threads| && run[i].threads[t].Closer?
    ensures run[i].threads[t].k.Quiesce? ==> !run[i].threads[u].Producer?
    ensures Sweeping(run[i].threads[t].k) ==> !run[i].threads[u].Producer? && !run[i].threads[u].Consumer?
  {
    RunKeepsInv(run, i);
    assert PhaseSound(run[i], run[i].threads[t]);
    SumCovers(Producing, run[i].threads, u);
    SumCovers(Consuming, run[i].threads, u);
  }

  predicate Sweeping(k: CloserPoint) {
    k.Sweep? || k.SweepDestroy? || k.SweepCountDown? || k.SweepRelease?
  }

  // ---------------------------------------------------------------- discard

  /** With both gates shut and the published ring empty, and nobody in the middle of a sweep,
      every thread's hands are empty. */
  lemma NobodyInside(s: State)
    requires Counted(s) && Shut(s.producers) && Shut(s.consumers)
    ensures forall t | 0 <= t < |s.threads| :: !s.threads[t].Producer? && !s.threads[t].Consumer?
  {
    forall t | 0 <= t < |s.threads|
      ensures !s.threads[t].Producer? && !s.threads[t].Consumer?
    {
      SumCovers(Producing, s.threads, t);
      SumCovers(Consuming, s.threads, t);
    }
  }

  lemma HandsEmpty(s: State)
    requires Counted(s) && Shut(s.producers) && Shut(s.consumers)
    requires forall t | 0 <= t < |s.threads| && s.threads[t].Closer? :: !Sweeping(s.threads[t].k) || s.threads[t].k.Sweep?
    ensures forall t | 0 <= t < |s.threads| :: Hand(s.threads[t]) == multiset{} && Carrying(s.threads[t]) == 0
  {
    NobodyInside(s);
  }

  lemma SweptBalance(s: State)
    requires Inv(s) && s.quiesced && Shut(s.consumers)
    requires forall t | 0 <= t < |s.threads| && s.threads[t].Closer? :: !Sweeping(s.threads[t].k) || s.threads[t].k.Sweep?
    ensures |s.accepted| == s.pops + s.discards + |s.published|
    ensures multiset(s.available) + multiset(s.published) == Range(s.capacity)
    ensures |s.available| + |s.published| == s.capacity
  {
    HandsEmpty(s);
    SumZero(Carrying, s.threads);
    BagEmpty(Hand, s.threads);
    assert |multiset(s.available) + multiset(s.published)| == |Range(s.capacity)|;
  }

  /** When `close_and_discard` is about to return, every accepted event was popped or discarded or is
      still published, every index is available or published, and the answer is what this call has
      discarded.  So the balance is full exactly when nothing is published. */
  lemma DiscardBalances(run: seq<State>, i: nat, t: nat, count: nat)
    requires IsRun(run) && i < |run| && t < |run[i].threads| && run[i].threads[t] == Closer(Unlock(Discarded(count)))
    ensures var s := run[i];
            && |s.accepted| == s.pops + s.discards + |s.published|
            && multiset(s.available) + multiset(s.published) == Range(s.capacity)
            && (|s.accepted| == s.pops + s.discards <==> s.published == [])
            && (|s.available| == s.capacity <==> s.published == [])
            && s.discards == s.reported + count
  {
    RunKeepsInv(run, i);
    var s := run[i];
    assert PhaseSound(s, s.threads[t]) && s.lock == Some(t);
    SweptBalance(s);
  }

  /** At every moment up to i at most twice as many consumers were inside as there are slots. */
  ghost predicate FewConsumers(run: seq<State>, i: nat)
    requires i < |run|
  {
    forall j | 0 <= j <= i :: run[j].consumers.active <= 2 * run[j].capacity
  }

  /** The same for producers. */
  ghost predicate FewProducers(run: seq<State>, i: nat)
    requires i < |run|
  {
    forall j | 0 <= j <= i :: run[j].producers.active <= 2 * run[j].capacity
  }

  /** There were once more producers inside than the ring allows for. */
  ghost predicate Pressed(s: State) {
    s.mostProducers > 2 * s.capacity
  }

  /** The most threads that were ever inside a gate, after one more step. */
  ghost predicate MostFollow(s: State, s': State) {
    && s'.mostConsumers == Most(s.mostConsumers, s'.consumers.active)
    && s'.mostProducers == Most(s.mostProducers, s'.producers.active)
  }

  ghost predicate MostSound(s: State) {
    s.consumers.active <= s.mostConsumers && s.producers.active <= s.mostProducers
  }

  lemma MostStep(s: State, s': State)
    requires Inv(s) && MostSound(s) && Next(s, s')
    ensures MostFollow(s, s') && s'.capacity == s.capacity
  {
    var step :| Enabled(s, step) && s' == Do(s, step);
    var move := StepKeeps(s, s', step);
    MostAfter(s, s', step.thread, move);
  }

  lemma MostAfter(s: State, s': State, t: nat, move: Move)
    requires MostSound(s) && Keeps(s, s', t, move)
    ensures MostFollow(s, s')
  {
    assert MostFollows(s, s', s.threads[t], s'.threads[t]) && CountsFollow(s, s', s.threads[t], s'.threads[t]);
  }

  lemma MostAtStep(run: seq<State>, i: nat)
    requires IsRun(run) && 0 < i < |run| && Inv(run[i - 1]) && MostSound(run[i - 1])
    ensures MostFollow(run[i - 1], run[i]) && run[i].capacity == run[i - 1].capacity
  {
    assert StepAt(run, i - 1);
    MostStep(run[i - 1], run[i]);
  }

  lemma {:induction false} RunMost(run: seq<State>, i: nat)
    requires IsRun(run) && i < |run|
    ensures MostSound(run[i])
  {
    if i == 0 {
    } else {
      RunMost(run, i - 1);
      RunKeepsInv(run, i - 1);
      MostAtStep(run, i);
    }
  }

  /** The bounds on consumers and on producers, told by the most that were ever inside. */
  lemma {:induction false} FewExactly(run: seq<State>, i: nat)
    requires IsRun(run) && i < |run|
    ensures FewConsumers(run, i) <==> !Crowded(run[i])
    ensures FewProducers(run, i) <==> !Pressed(run[i])
  {
    if i == 0 {
    } else {
      FewExactly(run, i - 1);
      MostGrows(run, i);
      FewGrows(run, i);
      MostBound(run[i - 1], run[i]);
    }
  }

  lemma MostGrows(run: seq<State>, i: nat)
    requires IsRun(run) && 0 < i < |run|
    ensures MostFollow(run[i - 1], run[i]) && run[i].capacity == run[i - 1].capacity
  {
    RunKeepsInv(run, i - 1);
    RunMost(run, i - 1);
    MostAtStep(run, i);
  }

  lemma MostBound(s: State, s': State)
    requires MostFollow(s, s') && s'.capacity == s.capacity
    ensures !Crowded(s') <==> !Crowded(s) && s'.consumers.active <= 2 * s'.capacity
    ensures !Pressed(s') <==> !Pressed(s) && s'.producers.active <= 2 * s'.capacity
  {
  }

  lemma FewGrows(run: seq<State>, i: nat)
    requires 0 < i < |run| && run[i].capacity == run[i - 1].capacity
    ensures FewConsumers(run, i) <==> FewConsumers(run, i - 1) && run[i].consumers.active <= 2 * run[i].capacity
    ensures FewProducers(run, i) <==> FewProducers(run, i - 1) && run[i].producers.active <= 2 * run[i].capacity
  {
  }

  /** If never more than 2n consumers were inside at once, `close_and_discard` is complete: every
      accepted event was popped or discarded and all n indices are available.  A later call then
      discards nothing, and the balance is final. */
  lemma DiscardIsComplete(run: seq<State>, i: nat, t: nat, count: nat)
    requires IsRun(run) && i < |run| && t < |run[i].threads| && run[i].threads[t] == Closer(Unlock(Discarded(count)))
    requires FewConsumers(run, i)
    ensures var s := run[i];
            && s.published == [] && |s.accepted| == s.pops + s.discards
            && multiset(s.available) == Range(s.capacity) && |s.available| == s.capacity
            && (s.swept ==> count == 0)
  {
    DiscardBalances(run, i, t, count);
    FewExactly(run, i);
    RunKeepsInv(run, i);
    var s := run[i];
    assert PhaseSound(s, s.threads[t]);
    assert multiset(s.published) == multiset{};
  }

  lemma RepeatDiscardsNothing(run: seq<State>, i: nat, j: nat, t: nat, count: nat)
    requires IsRun(run) && i <= j < |run| && run[i].swept && FewConsumers(run, j)
    requires t < |run[j].threads| && run[j].threads[t] == Closer(Unlock(Discarded(count)))
    ensures count == 0 && run[j].pops + run[j].discards == |run[i].accepted|
  {
    RunKeepsInv(run, i);
    RunEvolves(run, i, j);
    DiscardIsComplete(run, j, t, count);
  }
}
