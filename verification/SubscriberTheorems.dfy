/** What a subscriber promises over every run. */
module SubscriberTheorems {
  import opened Wrappers
  import opened Tally
  import opened Subscriber
  import opened SubscriberSafety

  // ---------------------------------------------------------------- over whole runs

  /** An inactive subscription stays so, its invocations only leave, and once there is none the
      callback is never entered again. */
  ghost predicate Evolves(s: State, s': State) {
    && (!s.active ==> !s'.active && s'.inFlight <= s.inFlight)
    && (!s.active && s.inFlight == 0 ==> s'.history.invoked == s.history.invoked)
    && s.history.invoked <= s'.history.invoked
    && (s.exited ==> s'.exited) && (s.mailbox.stopping ==> s'.mailbox.stopping)
    && (s'.mailbox.drain ==> s.mailbox.drain)
    && s'.policy == s.policy && |s'.threads| == |s.threads|
  }

  lemma StepEvolves(s: State, s': State)
    requires Inv(s) && Next(s, s')
    ensures Evolves(s, s')
  {
    var step :| Enabled(s, step) && s' == Do(s, step);
    StepKeeps(s, s', step);
    InsideCounts(s, step.thread);
  }

  lemma StepAtEvolves(run: seq<State>, i: nat)
    requires IsRun(run) && 0 < i < |run|
    ensures Evolves(run[i - 1], run[i])
  {
    RunKeepsInv(run, i - 1);
    assert StepAt(run, i - 1);
    StepEvolves(run[i - 1], run[i]);
  }

  lemma EvolvesOn(a: State, b: State, c: State)
    requires Evolves(a, b) && Evolves(b, c)
    ensures Evolves(a, c)
  {
  }

  lemma {:induction false} RunEvolves(run: seq<State>, i: nat, j: nat)
    requires IsRun(run) && i <= j < |run|
    ensures Evolves(run[i], run[j])
  {
    if i == j {
    } else {
      RunEvolves(run, i, j - 1);
      StepAtEvolves(run, j);
      EvolvesOn(run[i], run[j - 1], run[j]);
    }
  }

  // ---------------------------------------------------------------- synchronous unsubscribe

  lemma NoneInFlight(s: State, t: nat)
    requires Counted(s) && t < |s.threads|
    ensures s.inFlight == Sum(InFlight, s.threads)
    ensures InCallback(s.threads[t]) ==> s.inFlight > 0
  {
    SumCovers(InFlight, s.threads, t);
    if InCallback(s.threads[t]) {
      CallbackIsInFlight(s.threads[t]);
    }
  }

  lemma {:induction false} CallbackIsInFlight(k: Stack)
    requires InCallback(k)
    ensures InFlight(k) > 0
  {
    if !(k.top.Invocation? && k.top.i.Running?) {
      CallbackIsInFlight(k.rest);
    }
  }

  /** `in_flight_` is the number of admitted invocations, and once the subscription is inactive it
      only falls: nothing is admitted any more. */
  lemma InFlightCountsAdmitted(run: seq<State>, i: nat, j: nat)
    requires IsRun(run) && i <= j < |run|
    ensures run[i].inFlight == Sum(InFlight, run[i].threads)
    ensures !run[i].active ==> !run[j].active && run[j].inFlight <= run[i].inFlight
  {
    RunKeepsInv(run, i);
    RunEvolves(run, i, j);
  }

  /** When an unsubscribe that was not called from the subscriber's own callback may return, no
      thread is in the callback, none ever is again, and the callback is never entered again. */
  lemma UnsubscribeIsSynchronous(run: seq<State>, i: nat, j: nat, t: nat, self: bool, u: nat)
    requires IsRun(run) && i <= j < |run| && t < |run[i].threads| && u < |run[j].threads|
    requires run[i].threads[t].On? && run[i].threads[t].top == Control(Waiting(Unsubscribed(self)))
    requires !InCallback(run[i].threads[t].rest) && MayAdvance(run[i], t, run[i].threads[t].top)
    ensures run[j].inFlight == 0 && !run[j].active
    ensures !InCallback(run[j].threads[u])
    ensures run[j].history.invoked == run[i].history.invoked
  {
    RunKeepsInv(run, i);
    InsideCounts(run[i], t);
    assert ShapeOf(run[i], t);
    RunEvolves(run, i, j);
    RunKeepsInv(run, j);
    NoneInFlight(run[j], u);
  }

  /** The retirement callback runs at most once, and has run when no unsubscribe is about to run it. */
  lemma RetiresOnce(run: seq<State>, i: nat)
    requires IsRun(run) && i < |run|
    ensures run[i].retirements <= 1
    ensures !run[i].active && (forall t | 0 <= t < |run[i].threads| :: Retiring(run[i].threads[t]) == 0) ==> run[i].retirements == 1
  {
    RunKeepsInv(run, i);
    if forall t | 0 <= t < |run[i].threads| :: Retiring(run[i].threads[t]) == 0 {
      SumZero(Retiring, run[i].threads);
    }
  }

  // ---------------------------------------------------------------- metrics

  predicate AtRest(k: Stack) {
    k.Nil? || AtLoop(k)
  }

  /** Every offered event is delivered, dropped, rejected, in the mailbox, or in the hands of one
      frame of one thread; every entry into the callback is counted as delivered once, thrown or
      not, or is under way.  When all threads are at rest the balance is exact. */
  lemma MetricsBalance(run: seq<State>, i: nat)
    requires IsRun(run) && i < |run|
    ensures var s, m := run[i], run[i].metrics;
            && m.offered == m.delivered + m.dropped + m.rejected + |s.mailbox.events| + Sum(InTransit, s.threads)
            && |s.history.invoked| == m.delivered + Sum(UnderWay, s.threads)
            && m.errors <= m.delivered + Sum(CountingIn, s.threads)
            && ((forall t | 0 <= t < |s.threads| :: AtRest(s.threads[t])) ==>
                  && m.offered == m.delivered + m.dropped + m.rejected + |s.mailbox.events|
                  && m.errors <= m.delivered == |s.history.invoked|)
  {
    RunKeepsInv(run, i);
    if forall t | 0 <= t < |run[i].threads| :: AtRest(run[i].threads[t]) {
      StartCounts(run[i].threads);
    }
  }

  // ---------------------------------------------------------------- the isolated mailbox

  /** The mailbox never exceeds its capacity, and its entries leave it in the order of acceptance:
      taken by the executor, then cleared, then still there; the callback gets the taken ones in order. */
  lemma MailboxIsFifo(run: seq<State>, i: nat)
    requires IsRun(run) && i < |run|
    ensures var s, h := run[i], run[i].history;
            && |s.mailbox.events| <= s.capacity
            && h.accepted == h.taken + h.cleared + s.mailbox.events
            && (s.policy.Isolated? ==> h.invoked <= h.taken && h.invoked <= h.accepted)
  {
    RunKeepsInv(run, i);
  }

  /** If the only stop was a drain and the subscription is still active, the executor exits having
      given the callback exactly the accepted events, in order. */
  lemma DrainInvokesAll(run: seq<State>, i: nat)
    requires IsRun(run) && i < |run| && run[i].policy.Isolated? && run[i].exited
    ensures run[i].mailbox.events == [] && run[i].history.accepted == run[i].history.taken + run[i].history.cleared
    ensures run[i].active ==> run[i].history.accepted == run[i].history.invoked + run[i].history.cleared
    ensures run[i].active && run[i].mailbox.drain ==> run[i].history.invoked == run[i].history.accepted
  {
    RunKeepsInv(run, i);
  }

  // ---------------------------------------------------------------- exclusion

  lemma {:induction false} CallbackIsEntered(k: Stack)
    requires InCallback(k)
    ensures Entered(k) > 0
  {
    if !(k.top.Invocation? && k.top.i.Running?) {
      CallbackIsEntered(k.rest);
    }
  }

  lemma SerialExcludes(s: State, t: nat, u: nat)
    requires Counted(s) && s.policy.Serialized? && t < u < |s.threads|
    ensures !InCallback(s.threads[t]) || !InCallback(s.threads[u])
  {
    SumCoversTwo(Entered, s.threads, t, u);
    if InCallback(s.threads[t]) && InCallback(s.threads[u]) {
      CallbackIsEntered(s.threads[t]);
      CallbackIsEntered(s.threads[u]);
      assert false;
    }
  }

  lemma IsolatedExcludes(s: State, t: nat)
    requires s.policy.Isolated? && 0 < t < |s.threads| && ShapeOf(s, t)
    ensures !InCallback(s.threads[t])
  {
  }

  /** Under the serialized and the isolated policy two threads are never in the callback together;
      under the isolated policy only the executor ever is. */
  lemma CallbacksDoNotOverlap(run: seq<State>, i: nat, t: nat, u: nat)
    requires IsRun(run) && i < |run| && t < u < |run[i].threads| && !run[i].policy.Concurrent?
    ensures !InCallback(run[i].threads[t]) || !InCallback(run[i].threads[u])
    ensures run[i].policy.Isolated? ==> !InCallback(run[i].threads[u])
  {
    RunKeepsInv(run, i);
    if run[i].policy.Serialized? {
      SerialExcludes(run[i], t, u);
    } else {
      assert ShapeOf(run[i], u);
      IsolatedExcludes(run[i], u);
    }
  }
}
