/** What the dispatcher promises over every run. */
module DispatcherTheorems {
  import opened Wrappers
  import opened Tally
  import opened BoundedFifo
  import opened Dispatcher
  import opened DispatcherSafety

  // ---------------------------------------------------------------- lifecycle

  /** The lifecycle only moves forward, and the policy of the first caller stays. */
  ghost predicate Evolves(s: State, s': State) {
    && Rank(s.lifecycle) <= Rank(s'.lifecycle)
    && (s.trace.policy.Some? ==> s'.trace.policy == s.trace.policy)
    && |s'.threads| == |s.threads|
  }

  lemma StepEvolves(s: State, s': State)
    requires Inv(s) && Next(s, s')
    ensures Evolves(s, s')
  {
    var step :| Enabled(s, step) && s' == Do(s, step);
    if !step.Subscribe? {
      StepKeeps(s, s', step);
    }
  }

  lemma StepAtEvolves(run: seq<State>, i: nat)
    requires IsRun(run) && 0 < i < |run|
    ensures Evolves(run[i - 1], run[i])
  {
    RunKeepsInv(run, i - 1);
    assert StepAt(run, i - 1);
    StepEvolves(run[i - 1], run[i]);
  }

  lemma {:induction false} RunEvolves(run: seq<State>, i: nat, j: nat)
    requires IsRun(run) && i <= j < |run|
    ensures Evolves(run[i], run[j])
  {
    if i == j {
    } else {
      RunEvolves(run, i, j - 1);
      StepAtEvolves(run, j);
    }
  }

  /** The first policy wins, for ever: while stopping the lifecycle names it; the lifecycle never goes
      back; and a call of `shutdown` that has returned left the dispatcher stopped for good. */
  lemma FirstPolicyWins(run: seq<State>, i: nat, j: nat, t: nat)
    requires IsRun(run) && i <= j < |run| && t < |run[i].threads|
    ensures Rank(run[i].lifecycle) <= Rank(run[j].lifecycle)
    ensures run[i].lifecycle != Running ==>
              && run[i].trace.policy.Some? && run[j].trace.policy == run[i].trace.policy
              && (run[j].lifecycle == StoppingFor(run[i].trace.policy.value) || run[j].lifecycle == Stopped)
    ensures run[i].threads[t] == Closer(Returned) ==> run[j].lifecycle == Stopped
  {
    RunEvolves(run, i, j);
    RunKeepsInv(run, i);
    RunKeepsInv(run, j);
    assert PhaseSound(run[i], run[i].threads[t]);
  }

  // ---------------------------------------------------------------- accounting

  /** At any time: what was accepted and counted, or is about to be counted, has been broadcast, is in
      the batch of a worker, has been discarded, or is queued. */
  lemma EveryEventIsSomewhere(run: seq<State>, i: nat)
    requires IsRun(run) && i < |run|
    ensures var s := run[i];
            && s.trace.enqueued == s.trace.taken + s.trace.discarded + s.q.events
            && s.metrics.accepted + Sum(ToCount, s.threads)
               == s.trace.broadcast + Sum(InBatch, s.threads) + s.metrics.dropped + Sum(ToDrop, s.threads) + |s.q.events|
  {
    RunKeepsInv(run, i);
  }

  predicate ProducersQuiet(threads: seq<Local>) {
    forall t | 0 <= t < |threads| && threads[t].Producer? :: BetweenCalls(threads[t].p)
  }

  /** After shutdown, once the publishing calls have returned, accepted events were broadcast or
      dropped, and under drain none was dropped: every accepted event was taken, in order. */
  lemma ShutdownBalances(run: seq<State>, i: nat)
    requires IsRun(run) && i < |run| && run[i].lifecycle == Stopped && ProducersQuiet(run[i].threads)
    ensures var s := run[i];
            && s.metrics.accepted == s.trace.broadcast + s.metrics.dropped
            && s.q.events == []
            && (s.trace.policy == Some(Drain) ==> s.metrics.dropped == 0 && s.trace.taken == s.trace.enqueued)
            && AllExited(s.threads)
  {
    RunKeepsInv(run, i);
    StoppedHoldsNothing(run[i]);
    StoppedIsEmpty(run[i]);
  }

  lemma StoppedHoldsNothing(s: State)
    requires Counted(s) && s.lifecycle == Stopped && AllExited(s.threads) && ProducersQuiet(s.threads)
    ensures Sum(ToCount, s.threads) == Sum(InBatch, s.threads) == Sum(ToDrop, s.threads) == 0
  {
    forall t | 0 <= t < |s.threads|
      ensures ToCount(s.threads[t]) == InBatch(s.threads[t]) == ToDrop(s.threads[t]) == 0
    {
      SumCovers(Leading, s.threads, t);
    }
    SumZero(ToCount, s.threads);
    SumZero(InBatch, s.threads);
    SumZero(ToDrop, s.threads);
  }

  /** An exited worker saw the queue closed and empty. */
  lemma StoppedIsEmpty(s: State)
    requires Inv(s) && s.lifecycle == Stopped
    ensures s.q.closed && s.q.events == []
  {
    var t :| 0 <= t < |s.threads| && s.threads[t].Worker?;
    assert PhaseSound(s, s.threads[t]);
  }
}
