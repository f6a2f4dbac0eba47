/** What the calls of the mutex queue are told, over every interleaving: the calls that have been
    answered are those that the threads made, and a waiting call comes back with its own outcome. */
module MutexCalls {
  import opened Wrappers
  import opened BoundedFifo
  import opened MutexWaiting
  import opened MutexWakeups

  // ---------------------------------------------------------------- runs with their steps

  ghost predicate Steps(run: seq<State>, steps: seq<Step>, i: nat)
    requires |run| == |steps| + 1 && i < |steps|
  {
    Enabled(run[i], steps[i]) && run[i + 1] == Do(run[i], steps[i])
  }

  ghost predicate IsTrace(run: seq<State>, steps: seq<Step>) {
    && |run| == |steps| + 1 && Init(run[0])
    && forall i | 0 <= i < |steps| :: Steps(run, steps, i)
  }

  lemma TraceIsRun(run: seq<State>, steps: seq<Step>)
    requires IsTrace(run, steps)
    ensures IsRun(run)
  {
    forall i: nat | i + 1 < |run|
      ensures StepAt(run, i)
    {
      assert Steps(run, steps, i);
    }
  }

  /** Every run is the run of some steps. */
  lemma {:induction false} RunHasTrace(run: seq<State>) returns (steps: seq<Step>)
    requires IsRun(run)
    ensures IsTrace(run, steps)
    decreases |run|
  {
    if |run| == 1 {
      steps := [];
    } else {
      var front := run[..|run| - 1];
      forall i: nat | i + 1 < |front|
        ensures StepAt(front, i)
      {
        assert StepAt(run, i);
      }
      var before := RunHasTrace(front);
      assert StepAt(run, |run| - 2);
      var step :| Enabled(run[|run| - 2], step) && run[|run| - 1] == Do(run[|run| - 2], step);
      steps := before + [step];
      forall i | 0 <= i < |steps|
        ensures Steps(run, steps, i)
      {
        if i < |before| {
          assert Steps(front, before, i);
        }
      }
    }
  }

  // ---------------------------------------------------------------- which calls are answered

  /** The call that a thread makes in a step. */
  function CallOf(step: Step): Option<Call<Event>> {
    match step
    case TryPush(_, event, throws) => Some(Push(event, throws))
    case TryPop(_) => Some(Pop)
    case WaitPush(_, event, throws, _) => Some(Push(event, throws))
    case WaitPop(_, _) => Some(Pop)
    case CloseQueue(_, discard) => Some(if discard then Discard else Close)
    case _ => None
  }

  /** A waiting call gets no answer yet: nobody has closed the queue, and as many events are left as
      there are slots, or none. */
  predicate MustWait(capacity: nat, calls: seq<Call<Event>>, replies: seq<Reply<Event>>, step: Step) {
    && !Closing(calls)
    && ((step.WaitPush? && Balance(replies) == capacity) || (step.WaitPop? && Balance(replies) == 0))
  }

  /** The calls of the first n steps that are answered. */
  function CallsOf(capacity: nat, steps: seq<Step>, n: nat): seq<Call<Event>>
    requires n <= |steps|
  {
    if n == 0 then []
    else
      var before := CallsOf(capacity, steps, n - 1);
      if CallOf(steps[n - 1]).None? || MustWait(capacity, before, Replies(NewFifo(capacity), before), steps[n - 1]) then before
      else before + [CallOf(steps[n - 1]).value]
  }

  lemma StepAnswers(s: State, s': State, step: Step)
    requires Recorded(s) && Enabled(s, step) && s' == Do(s, step)
    ensures s'.calls == if CallOf(step).None? || MustWait(s.q.capacity, s.calls, s.replies, step) then s.calls
                        else s.calls + [CallOf(step).value]
    ensures s'.q.capacity == s.q.capacity
  {
    RunBalances(s.q.capacity, s.calls);
    match step
    case TryPush(_, event, throws) =>
    case TryPop(_) =>
    case WaitPush(_, event, throws, _) =>
    case WaitPop(_, _) =>
    case CloseQueue(_, discard) =>
    case NotifyOne(_, _) =>
    case NotifyAll(_) =>
    case Wake(_) =>
  }

  /** The calls that have been answered are the calls that the steps made, in their order, but for
      waits that had to wait; and every answer follows from the calls and answers before it, as
      RepliesAreExact says. */
  lemma {:induction false} CallsAreTheSteps(run: seq<State>, steps: seq<Step>, n: nat)
    requires IsTrace(run, steps) && n <= |steps|
    ensures run[n].q.capacity == run[0].q.capacity
    ensures run[n].calls == CallsOf(run[0].q.capacity, steps, n)
    ensures run[n].replies == Replies(NewFifo(run[0].q.capacity), run[n].calls)
  {
    TraceIsRun(run, steps);
    RunKeepsInv(run, n);
    if n == 0 {
    } else {
      CallsAreTheSteps(run, steps, n - 1);
      RunKeepsInv(run, n - 1);
      assert Steps(run, steps, n - 1);
      StepAnswers(run[n - 1], run[n], steps[n - 1]);
    }
  }

  // ---------------------------------------------------------------- waiting calls

  predicate InWaitPop(l: Local) {
    l.ConsumerParked? || l.ConsumerAwake?
  }

  predicate InWaitPush(l: Local, event: Event) {
    l == ProducerParked(event) || l == ProducerAwake(event)
  }

  /** Thread t calls `wait_pop` in step i and returns in the step to j. */
  ghost predicate WaitPopCall(run: seq<State>, steps: seq<Step>, i: nat, j: nat, t: nat) {
    && IsTrace(run, steps) && i < j <= |steps|
    && (forall m | i <= m <= j :: t < |run[m].threads|)
    && steps[i].WaitPop? && steps[i].thread == t && run[i].threads[t].Idle?
    && (forall m | i < m < j :: InWaitPop(run[m].threads[t]))
    && !InWaitPop(run[j].threads[t])
  }

  ghost predicate WaitPushCall(run: seq<State>, steps: seq<Step>, i: nat, j: nat, t: nat, event: Event) {
    && IsTrace(run, steps) && i < j <= |steps|
    && (forall m | i <= m <= j :: t < |run[m].threads|)
    && steps[i].WaitPush? && steps[i].thread == t && steps[i].event == event && run[i].threads[t].Idle?
    && (forall m | i < m < j :: InWaitPush(run[m].threads[t], event))
    && !InWaitPush(run[j].threads[t], event)
  }

  /** A notification that is heard by a waiting thread leaves it waiting. */
  lemma NotifyLeavesWaiting(s: State, s': State, step: Step, t: nat)
    requires Enabled(s, step) && s' == Do(s, step) && t < |s.threads| && (step.NotifyOne? || step.NotifyAll?)
    requires s.threads[t].ConsumerParked? || s.threads[t].ConsumerAwake? || s.threads[t].ProducerParked? || s.threads[t].ProducerAwake?
    ensures |s'.threads| == |s.threads| && (s'.threads[t] == s.threads[t] || s'.threads[t] == Woken(s.threads[t]))
  {
    if step.NotifyAll? {
      WakeAllAt(s.threads, s.threads[step.thread], t);
    }
  }

  /** Whoever is in a wait leaves it only by its own next look at the queue. */
  lemma LeavesByItsOwnLook(s: State, s': State, step: Step, t: nat)
    requires Enabled(s, step) && s' == Do(s, step) && t < |s.threads|
    requires InWaitPop(s.threads[t]) || (s.threads[t].ProducerParked? || s.threads[t].ProducerAwake?)
    ensures t < |s'.threads|
    ensures ((step.WaitPop? || step.WaitPush?) && step.thread == t)
            || (if InWaitPop(s.threads[t]) then InWaitPop(s'.threads[t]) else InWaitPush(s'.threads[t], s.threads[t].event))
  {
    if step.NotifyOne? || step.NotifyAll? {
      NotifyLeavesWaiting(s, s', step, t);
    }
  }

  /** A waiting pop comes back with an event, or closed, as the answer of its last look at the queue,
      or with nothing because it was stopped while the queue was open and empty; never with empty. */
  lemma WaitPopReturns(run: seq<State>, steps: seq<Step>, i: nat, j: nat, t: nat)
    requires WaitPopCall(run, steps, i, j, t)
    ensures steps[j - 1].WaitPop? && steps[j - 1].thread == t
    ensures var s, s' := run[j - 1], run[j];
            || (&& s'.calls == s.calls + [Pop] && |s'.replies| == |s.replies| + 1
                && (s'.replies[|s.replies|].Popped? || s'.replies[|s.replies|] == Closed))
            || (steps[j - 1].expired && CompletesNone(s, s') && s.q.events == [] && !s.q.closed)
  {
    var s, s', step := run[j - 1], run[j], steps[j - 1];
    assert Steps(run, steps, j - 1);
    if i < j - 1 {
      LeavesByItsOwnLook(s, s', step, t);
    }
    assert step.WaitPop? && step.thread == t;
    PopAnswered(s, s', step);
  }

  lemma PopAnswered(s: State, s': State, step: Step)
    requires Enabled(s, step) && s' == Do(s, step) && step.WaitPop? && step.thread < |s'.threads|
    ensures || (s'.threads[step.thread].ConsumerParked?)
            || (&& s'.calls == s.calls + [Pop] && |s'.replies| == |s.replies| + 1
                && (s'.replies[|s.replies|].Popped? || s'.replies[|s.replies|] == Closed))
            || (step.expired && CompletesNone(s, s') && s.q.events == [] && !s.q.closed)
  {
  }

  /** A waiting push comes back having pushed its own event, or refused because the queue was closed
      or the copy threw, or stopped while the queue was open and full; never with full. */
  lemma WaitPushReturns(run: seq<State>, steps: seq<Step>, i: nat, j: nat, t: nat, event: Event)
    requires WaitPushCall(run, steps, i, j, t, event)
    ensures steps[j - 1].WaitPush? && steps[j - 1].thread == t && steps[j - 1].event == event
    ensures var s, s', throws := run[j - 1], run[j], steps[j - 1].throws;
            || (&& s'.calls == s.calls + [Push(event, throws)] && |s'.replies| == |s.replies| + 1
                && s'.replies[|s.replies|] in {Success, Closed, Threw})
            || (steps[j - 1].expired && CompletesNone(s, s') && |s.q.events| == s.q.capacity && !s.q.closed)
  {
    var s, s', step := run[j - 1], run[j], steps[j - 1];
    assert Steps(run, steps, j - 1);
    if i < j - 1 {
      LeavesByItsOwnLook(s, s', step, t);
    }
    assert step.WaitPush? && step.thread == t && step.event == event;
    PushAnswered(s, s', step);
  }

  lemma PushAnswered(s: State, s': State, step: Step)
    requires Enabled(s, step) && s' == Do(s, step) && step.WaitPush? && step.thread < |s'.threads|
    ensures || s'.threads[step.thread] == ProducerParked(step.event)
            || (&& s'.calls == s.calls + [Push(step.event, step.throws)] && |s'.replies| == |s.replies| + 1
                && s'.replies[|s.replies|] in {Success, Closed, Threw})
            || (step.expired && CompletesNone(s, s') && |s.q.events| == s.q.capacity && !s.q.closed)
  {
  }
}
