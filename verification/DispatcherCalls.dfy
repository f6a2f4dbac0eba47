/** What publishing and shutting down answer and carry out, over every interleaving. */
module DispatcherCalls {
  import opened Wrappers
  import opened Tally
  import opened BoundedFifo
  import opened Dispatcher
  import opened DispatcherSafety
  import opened DispatcherTheorems

  // ---------------------------------------------------------------- runs with their steps

  ghost predicate Steps(run: seq<State>, steps: seq<Step>, i: nat)
    requires |run| == |steps| + 1 && i < |steps|
  {
    Enabled(run[i], steps[i]) && run[i + 1] == Do(run[i], steps[i])
  }

  ghost predicate IsTrace(run: seq<State>, steps: seq<Step>) {
    && |run| == |steps| + 1 && Init(run[0])
    && forall i | 0 <= i < |steps| :: Steps(run, steps, i)
  }

  lemma TraceIsRun(run: seq<State>, steps: seq<Step>)
    requires IsTrace(run, steps)
    ensures IsRun(run)
  {
    forall i: nat | i + 1 < |run|
      ensures StepAt(run, i)
    {
      assert Steps(run, steps, i);
    }
  }

  /** Every run is the run of some steps. */
  lemma {:induction false} RunHasTrace(run: seq<State>) returns (steps: seq<Step>)
    requires IsRun(run)
    ensures IsTrace(run, steps)
    decreases |run|
  {
    if |run| == 1 {
      steps := [];
    } else {
      var front := run[..|run| - 1];
      forall i: nat | i + 1 < |front|
        ensures StepAt(front, i)
      {
        assert StepAt(run, i);
      }
      var before := RunHasTrace(front);
      assert StepAt(run, |run| - 2);
      var step :| Enabled(run[|run| - 2], step) && run[|run| - 1] == Do(run[|run| - 2], step);
      steps := before + [step];
      forall i | 0 <= i < |steps|
        ensures Steps(run, steps, i)
      {
        if i < |before| {
          assert Steps(front, before, i);
        }
      }
    }
  }

  predicate StepOf(step: Step, t: nat) {
    !step.Subscribe? && step.thread == t
  }

  /** The state of the invariant, the step, and the other threads. */
  lemma StepFacts(run: seq<State>, steps: seq<Step>, m: nat)
    requires IsTrace(run, steps) && m < |steps|
    ensures Inv(run[m]) && Enabled(run[m], steps[m]) && run[m + 1] == Do(run[m], steps[m]) && |run[m + 1].threads| == |run[m].threads|
    ensures forall u | 0 <= u < |run[m].threads| && !StepOf(steps[m], u) :: run[m + 1].threads[u] == run[m].threads[u]
  {
    TraceIsRun(run, steps);
    RunKeepsInv(run, m);
    assert Steps(run, steps, m);
    if !steps[m].Subscribe? {
      StepKeeps(run[m], run[m + 1], steps[m]);
    }
  }

  // ---------------------------------------------------------------- publishing

  /** What the steps of a publication add. */
  datatype Gain = Gain(enqueued: seq<Event>, accepted: int, rejected: int)

  const NOTHING := Gain([], 0, 0)

  function Plus(a: Gain, b: Gain): Gain {
    if b == NOTHING then a
    else if a == NOTHING then b
    else Gain(a.enqueued + b.enqueued, a.accepted + b.accepted, a.rejected + b.rejected)
  }

  function Grown(before: seq<Event>, after: seq<Event>): seq<Event> {
    if before <= after then after[|before|..] else []
  }

  function Between(s: State, s': State): Gain {
    Gain(Grown(s.trace.enqueued, s'.trace.enqueued), s'.metrics.accepted - s.metrics.accepted, s'.metrics.rejected - s.metrics.rejected)
  }

  ghost function Gains(run: seq<State>, steps: seq<Step>, i: nat, n: nat, t: nat): Gain
    requires |run| == |steps| + 1 && i < n <= |steps|
    decreases n
  {
    if n == i + 1 then NOTHING
    else
      var before := Gains(run, steps, i, n - 1, t);
      if StepOf(steps[n - 1], t) then Plus(before, Between(run[n - 1], run[n])) else before
  }

  predicate Answer(reply: Reply<Event>) {
    reply == Success || reply == Full || reply == Closed
  }

  /** Where a thread can be in the publication of an event. */
  predicate Fits(l: Local, event: Event) {
    && l.Producer?
    && match l.p
       case Quiet => false
       case LoadLifecycle(e) => e == event
       case Pushing(e) => e == event
       case CountResult(reply) => Answer(reply)
       case Replied(reply) => Answer(reply) || reply == Threw
  }

  /** What it has added there. */
  function GainAt(p: ProducerPoint, event: Event): Gain {
    match p
    case CountResult(reply) => if reply == Success then Gain([event], 0, 0) else NOTHING
    case Replied(reply) =>
      if reply == Success then Gain([event], 1, 0) else if reply == Threw then NOTHING else Gain([], 0, 1)
    case _ => NOTHING
  }

  /** Why a publication fails: the dispatcher does not run or the queue is closed, there is no room, or
      the construction throws. */
  predicate FailsHere(s: State, p: ProducerPoint, unlucky: bool, reply: Reply<Event>) {
    match reply
    case Closed => (p.LoadLifecycle? && s.lifecycle != Running) || (p.Pushing? && s.q.closed)
    case Full => p.Pushing? && !s.q.closed && |s.q.events| == s.q.capacity
    case Threw => p.Pushing? && unlucky
    case _ => false
  }

  /** The reply that a publication is bound for. */
  function Heading(p: ProducerPoint): Option<Reply<Event>> {
    match p
    case CountResult(reply) => Some(reply)
    case Replied(reply) => Some(reply)
    case _ => None
  }

  lemma ProducerStep(s: State, s': State, t: nat, p: ProducerPoint, unlucky: bool, event: Event)
    requires t < |s.threads| && s.threads[t] == Producer(p) && Fits(s.threads[t], event) && !BetweenCalls(p)
    requires s' == DoProducer(s, t, p, unlucky)
    ensures t < |s'.threads| && Fits(s'.threads[t], event)
    ensures Plus(GainAt(p, event), Between(s, s')) == GainAt(s'.threads[t].p, event)
    ensures Heading(s'.threads[t].p) == Heading(p)
            || (Heading(p) == None && Heading(s'.threads[t].p).Some?
                && (Heading(s'.threads[t].p) == Some(Success) || FailsHere(s, p, unlucky, Heading(s'.threads[t].p).value)))
  {
    assert Grown(s.trace.enqueued, s.trace.enqueued) == [];
    assert Grown(s.trace.enqueued, s.trace.enqueued + [event]) == [event];
  }

  /** Thread t publishes in step i and has its answer at j. */
  ghost predicate Call(run: seq<State>, steps: seq<Step>, i: nat, j: nat, t: nat, event: Event) {
    && IsTrace(run, steps) && i + 1 < j <= |steps|
    && steps[i] == Publish(t, event)
    && (forall m | i <= m <= j :: t < |run[m].threads|)
    && (forall m | i < m < j :: run[m].threads[t].Producer? && !BetweenCalls(run[m].threads[t].p))
    && run[j].threads[t].Producer? && run[j].threads[t].p.Replied?
  }

  /** How far a publication has come, and why it is going to fail if it is. */
  ghost predicate Stands(run: seq<State>, steps: seq<Step>, i: nat, n: nat, t: nat, event: Event, m: nat)
    requires |run| == |steps| + 1 && i < n <= |steps| && t < |run[n].threads|
  {
    && Fits(run[n].threads[t], event) && Gains(run, steps, i, n, t) == GainAt(run[n].threads[t].p, event)
    && (Heading(run[n].threads[t].p).Some? && Heading(run[n].threads[t].p) != Some(Success) ==>
          Reason(run, steps, i, n, t, m, Heading(run[n].threads[t].p).value))
  }

  ghost predicate Reason(run: seq<State>, steps: seq<Step>, i: nat, n: nat, t: nat, m: nat, reply: Reply<Event>)
    requires |run| == |steps| + 1 && n <= |steps|
  {
    && i < m < n && steps[m].Advance? && steps[m].thread == t && t < |run[m].threads| && run[m].threads[t].Producer?
    && FailsHere(run[m], run[m].threads[t].p, steps[m].unlucky, reply)
  }

  lemma StandsNext(run: seq<State>, steps: seq<Step>, i: nat, n: nat, j: nat, t: nat, event: Event, m: nat) returns (m': nat)
    requires Call(run, steps, i, j, t, event) && i < n < j && Stands(run, steps, i, n, t, event, m)
    ensures Stands(run, steps, i, n + 1, t, event, m')
  {
    m' := m;
    StepFacts(run, steps, n);
    if StepOf(steps[n], t) {
      ProducerStep(run[n], run[n + 1], t, run[n].threads[t].p, steps[n].unlucky, event);
      if Heading(run[n].threads[t].p) == None {
        m' := n;
      }
    }
  }

  lemma {:induction false} CallStands(run: seq<State>, steps: seq<Step>, i: nat, n: nat, j: nat, t: nat, event: Event) returns (m: nat)
    requires Call(run, steps, i, j, t, event) && i < n <= j
    ensures Stands(run, steps, i, n, t, event, m)
    decreases n
  {
    if n == i + 1 {
      StepFacts(run, steps, i);
      m := i;
    } else {
      m := CallStands(run, steps, i, n - 1, j, t, event);
      m := StandsNext(run, steps, i, n - 1, j, t, event, m);
    }
  }

  /** A dispatcher that does not run any more refuses at once. */
  lemma {:induction false} StaysRefused(run: seq<State>, steps: seq<Step>, i: nat, n: nat, j: nat, t: nat, event: Event)
    requires Call(run, steps, i, j, t, event) && i < n <= j && run[i].lifecycle != Running
    ensures run[n].threads[t].p.LoadLifecycle? || Heading(run[n].threads[t].p) == Some(Closed)
  {
    StepFacts(run, steps, n - 1);
    if n > i + 1 {
      StaysRefused(run, steps, i, n - 1, j, t, event);
      TraceIsRun(run, steps);
      RunEvolves(run, i, n - 1);
    }
  }

  /** The answer of a publication, over any interleaving: success exactly if the call itself has put its
      own event at the end of the queue, once, and has counted it as accepted; closed and full exactly
      if it has counted a rejection; thrown if it has counted nothing.  Each failure has its reason in
      one of the call's own steps, and a dispatcher that does not run answers closed. */
  lemma PublishAnswersForItself(run: seq<State>, steps: seq<Step>, i: nat, j: nat, t: nat, event: Event) returns (m: nat)
    requires Call(run, steps, i, j, t, event)
    ensures var reply := run[j].threads[t].p.reply;
            && (Answer(reply) || reply == Threw)
            && Gains(run, steps, i, j, t) == (if reply == Success then Gain([event], 1, 0) else if reply == Threw then NOTHING else Gain([], 0, 1))
            && (reply != Success ==> Reason(run, steps, i, j, t, m, reply))
            && (run[i].lifecycle != Running ==> reply == Closed)
  {
    m := CallStands(run, steps, i, j, j, t, event);
    if run[i].lifecycle != Running {
      StaysRefused(run, steps, i, j, j, t, event);
    }
  }

  // ---------------------------------------------------------------- shutting down

  /** The policy of the latest call of `shutdown` by thread t. */
  function PolicyOf(steps: seq<Step>, n: nat, t: nat): Option<Policy>
    requires n <= |steps|
  {
    if n == 0 then None
    else if steps[n - 1].Shutdown? && steps[n - 1].thread == t then Some(steps[n - 1].policy)
    else PolicyOf(steps, n - 1, t)
  }

  /** A caller carries the policy that it was called with. */
  predicate Carries(l: Local, policy: Option<Policy>) {
    l.Closer? ==>
      match l.c
      case Begin(p) => policy == Some(p)
      case CloseEvents(p) => policy == Some(p)
      case AddDropped(_) => policy == Some(DiscardPending)
      case JoinWorkers(p) => policy == Some(p)
      case SetStopped(p) => policy == Some(p)
      case _ => true
  }

  lemma CarriesOn(s: State, s': State, t: nat, unlucky: bool, policy: Option<Policy>)
    requires t < |s.threads| && s' == DoAdvance(s, t, s.threads[t], unlucky) && Carries(s.threads[t], policy)
    requires |s'.threads| == |s.threads| && (s.threads[t].Closer? <==> s'.threads[t].Closer?)
    ensures Carries(s'.threads[t], policy)
  {
  }

  lemma StaysCloser(s: State, s': State, t: nat, unlucky: bool)
    requires t < |s.threads| && s' == DoAdvance(s, t, s.threads[t], unlucky)
    ensures t < |s'.threads| && (s.threads[t].Closer? <==> s'.threads[t].Closer?)
  {
  }

  lemma {:induction false} ThreadsCarry(run: seq<State>, steps: seq<Step>, n: nat, t: nat)
    requires IsTrace(run, steps) && n <= |steps| && t < |run[n].threads|
    ensures Carries(run[n].threads[t], PolicyOf(steps, n, t))
  {
    if n == 0 {
    } else {
      StepFacts(run, steps, n - 1);
      ThreadsCarry(run, steps, n - 1, t);
      StepCarries(run[n - 1], run[n], steps[n - 1], t, PolicyOf(steps, n - 1, t));
    }
  }

  lemma StepCarries(s: State, s': State, step: Step, t: nat, policy: Option<Policy>)
    requires Enabled(s, step) && s' == Do(s, step) && t < |s.threads| == |s'.threads| && Carries(s.threads[t], policy)
    requires !StepOf(step, t) ==> s'.threads[t] == s.threads[t]
    ensures Carries(s'.threads[t], if step.Shutdown? && step.thread == t then Some(step.policy) else policy)
  {
    if step.Advance? && step.thread == t {
      StaysCloser(s, s', t, step.unlucky);
      CarriesOn(s, s', t, step.unlucky, policy);
    }
  }

  /** Only a caller that begins moves the lifecycle away from running. */
  lemma BeginMoves(s: State, s': State, step: Step)
    requires Inv(s) && Enabled(s, step) && s' == Do(s, step) && s.lifecycle == Running && s'.lifecycle != Running
    ensures step.Advance? && s.threads[step.thread].Closer? && s.threads[step.thread].c.Begin?
    ensures s'.lifecycle == StoppingFor(s.threads[step.thread].c.policy)
  {
    if step.Advance? {
      AdvanceMoves(s, s', step.thread, step.unlucky);
    }
  }

  lemma AdvanceMoves(s: State, s': State, t: nat, unlucky: bool)
    requires Inv(s) && t < |s.threads| && MayAdvance(s, s.threads[t]) && s' == DoAdvance(s, t, s.threads[t], unlucky)
    requires s.lifecycle == Running && s'.lifecycle != Running
    ensures s.threads[t].Closer? && s.threads[t].c.Begin? && s'.lifecycle == StoppingFor(s.threads[t].c.policy)
  {
    assert PhaseSound(s, s.threads[t]);
  }

  /** The shutdown that is carried out is the one that was asked for: the step that takes the lifecycle
      away from running is made by a caller of `shutdown`, and from then on the lifecycle is the
      stopping state of the policy it was called with, or stopped. */
  lemma ShutdownKeepsItsPolicy(run: seq<State>, steps: seq<Step>, m: nat, j: nat)
    requires IsTrace(run, steps) && m < j <= |steps| && run[m].lifecycle == Running && run[m + 1].lifecycle != Running
    ensures steps[m].Advance? && PolicyOf(steps, m, steps[m].thread).Some?
    ensures match PolicyOf(steps, m, steps[m].thread).value
            case Drain => run[j].lifecycle == DrainStopping || run[j].lifecycle == Stopped
            case DiscardPending => run[j].lifecycle == DiscardStopping || run[j].lifecycle == Stopped
  {
    StepFacts(run, steps, m);
    BeginMoves(run[m], run[m + 1], steps[m]);
    var t := steps[m].thread;
    ThreadsCarry(run, steps, m, t);
    TraceIsRun(run, steps);
    RunKeepsInv(run, m + 1);
    FirstPolicyWins(run, m + 1, j, t);
  }

  /** Every caller of `shutdown` asks for this policy. */
  predicate AllAsk(steps: seq<Step>, policy: Policy) {
    forall m | 0 <= m < |steps| && steps[m].Shutdown? :: steps[m].policy == policy
  }

  lemma {:induction false} AskedFor(steps: seq<Step>, n: nat, t: nat, policy: Policy)
    requires AllAsk(steps, policy) && n <= |steps|
    ensures PolicyOf(steps, n, t).Some? ==> PolicyOf(steps, n, t).value == policy
  {
    if n > 0 {
      AskedFor(steps, n - 1, t, policy);
    }
  }

  /** A step other than a discarding close discards nothing; and the queue is closed by a close only. */
  lemma ClosingStep(s: State, s': State, step: Step, policy: Policy)
    requires Enabled(s, step) && s' == Do(s, step)
    requires step.Advance? && s.threads[step.thread].Closer? && s.threads[step.thread].c.CloseEvents? ==>
               Carries(s.threads[step.thread], Some(policy))
    ensures policy == Drain ==> s'.trace.discarded == s.trace.discarded
    ensures policy == DiscardPending && !s.q.closed && s'.q.closed ==> s'.q.events == []
  {
  }

  lemma StepAtCloses(run: seq<State>, steps: seq<Step>, n: nat, policy: Policy)
    requires IsTrace(run, steps) && AllAsk(steps, policy) && 0 < n <= |steps|
    ensures policy == Drain ==> run[n].trace.discarded == run[n - 1].trace.discarded
    ensures policy == DiscardPending && !run[n - 1].q.closed && run[n].q.closed ==> run[n].q.events == []
    ensures run[n - 1].q.closed && run[n - 1].q.events == [] ==> run[n].q.events == []
  {
    StepFacts(run, steps, n - 1);
    var step := steps[n - 1];
    if step.Advance? {
      ThreadsCarry(run, steps, n - 1, step.thread);
      AskedFor(steps, n - 1, step.thread, policy);
    }
    ClosingStep(run[n - 1], run[n], step, policy);
    if !step.Subscribe? {
      StepKeeps(run[n - 1], run[n], step);
    }
  }

  /** If every shutdown asks for a drain, nothing is ever discarded or counted as dropped. */
  lemma {:induction false} DrainsDropNothing(run: seq<State>, steps: seq<Step>, n: nat)
    requires IsTrace(run, steps) && AllAsk(steps, Drain) && n <= |steps|
    ensures run[n].trace.discarded == [] && run[n].metrics.dropped == 0
  {
    if n > 0 {
      DrainsDropNothing(run, steps, n - 1);
      StepAtCloses(run, steps, n, Drain);
    }
    TraceIsRun(run, steps);
    RunKeepsInv(run, n);
  }

  /** If every shutdown asks for a discard, nothing is ever left in a closed queue. */
  lemma {:induction false} DiscardsLeaveNothing(run: seq<State>, steps: seq<Step>, n: nat)
    requires IsTrace(run, steps) && AllAsk(steps, DiscardPending) && n <= |steps|
    ensures run[n].q.closed ==> run[n].q.events == []
  {
    if n > 0 {
      DiscardsLeaveNothing(run, steps, n - 1);
      StepAtCloses(run, steps, n, DiscardPending);
    }
  }
}
