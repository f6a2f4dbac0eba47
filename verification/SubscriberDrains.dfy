/** What a run of drains gives to the callback, and what exactly is dropped. */
module SubscriberDrains {
  import opened Wrappers
  import opened Tally
  import opened Subscriber
  import opened SubscriberSafety
  import opened SubscriberTheorems
  import opened SubscriberRuns

  // ---------------------------------------------------------------- only drains

  /** Every call of `stop_delivery` was a drain, and nobody unsubscribed. */
  predicate OnlyDrains(steps: seq<Step>) {
    forall m | 0 <= m < |steps| :: !steps[m].Unsubscribe? && (steps[m].Stop? ==> steps[m].drain)
  }

  predicate DrainsFrame(f: Frame) {
    f.Control? ==> !f.c.Deactivate? && NextOf(f.c) == Return && (f.c.StopMailbox? ==> f.c.drain)
  }

  predicate Drains(k: Stack) {
    k.On? ==> DrainsFrame(k.top) && Drains(k.rest)
  }

  ghost predicate AllDrain(s: State) {
    s.active && s.mailbox.drain && forall t | 0 <= t < |s.threads| :: Drains(s.threads[t])
  }

  lemma ControlDrains(s: State, s': State, t: nat, c: ControlPoint, rest: Stack)
    requires t < |s.threads| && s.threads[t] == On(Control(c), rest) && Drains(s.threads[t]) && s' == DoControl(s, t, c, rest)
    requires s.active && s.mailbox.drain
    ensures t < |s'.threads| && Drains(s'.threads[t]) && s'.active && s'.mailbox.drain
  {
  }

  lemma OtherDrains(s: State, s': State, t: nat, throws: bool, top: Frame, rest: Stack)
    requires t < |s.threads| && s.threads[t] == On(top, rest) && Drains(s.threads[t]) && !top.Control?
    requires s' == DoFrame(s, t, top, throws, rest) && s.active && s.mailbox.drain
    ensures t < |s'.threads| && Drains(s'.threads[t]) && s'.active && s'.mailbox.drain
  {
    match top
    case Offering(event) => OfferingDrains(s, s', t, event, throws, rest);
    case Refusing =>
    case Invocation(i) => InvocationDrains(s, s', t, i, throws, rest);
    case Executor(e) => ExecutorDrains(s, s', t, e, rest);
  }

  lemma OfferingDrains(s: State, s': State, t: nat, event: Event, throws: bool, rest: Stack)
    requires t < |s.threads| && Drains(rest) && s' == DoOffering(s, t, event, throws, rest) && s.active && s.mailbox.drain
    ensures t < |s'.threads| && Drains(s'.threads[t]) && s'.active && s'.mailbox.drain
  {
    OfferingLeads(s, s', t, event, throws, rest);
  }

  lemma OfferingLeads(s: State, s': State, t: nat, event: Event, throws: bool, rest: Stack)
    requires t < |s.threads| && s' == DoOffering(s, t, event, throws, rest) && s.active
    ensures s'.threads == s.threads[t := if s.policy.Isolated? then rest else On(Invocation(Admitted(event)), rest)]
    ensures s'.active && s'.mailbox.drain == s.mailbox.drain
  {
  }

  lemma InvocationDrains(s: State, s': State, t: nat, i: InvocationPoint, throws: bool, rest: Stack)
    requires t < |s.threads| && Drains(rest) && s' == DoInvocation(s, t, i, throws, rest) && s.active && s.mailbox.drain
    ensures t < |s'.threads| && Drains(s'.threads[t]) && s'.active && s'.mailbox.drain
  {
  }

  lemma ExecutorDrains(s: State, s': State, t: nat, e: ExecutorPoint, rest: Stack)
    requires t < |s.threads| && s.threads[t] == On(Executor(e), rest) && Drains(rest) && s' == DoExecutor(s, t, e, rest)
    requires s.active && s.mailbox.drain
    ensures t < |s'.threads| && Drains(s'.threads[t]) && s'.active && s'.mailbox.drain
  {
  }

  lemma StepDrains(s: State, s': State, step: Step)
    requires Inv(s) && Enabled(s, step) && s' == Do(s, step) && AllDrain(s)
    requires !step.Unsubscribe? && (step.Stop? ==> step.drain)
    ensures AllDrain(s')
  {
    var t := step.thread;
    StackStep(s, s', step);
    if step.Advance? {
      var top, rest := s.threads[t].top, s.threads[t].rest;
      if top.Control? {
        ControlDrains(s, s', t, top.c, rest);
      } else {
        OtherDrains(s, s', t, step.throws, top, rest);
      }
    }
  }

  lemma {:induction false} RunDrains(run: seq<State>, steps: seq<Step>, n: nat)
    requires IsTrace(run, steps) && OnlyDrains(steps) && n <= |steps|
    ensures AllDrain(run[n])
  {
    if n == 0 {
      StartsDraining(run[0]);
    } else {
      RunDrains(run, steps, n - 1);
      StepAtDrains(run, steps, n);
    }
  }

  lemma StartsDraining(s: State)
    requires Init(s)
    ensures AllDrain(s)
  {
    forall t | 0 <= t < |s.threads|
      ensures Drains(s.threads[t])
    {
      assert Starts(s, t);
    }
  }

  lemma StepAtDrains(run: seq<State>, steps: seq<Step>, n: nat)
    requires IsTrace(run, steps) && OnlyDrains(steps) && 0 < n <= |steps| && AllDrain(run[n - 1])
    ensures AllDrain(run[n])
  {
    TraceIsRun(run, steps);
    RunKeepsInv(run, n - 1);
    assert Steps(run, steps, n - 1);
    StepDrains(run[n - 1], run[n], steps[n - 1]);
  }

  /** If every stop was called with drain and nobody unsubscribed, no entry of the mailbox is ever
      cleared, and when the executor has exited the callback was given exactly the accepted events, in
      order. */
  lemma DrainsLoseNothing(run: seq<State>, steps: seq<Step>, n: nat)
    requires IsTrace(run, steps) && OnlyDrains(steps) && n <= |steps|
    ensures run[n].active && run[n].history.cleared == []
    ensures run[n].policy.Isolated? && run[n].exited ==> run[n].history.invoked == run[n].history.accepted
  {
    RunDrains(run, steps, n);
    TraceIsRun(run, steps);
    RunKeepsInv(run, n);
    if run[n].policy.Isolated? && run[n].exited {
      DrainInvokesAll(run, n);
    }
  }

  // ---------------------------------------------------------------- what is dropped

  /** The step drops an offer at a full mailbox that may drop. */
  predicate DropsOffer(s: State, step: Step) {
    && step.Advance? && step.thread < |s.threads| && s.threads[step.thread].On? && s.threads[step.thread].top.Offering?
    && s.policy.Isolated? && !s.lossless && |s.mailbox.events| == s.capacity
  }

  ghost function OffersDropped(run: seq<State>, steps: seq<Step>, n: nat): nat
    requires |run| == |steps| + 1 && n <= |steps|
  {
    if n == 0 then 0
    else OffersDropped(run, steps, n - 1) + (if DropsOffer(run[n - 1], steps[n - 1]) then 1 else 0)
  }

  /** The entry that the executor has taken, until the callback has it or it is counted as dropped. */
  function InHand(k: Stack): nat {
    if k.On? && ((k.top.Executor? && !k.top.e.Loop?) || (k.top.Invocation? && k.top.i.Admitted?)) then 1 else 0
  }

  /** Dropped and not yet explained by entries taken or cleared that the callback did not get. */
  ghost function Unexplained(s: State): int
    requires s.threads != []
  {
    s.metrics.dropped + |s.history.invoked| + (if s.policy.Isolated? then InHand(s.threads[0]) else 0)
    - |s.history.cleared| - |s.history.taken|
  }

  lemma CallUnexplained(s: State, s': State, step: Step)
    requires Inv(s) && Enabled(s, step) && !step.Advance? && s' == Do(s, step) && s.policy.Isolated?
    ensures |s'.threads| == |s.threads| && Unexplained(s') == Unexplained(s)
  {
    assert ShapeOf(s, 0);
  }

  lemma OfferUnexplained(s: State, s': State, t: nat, event: Event, throws: bool, rest: Stack)
    requires Inv(s) && t < |s.threads| && s.threads[t] == On(Offering(event), rest) && s' == DoOffering(s, t, event, throws, rest)
    requires s.policy.Isolated?
    ensures |s'.threads| == |s.threads|
    ensures Unexplained(s') == Unexplained(s) + (if !s.lossless && |s.mailbox.events| == s.capacity then 1 else 0)
  {
    assert ShapeOf(s, 0);
  }

  lemma InvocationUnexplained(s: State, s': State, t: nat, i: InvocationPoint, throws: bool, rest: Stack)
    requires Inv(s) && t < |s.threads| && s.threads[t] == On(Invocation(i), rest) && s' == DoInvocation(s, t, i, throws, rest)
    requires s.policy.Isolated?
    ensures |s'.threads| == |s.threads| && Unexplained(s') == Unexplained(s)
  {
    assert ShapeOf(s, t);
    match i
    case Admitted(event) => assert s'.threads[t] == On(Invocation(Running(event)), rest);
    case Running(_) => assert s'.threads[t] == On(Invocation(Counting), rest);
    case Counting => assert s'.threads[t] == On(Invocation(Leaving), rest);
    case Leaving => assert s'.threads[t] == rest;
    case Unserial =>
  }

  lemma ExecutorUnexplained(s: State, s': State, t: nat, e: ExecutorPoint, rest: Stack)
    requires Inv(s) && t < |s.threads| && s.threads[t] == On(Executor(e), rest) && s' == DoExecutor(s, t, e, rest)
    requires s.policy.Isolated? && MayAdvance(s, t, Executor(e))
    ensures |s'.threads| == |s.threads| && Unexplained(s') == Unexplained(s)
  {
    assert ShapeOf(s, t);
    match e
    case Loop =>
    case Taken(event) =>
      assert s'.threads[t] == On(if s.active then Invocation(Admitted(event)) else Executor(Dropping), rest);
    case Dropping => assert s'.threads[t] == rest;
  }

  lemma ControlUnexplained(s: State, s': State, t: nat, c: ControlPoint, rest: Stack)
    requires Inv(s) && t < |s.threads| && s.threads[t] == On(Control(c), rest) && s' == DoControl(s, t, c, rest)
    requires s.policy.Isolated?
    ensures |s'.threads| == |s.threads| && Unexplained(s') == Unexplained(s)
  {
    ControlHands(s, s', t, c, rest);
    ControlClears(s, s', t, c, rest);
  }

  /** A stop holds no entry in its hands, and neither does what is below it. */
  lemma ControlHands(s: State, s': State, t: nat, c: ControlPoint, rest: Stack)
    requires Inv(s) && t < |s.threads| && s.threads[t] == On(Control(c), rest) && s' == DoControl(s, t, c, rest)
    requires s.policy.Isolated?
    ensures |s'.threads| == |s.threads| && s'.threads == s.threads[t := s'.threads[t]]
    ensures InHand(s.threads[t]) == 0 && (IsExecutor(s, t) ==> InHand(s'.threads[t]) == 0)
  {
    assert ShapeOf(s, t);
    ControlLeads(s, s', t, c, rest);
  }

  lemma ControlLeads(s: State, s': State, t: nat, c: ControlPoint, rest: Stack)
    requires t < |s.threads| && s.threads[t] == On(Control(c), rest) && s' == DoControl(s, t, c, rest)
    ensures |s'.threads| == |s.threads| && s'.threads == s.threads[t := s'.threads[t]]
    ensures if c.Waiting? then s'.threads[t] == rest else s'.threads[t].On? && s'.threads[t].top.Control?
  {
    match c
    case Deactivate => assert s'.threads[t].On?;
    case Retire(self) => assert s'.threads[t].On?;
    case StopMailbox(_, _) => assert s'.threads[t].On?;
    case JoinLock(_) => assert s'.threads[t].On?;
    case Join(_) => assert s'.threads[t].On?;
    case Waiting(_) => assert s'.threads[t] == rest;
  }

  lemma ControlClears(s: State, s': State, t: nat, c: ControlPoint, rest: Stack)
    requires t < |s.threads| && s' == DoControl(s, t, c, rest)
    ensures s'.metrics.dropped - |s'.history.cleared| == s.metrics.dropped - |s.history.cleared|
    ensures s'.history.invoked == s.history.invoked && s'.history.taken == s.history.taken && s'.policy == s.policy
  {
  }

  lemma StepUnexplained(s: State, s': State, step: Step)
    requires Inv(s) && Enabled(s, step) && s' == Do(s, step) && s.policy.Isolated?
    ensures s'.threads != [] && Unexplained(s') == Unexplained(s) + (if DropsOffer(s, step) then 1 else 0)
  {
    var t := step.thread;
    if !step.Advance? {
      CallUnexplained(s, s', step);
    } else {
      match s.threads[t].top
      case Offering(event) => OfferUnexplained(s, s', t, event, step.throws, s.threads[t].rest);
      case Refusing => NoRefusal(s, t);
      case Invocation(i) => InvocationUnexplained(s, s', t, i, step.throws, s.threads[t].rest);
      case Executor(e) => ExecutorUnexplained(s, s', t, e, s.threads[t].rest);
      case Control(c) => ControlUnexplained(s, s', t, c, s.threads[t].rest);
    }
  }

  /** An isolated subscriber refuses in the critical section of its mailbox. */
  lemma NoRefusal(s: State, t: nat)
    requires Inv(s) && s.policy.Isolated? && t < |s.threads| && s.threads[t].On?
    ensures !s.threads[t].top.Refusing?
  {
    assert ShapeOf(s, t);
  }

  /** Under the isolated policy exactly these events are dropped: offers at a full mailbox that may
      drop, entries that a stop cleared, and entries that the executor took and the callback did not
      get because the subscription was inactive. */
  lemma {:induction false} DroppedExactly(run: seq<State>, steps: seq<Step>, n: nat)
    requires IsTrace(run, steps) && n <= |steps| && run[0].policy.Isolated?
    ensures run[n].policy.Isolated? && run[n].threads != []
    ensures var s := run[n];
            s.metrics.dropped + |s.history.invoked| + InHand(s.threads[0])
            == OffersDropped(run, steps, n) + |s.history.cleared| + |s.history.taken|
  {
    if n == 0 {
      assert Starts(run[0], 0);
    } else {
      DroppedExactly(run, steps, n - 1);
      TraceIsRun(run, steps);
      RunKeepsInv(run, n - 1);
      RunEvolves(run, n - 1, n);
      assert Steps(run, steps, n - 1);
      StepUnexplained(run[n - 1], run[n], steps[n - 1]);
    }
  }
}
