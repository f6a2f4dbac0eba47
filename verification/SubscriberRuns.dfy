/** Calls into a subscriber as parts of a run: what belongs to a call, however the other threads and
    the calls nested in its callback interleave with it. */
module SubscriberRuns {
  import opened Wrappers
  import opened Tally
  import opened Subscriber
  import opened SubscriberSafety
  import opened SubscriberTheorems

  // ---------------------------------------------------------------- runs with their steps

  ghost predicate Steps(run: seq<State>, steps: seq<Step>, i: nat)
    requires |run| == |steps| + 1 && i < |steps|
  {
    Enabled(run[i], steps[i]) && run[i + 1] == Do(run[i], steps[i])
  }

  ghost predicate IsTrace(run: seq<State>, steps: seq<Step>) {
    && |run| == |steps| + 1 && Init(run[0])
    && forall i | 0 <= i < |steps| :: Steps(run, steps, i)
  }

  lemma TraceIsRun(run: seq<State>, steps: seq<Step>)
    requires IsTrace(run, steps)
    ensures IsRun(run)
  {
    forall i: nat | i + 1 < |run|
      ensures StepAt(run, i)
    {
      assert Steps(run, steps, i);
    }
  }

  /** Every run is the run of some steps. */
  lemma {:induction false} RunHasTrace(run: seq<State>) returns (steps: seq<Step>)
    requires IsRun(run)
    ensures IsTrace(run, steps)
    decreases |run|
  {
    if |run| == 1 {
      steps := [];
    } else {
      var front := run[..|run| - 1];
      forall i: nat | i + 1 < |front|
        ensures StepAt(front, i)
      {
        assert StepAt(run, i);
      }
      var before := RunHasTrace(front);
      assert StepAt(run, |run| - 2);
      var step :| Enabled(run[|run| - 2], step) && run[|run| - 1] == Do(run[|run| - 2], step);
      steps := before + [step];
      forall i | 0 <= i < |steps|
        ensures Steps(run, steps, i)
      {
        if i < |before| {
          assert Steps(front, before, i);
        }
      }
    }
  }

  // ---------------------------------------------------------------- stacks

  function Depth(k: Stack): nat {
    match k case Nil => 0 case On(_, rest) => 1 + Depth(rest)
  }

  /** The lowest d frames. */
  function Lowest(k: Stack, d: nat): Stack {
    if Depth(k) <= d then k else Lowest(k.rest, d)
  }

  /** The frame above the lowest d. */
  function FrameAt(k: Stack, d: nat): Frame
    requires Depth(k) > d
  {
    if Depth(k) == d + 1 then k.top else FrameAt(k.rest, d)
  }

  lemma {:induction false} LowestOfTop(k: Stack, d: nat)
    requires Depth(k) == d
    ensures forall f :: Lowest(On(f, k), d) == k && FrameAt(On(f, k), d) == f
  {
  }

  /** How a step changes the stack of its thread: it puts a call on top, or it replaces, covers or
      removes the top frame. */
  predicate StackFollows(k: Stack, k': Stack, call: bool) {
    if call then k'.On? && k'.rest == k
    else k.On? && (k' == k || k' == k.rest || (k'.On? && (k'.rest == k.rest || k'.rest == k)))
  }

  lemma StackStep(s: State, s': State, step: Step)
    requires Enabled(s, step) && s' == Do(s, step)
    ensures |s'.threads| == |s.threads| && s'.threads == s.threads[step.thread := s'.threads[step.thread]]
    ensures StackFollows(s.threads[step.thread], s'.threads[step.thread], !step.Advance?)
  {
    if step.Advance? {
      FrameStep(s, s', step.thread, step.throws);
    }
  }

  lemma FrameStep(s: State, s': State, t: nat, throws: bool)
    requires t < |s.threads| && s.threads[t].On? && s' == DoFrame(s, t, s.threads[t].top, throws, s.threads[t].rest)
    ensures |s'.threads| == |s.threads| && s'.threads == s.threads[t := s'.threads[t]]
    ensures StackFollows(s.threads[t], s'.threads[t], false)
  {
    var rest := s.threads[t].rest;
    match s.threads[t].top
    case Offering(event) => OfferingStep(s, s', t, event, throws, rest);
    case Refusing =>
    case Invocation(i) => InvocationStep(s, s', t, i, throws, rest);
    case Executor(e) => ExecutorStep(s, s', t, e, rest);
    case Control(c) => ControlStep(s, s', t, c, rest);
  }

  lemma OfferingStep(s: State, s': State, t: nat, event: Event, throws: bool, rest: Stack)
    requires t < |s.threads| && s.threads[t] == On(Offering(event), rest) && s' == DoOffering(s, t, event, throws, rest)
    ensures |s'.threads| == |s.threads| && s'.threads == s.threads[t := s'.threads[t]]
    ensures StackFollows(s.threads[t], s'.threads[t], false)
  {
  }

  lemma InvocationStep(s: State, s': State, t: nat, i: InvocationPoint, throws: bool, rest: Stack)
    requires t < |s.threads| && s.threads[t] == On(Invocation(i), rest) && s' == DoInvocation(s, t, i, throws, rest)
    ensures |s'.threads| == |s.threads| && s'.threads == s.threads[t := s'.threads[t]]
    ensures StackFollows(s.threads[t], s'.threads[t], false)
  {
    match i
    case Admitted(event) => assert s'.threads == s.threads[t := On(Invocation(Running(event)), rest)];
    case Running(_) => assert s'.threads == s.threads[t := On(Invocation(Counting), rest)];
    case Counting => assert s'.threads == s.threads[t := On(Invocation(Leaving), rest)];
    case Leaving => assert s'.threads == s.threads[t := if s.policy.Serialized? then On(Invocation(Unserial), rest) else rest];
    case Unserial => assert s'.threads == s.threads[t := rest];
  }

  lemma ExecutorStep(s: State, s': State, t: nat, e: ExecutorPoint, rest: Stack)
    requires t < |s.threads| && s.threads[t] == On(Executor(e), rest) && s' == DoExecutor(s, t, e, rest)
    ensures |s'.threads| == |s.threads| && s'.threads == s.threads[t := s'.threads[t]]
    ensures StackFollows(s.threads[t], s'.threads[t], false)
  {
    match e
    case Loop =>
    case Taken(event) =>
      assert s'.threads == s.threads[t := On(if s.active then Invocation(Admitted(event)) else Executor(Dropping), rest)];
    case Dropping => assert s'.threads == s.threads[t := rest];
  }

  lemma ControlStep(s: State, s': State, t: nat, c: ControlPoint, rest: Stack)
    requires t < |s.threads| && s.threads[t] == On(Control(c), rest) && s' == DoControl(s, t, c, rest)
    ensures |s'.threads| == |s.threads| && s'.threads == s.threads[t := s'.threads[t]]
    ensures StackFollows(s.threads[t], s'.threads[t], false)
  {
    match c
    case Deactivate => assert s'.threads[t].On?;
    case Retire(self) => assert s'.threads[t] == On(Control(StopMailbox(false, Unsubscribed(self))), rest);
    case StopMailbox(_, next) => assert s'.threads[t].On?;
    case JoinLock(next) => assert s'.threads[t] == On(Control(Join(next)), rest);
    case Join(next) => assert s'.threads[t] == On(Control(Waiting(next)), rest);
    case Waiting(_) => assert s'.threads[t] == rest;
  }

  /** A step above the frame of a call leaves it, and what is below, where they are. */
  lemma StepAbove(k: Stack, k': Stack, call: bool, d: nat)
    requires StackFollows(k, k', call) && Depth(k) > d && (call || Depth(k) > d + 1)
    ensures Depth(k') > d && FrameAt(k', d) == FrameAt(k, d) && Lowest(k', d) == Lowest(k, d)
  {
  }

  // ---------------------------------------------------------------- what belongs to a call

  /** Thread t makes this call in step i, over its stack of d frames, and returns in the step to j. */
  ghost predicate Call(run: seq<State>, steps: seq<Step>, i: nat, j: nat, t: nat, d: nat) {
    && IsTrace(run, steps) && i + 1 < j <= |steps|
    && !steps[i].Advance? && steps[i].thread == t
    && (forall m | i <= m <= j :: t < |run[m].threads|)
    && Depth(run[i].threads[t]) == d
    && (forall m | i < m < j :: Depth(run[m].threads[t]) > d)
    && Depth(run[j].threads[t]) <= d
  }

  /** A step of the call itself, not of one nested in it. */
  ghost predicate OwnStep(run: seq<State>, steps: seq<Step>, m: nat, t: nat, d: nat)
    requires |run| == |steps| + 1 && m < |steps|
  {
    steps[m].thread == t && steps[m].Advance? && t < |run[m].threads| && Depth(run[m].threads[t]) == d + 1
  }

  /** The step of a call: its own advances the frame, any other leaves it. */
  lemma CallStep(run: seq<State>, steps: seq<Step>, i: nat, m: nat, j: nat, t: nat, d: nat)
    requires Call(run, steps, i, j, t, d) && i < m < j
    ensures Inv(run[m]) && Enabled(run[m], steps[m]) && run[m + 1] == Do(run[m], steps[m])
    ensures !OwnStep(run, steps, m, t, d) ==>
              && m + 1 < j && FrameAt(run[m + 1].threads[t], d) == FrameAt(run[m].threads[t], d)
              && Lowest(run[m + 1].threads[t], d) == Lowest(run[m].threads[t], d)
  {
    UnderWayAt(run, steps, i, m, j, t, d);
    StepFacts(run, steps, m);
    if !OwnStep(run, steps, m, t, d) {
      OtherStepAt(run, steps, m, t, d);
    }
  }

  /** What a call that is under way says of a moment in it. */
  lemma UnderWayAt(run: seq<State>, steps: seq<Step>, i: nat, m: nat, j: nat, t: nat, d: nat)
    requires Call(run, steps, i, j, t, d) && i < m < j
    ensures IsTrace(run, steps) && m < |steps| && t < |run[m].threads| && t < |run[m + 1].threads| && Depth(run[m].threads[t]) > d
    ensures Depth(run[m + 1].threads[t]) > d ==> m + 1 < j
  {
  }

  lemma StepFacts(run: seq<State>, steps: seq<Step>, m: nat)
    requires IsTrace(run, steps) && m < |steps|
    ensures Inv(run[m]) && Enabled(run[m], steps[m]) && run[m + 1] == Do(run[m], steps[m])
  {
    TraceIsRun(run, steps);
    RunKeepsInv(run, m);
    assert Steps(run, steps, m);
  }

  lemma OtherStepAt(run: seq<State>, steps: seq<Step>, m: nat, t: nat, d: nat)
    requires IsTrace(run, steps) && m < |steps| && t < |run[m].threads| && Depth(run[m].threads[t]) > d && !OwnStep(run, steps, m, t, d)
    ensures |run[m + 1].threads| == |run[m].threads| && Depth(run[m + 1].threads[t]) > d
    ensures FrameAt(run[m + 1].threads[t], d) == FrameAt(run[m].threads[t], d)
    ensures Lowest(run[m + 1].threads[t], d) == Lowest(run[m].threads[t], d)
  {
    assert Steps(run, steps, m);
    StackStep(run[m], run[m + 1], steps[m]);
    OtherStep(run[m], run[m + 1], steps[m], t, d);
  }

  lemma OtherStep(s: State, s': State, step: Step, t: nat, d: nat)
    requires t < |s.threads| == |s'.threads| && step.thread < |s.threads| && s'.threads == s.threads[step.thread := s'.threads[step.thread]]
    requires StackFollows(s.threads[step.thread], s'.threads[step.thread], !step.Advance?)
    requires Depth(s.threads[t]) > d && !(step.thread == t && step.Advance? && Depth(s.threads[t]) == d + 1)
    ensures Depth(s'.threads[t]) > d && FrameAt(s'.threads[t], d) == FrameAt(s.threads[t], d)
    ensures Lowest(s'.threads[t], d) == Lowest(s.threads[t], d)
  {
    if step.thread == t {
      StepAbove(s.threads[t], s'.threads[t], !step.Advance?, d);
    }
  }

  lemma CallStarts(run: seq<State>, steps: seq<Step>, i: nat, j: nat, t: nat, d: nat)
    requires Call(run, steps, i, j, t, d)
    ensures Depth(run[i + 1].threads[t]) > d && Lowest(run[i + 1].threads[t], d) == run[i].threads[t]
    ensures run[i + 1].threads[t] == On(FrameAt(run[i + 1].threads[t], d), run[i].threads[t])
    ensures FrameAt(run[i + 1].threads[t], d) == match steps[i]
                                                 case Offer(_, event) => Offering(event)
                                                 case Unsubscribe(_) => Control(Deactivate)
                                                 case Stop(_, drain) => Control(StopMailbox(drain, Return))
                                                 case Advance(_, _) => Refusing
  {
    assert Steps(run, steps, i);
  }

  /** What is below a call stays there. */
  lemma {:induction false} BelowStays(run: seq<State>, steps: seq<Step>, i: nat, m: nat, j: nat, t: nat, d: nat)
    requires Call(run, steps, i, j, t, d) && i < m < j
    ensures Lowest(run[m].threads[t], d) == run[i].threads[t]
    decreases m
  {
    if m == i + 1 {
      CallStarts(run, steps, i, j, t, d);
    } else {
      BelowStays(run, steps, i, m - 1, j, t, d);
      CallStep(run, steps, i, m - 1, j, t, d);
      if OwnStep(run, steps, m - 1, t, d) {
        StackStep(run[m - 1], run[m], steps[m - 1]);
        OwnAbove(run[m - 1].threads[t], run[m].threads[t], d);
      }
    }
  }

  lemma OwnAbove(k: Stack, k': Stack, d: nat)
    requires StackFollows(k, k', false) && Depth(k) == d + 1 && Depth(k') > d
    ensures Lowest(k', d) == Lowest(k, d)
  {
  }

  /** At an own step the stack is the frame of the call on what was below it. */
  lemma OwnStack(run: seq<State>, steps: seq<Step>, i: nat, m: nat, j: nat, t: nat, d: nat)
    requires Call(run, steps, i, j, t, d) && i < m < j && OwnStep(run, steps, m, t, d)
    ensures run[m].threads[t] == On(FrameAt(run[m].threads[t], d), run[i].threads[t])
  {
    BelowStays(run, steps, i, m, j, t, d);
  }

  // ---------------------------------------------------------------- what a call adds

  /** What steps add to the history and to the metrics. */
  datatype Gain = Gain(invoked: seq<Event>, mailed: seq<Event>, cleared: seq<Event>,
                       delivered: int, dropped: int, rejected: int, errors: int, retirements: int)

  const NOTHING := Gain([], [], [], 0, 0, 0, 0, 0)

  function Plus(a: Gain, b: Gain): Gain {
    if b == NOTHING then a
    else if a == NOTHING then b
    else Gain(a.invoked + b.invoked, a.mailed + b.mailed, a.cleared + b.cleared, a.delivered + b.delivered,
              a.dropped + b.dropped, a.rejected + b.rejected, a.errors + b.errors, a.retirements + b.retirements)
  }

  function Grown(before: seq<Event>, after: seq<Event>): seq<Event> {
    if before <= after then after[|before|..] else []
  }

  function Between(s: State, s': State): Gain {
    Gain(Grown(s.history.invoked, s'.history.invoked), Grown(s.history.accepted, s'.history.accepted),
         Grown(s.history.cleared, s'.history.cleared),
         s'.metrics.delivered - s.metrics.delivered, s'.metrics.dropped - s.metrics.dropped,
         s'.metrics.rejected - s.metrics.rejected, s'.metrics.errors - s.metrics.errors, s'.retirements - s.retirements)
  }

  /** What the own steps of a call have added from i to n. */
  ghost function Gains(run: seq<State>, steps: seq<Step>, i: nat, n: nat, t: nat, d: nat): Gain
    requires |run| == |steps| + 1 && i < n <= |steps|
    decreases n
  {
    if n == i + 1 then NOTHING
    else
      var before := Gains(run, steps, i, n - 1, t, d);
      if OwnStep(run, steps, n - 1, t, d) then Plus(before, Between(run[n - 1], run[n])) else before
  }
}
