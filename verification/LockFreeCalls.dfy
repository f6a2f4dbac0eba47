/** What the calls of the lock-free queue answer, over every interleaving: each answer is tied to the
    arguments of its call and to what the call itself has done. */
module LockFreeCalls {
  import opened Wrappers
  import opened Tally
  import opened LockFreeQueue
  import opened LockFreeSafety
  import opened LockFreeTheorems

  // ---------------------------------------------------------------- runs with their steps

  ghost predicate Steps(run: seq<State>, steps: seq<Step>, i: nat)
    requires |run| == |steps| + 1 && i < |steps|
  {
    Enabled(run[i], steps[i]) && run[i + 1] == Do(run[i], steps[i])
  }

  ghost predicate IsTrace(run: seq<State>, steps: seq<Step>) {
    && |run| == |steps| + 1 && Init(run[0])
    && forall i | 0 <= i < |steps| :: Steps(run, steps, i)
  }

  lemma TraceIsRun(run: seq<State>, steps: seq<Step>)
    requires IsTrace(run, steps)
    ensures IsRun(run)
  {
    forall i: nat | i + 1 < |run|
      ensures StepAt(run, i)
    {
      assert Steps(run, steps, i);
    }
  }

  /** Every run is the run of some steps. */
  lemma {:induction false} RunHasTrace(run: seq<State>) returns (steps: seq<Step>)
    requires IsRun(run)
    ensures IsTrace(run, steps)
    decreases |run|
  {
    if |run| == 1 {
      steps := [];
    } else {
      var front := run[..|run| - 1];
      forall i: nat | i + 1 < |front|
        ensures StepAt(front, i)
      {
        assert StepAt(run, i);
      }
      var before := RunHasTrace(front);
      assert StepAt(run, |run| - 2);
      var step :| Enabled(run[|run| - 2], step) && run[|run| - 1] == Do(run[|run| - 2], step);
      steps := before + [step];
      forall i | 0 <= i < |steps|
        ensures Steps(run, steps, i)
      {
        if i < |before| {
          assert Steps(front, before, i);
        }
      }
    }
  }

  // ---------------------------------------------------------------- a thread and its call

  /** Where a thread can be in a push of an event: it carries the event until it has published it. */
  ghost predicate FitsPush(s: State, l: Local, event: Event) {
    match l
    case GateLoad(op) => op == Push(event)
    case GateSwap(op, seen) => op == Push(event) && !seen.closed
    case Producer(p) =>
      (match p
       case Reserve(e) => e == event
       case Construct(e, _) => e == event
       case PutBack(_) => true
       case CountUp(slot) => slot < |s.slots| && s.slots[slot] == Some(event)
       case Publish(slot) => slot < |s.slots| && s.slots[slot] == Some(event)
       case LeaveProducer(outcome) => outcome in {Success, Full, Threw})
    case Done(outcome) => outcome in {Success, Full, Threw, Closed}
    case _ => false
  }

  /** Where a thread can be in a pop. */
  predicate FitsPop(l: Local) {
    match l
    case GateLoad(op) => op.Pop?
    case GateSwap(op, _) => op.Pop?
    case Consumer(c) => c.LeaveConsumer? ==> c.outcome in {Closed, Empty} || c.outcome.Popped?
    case Done(outcome) => outcome in {Closed, Empty} || outcome.Popped?
    case _ => false
  }

  /** Where a thread can be in a `close` or, with `discard`, a `close_and_discard`. */
  predicate FitsClose(l: Local, discard: bool) {
    match l
    case Lock(d) => d == discard
    case Closer(k) =>
      (match k
       case CloseProducers(d) => d == discard
       case WaitProducers(d) => d == discard
       case Quiesce(d) => d == discard
       case Unlock(outcome) => if discard then outcome.Discarded? else outcome == Success
       case _ => discard)
    case Done(outcome) => if discard then outcome.Discarded? else outcome == Success
    case _ => false
  }

  ghost predicate Fits(s: State, l: Local, call: Step) {
    match call
    case StartPush(_, event) => FitsPush(s, l, event)
    case StartPop(_) => FitsPop(l)
    case StartClose(_, discard) => FitsClose(l, discard)
    case Advance(_, _) => false
  }

  predicate AtPublish(l: Local) {
    l.Producer? && l.p.Publish?
  }

  /** The thread has published the event of its push. */
  predicate HasPublished(l: Local) {
    (l.Producer? && l.p == LeaveProducer(Success)) || l == Done(Success)
  }

  predicate AtClaim(l: Local) {
    l == Consumer(Claim)
  }

  predicate AtSweepDestroy(l: Local) {
    l.Closer? && l.k.SweepDestroy?
  }

  /** The events that a step of a thread adds to the accepted ones: one, when it publishes. */
  ghost predicate AcceptedBy(s: State, s': State, l: Local) {
    s'.accepted == if AtPublish(l) then s.accepted + [Contents(s, l.p.slot)] else s.accepted
  }

  /** What a step of a thread in its call does. */
  ghost predicate Goes(s: State, s': State, t: nat, call: Step) {
    && t < |s.threads| == |s'.threads|
    && var l, l' := s.threads[t], s'.threads[t];
       && Fits(s', l', call)
       && AcceptedBy(s, s', l)
       && (call.StartPush? ==> (HasPublished(l') <==> AtPublish(l) || HasPublished(l)))
       && s'.discards == s.discards + (if AtSweepDestroy(l) then 1 else 0)
  }

  // ------------------------------------------------ where a step of a call leads

  lemma GateFits(s: State, s': State, t: nat, unlucky: bool, call: Step)
    requires t < |s.threads| && (s.threads[t].GateLoad? || s.threads[t].GateSwap?) && s' == DoGate(s, t, unlucky)
    requires Fits(s, s.threads[t], call)
    ensures |s'.threads| == |s.threads| && Fits(s', s'.threads[t], call)
  {
  }

  lemma EarlyPushFits(s: State, s': State, t: nat, unlucky: bool, event: Event)
    requires t < |s.threads| && s.threads[t].Producer? && s' == DoProducer(s, t, unlucky) && FitsPush(s, s.threads[t], event)
    requires s.threads[t].p.Reserve? || s.threads[t].p.Construct? || s.threads[t].p.PutBack?
    requires HandSound(s, s.threads[t])
    ensures |s'.threads| == |s.threads| && FitsPush(s', s'.threads[t], event)
  {
  }

  lemma LatePushFits(s: State, s': State, t: nat, unlucky: bool, event: Event)
    requires t < |s.threads| && s.threads[t].Producer? && s' == DoProducer(s, t, unlucky) && FitsPush(s, s.threads[t], event)
    requires s.threads[t].p.CountUp? || s.threads[t].p.Publish? || s.threads[t].p.LeaveProducer?
    ensures |s'.threads| == |s.threads| && FitsPush(s', s'.threads[t], event)
  {
  }

  predicate Carrying(c: ConsumerPoint) {
    c.MoveOut? || c.Destroy? || c.CountDown? || c.Release?
  }

  lemma ClaimFits(s: State, s': State, t: nat, unlucky: bool)
    requires t < |s.threads| && s.threads[t] == Consumer(Claim) && s' == DoConsumer(s, t, unlucky)
    ensures |s'.threads| == |s.threads| && FitsPop(s'.threads[t])
  {
  }

  lemma EmptyPopFits(s: State, s': State, t: nat, unlucky: bool)
    requires t < |s.threads| && s.threads[t].Consumer? && s' == DoConsumer(s, t, unlucky) && FitsPop(s.threads[t])
    requires s.threads[t].c.CheckQuiesced? || s.threads[t].c.LeaveConsumer?
    ensures |s'.threads| == |s.threads| && FitsPop(s'.threads[t])
  {
  }

  lemma FullPopFits(s: State, s': State, t: nat, unlucky: bool)
    requires t < |s.threads| && s.threads[t].Consumer? && s' == DoConsumer(s, t, unlucky) && Carrying(s.threads[t].c)
    ensures |s'.threads| == |s.threads| && FitsPop(s'.threads[t])
  {
  }

  predicate InSweep(k: CloserPoint) {
    k.Sweep? || k.SweepDestroy? || k.SweepCountDown? || k.SweepRelease?
  }

  lemma CloseFits(s: State, s': State, t: nat, unlucky: bool, discard: bool)
    requires t < |s.threads| && s.threads[t].Closer? && s' == DoCloser(s, t, unlucky) && FitsClose(s.threads[t], discard)
    requires !InSweep(s.threads[t].k)
    ensures |s'.threads| == |s.threads| && FitsClose(s'.threads[t], discard)
  {
  }

  lemma SweepFits(s: State, s': State, t: nat, unlucky: bool)
    requires t < |s.threads| && s.threads[t].Closer? && s' == DoCloser(s, t, unlucky)
    requires s.threads[t].k.Sweep? || s.threads[t].k.SweepRelease?
    ensures |s'.threads| == |s.threads| && FitsClose(s'.threads[t], true)
  {
  }

  lemma DestroyFits(s: State, s': State, t: nat, unlucky: bool)
    requires t < |s.threads| && s.threads[t].Closer? && s' == DoCloser(s, t, unlucky)
    requires s.threads[t].k.SweepDestroy? || s.threads[t].k.SweepCountDown?
    ensures |s'.threads| == |s.threads| && FitsClose(s'.threads[t], true)
  {
  }

  lemma AdvanceFits(s: State, s': State, t: nat, unlucky: bool, call: Step)
    requires Enabled(s, Advance(t, unlucky)) && s' == Do(s, Advance(t, unlucky)) && HandSound(s, s.threads[t])
    requires Fits(s, s.threads[t], call)
    ensures |s'.threads| == |s.threads| && Fits(s', s'.threads[t], call)
  {
    match s.threads[t]
    case Producer(p) =>
      if p.Reserve? || p.Construct? || p.PutBack? {
        EarlyPushFits(s, s', t, unlucky, call.event);
      } else {
        LatePushFits(s, s', t, unlucky, call.event);
      }
    case Consumer(c) =>
      if Carrying(c) {
        FullPopFits(s, s', t, unlucky);
      } else if c.Claim? {
        ClaimFits(s, s', t, unlucky);
      } else {
        EmptyPopFits(s, s', t, unlucky);
      }
    case Closer(k) =>
      if k.Sweep? || k.SweepRelease? {
        SweepFits(s, s', t, unlucky);
      } else if InSweep(k) {
        DestroyFits(s, s', t, unlucky);
      } else {
        CloseFits(s, s', t, unlucky, call.discard);
      }
    case GateLoad(_) => GateFits(s, s', t, unlucky, call);
    case GateSwap(_, _) => GateFits(s, s', t, unlucky, call);
    case Lock(discard) => assert s'.threads[t] == Closer(CloseProducers(discard));
  }

  // ------------------------------------------------ what it adds

  lemma ProducerAdds(s: State, s': State, t: nat, unlucky: bool)
    requires t < |s.threads| && s.threads[t].Producer? && s' == DoProducer(s, t, unlucky)
    ensures AcceptedBy(s, s', s.threads[t]) && s'.discards == s.discards
  {
  }

  lemma PublishesOnce(s: State, s': State, t: nat, unlucky: bool)
    requires t < |s.threads| && s.threads[t].Producer? && s' == DoProducer(s, t, unlucky)
    ensures |s'.threads| == |s.threads|
    ensures HasPublished(s'.threads[t]) <==> AtPublish(s.threads[t]) || HasPublished(s.threads[t])
  {
    match s.threads[t].p
    case Reserve(event) => assert !HasPublished(s'.threads[t]);
    case Construct(_, slot) => assert s'.threads[t] == if unlucky then Producer(PutBack(slot)) else Producer(CountUp(slot));
    case PutBack(_) => assert s'.threads[t] == Producer(LeaveProducer(Threw));
    case CountUp(slot) => assert s'.threads[t] == Producer(Publish(slot));
    case Publish(_) => assert s'.threads[t] == Producer(LeaveProducer(Success));
    case LeaveProducer(outcome) => assert s'.threads[t] == Done(outcome);
  }

  lemma ConsumerAdds(s: State, s': State, t: nat, unlucky: bool)
    requires t < |s.threads| && s.threads[t].Consumer? && s' == DoConsumer(s, t, unlucky)
    ensures s'.accepted == s.accepted && s'.discards == s.discards
  {
  }

  lemma CloserAdds(s: State, s': State, t: nat, unlucky: bool)
    requires t < |s.threads| && s.threads[t].Closer? && s' == DoCloser(s, t, unlucky)
    ensures s'.accepted == s.accepted
  {
  }

  lemma DestroyDiscards(s: State, s': State, t: nat, unlucky: bool)
    requires t < |s.threads| && AtSweepDestroy(s.threads[t]) && s' == DoCloser(s, t, unlucky)
    ensures s'.discards == s.discards + 1
  {
  }

  lemma CloserDiscards(s: State, s': State, t: nat, unlucky: bool)
    requires t < |s.threads| && s.threads[t].Closer? && !AtSweepDestroy(s.threads[t]) && s' == DoCloser(s, t, unlucky)
    ensures s'.discards == s.discards
  {
  }

  lemma AdvanceAdds(s: State, s': State, t: nat, unlucky: bool)
    requires Enabled(s, Advance(t, unlucky)) && s' == Do(s, Advance(t, unlucky))
    ensures AcceptedBy(s, s', s.threads[t])
    ensures s'.discards == s.discards + (if AtSweepDestroy(s.threads[t]) then 1 else 0)
  {
    match s.threads[t]
    case Producer(_) => ProducerAdds(s, s', t, unlucky);
    case Consumer(_) => ConsumerAdds(s, s', t, unlucky);
    case Closer(_) =>
      CloserAdds(s, s', t, unlucky);
      if AtSweepDestroy(s.threads[t]) {
        DestroyDiscards(s, s', t, unlucky);
      } else {
        CloserDiscards(s, s', t, unlucky);
      }
    case GateLoad(_) =>
    case GateSwap(_, _) =>
    case Lock(_) =>
  }

  lemma AdvanceGoes(s: State, s': State, t: nat, unlucky: bool, call: Step)
    requires Enabled(s, Advance(t, unlucky)) && s' == Do(s, Advance(t, unlucky)) && HandSound(s, s.threads[t])
    requires Fits(s, s.threads[t], call)
    ensures Goes(s, s', t, call)
  {
    AdvanceFits(s, s', t, unlucky, call);
    AdvanceAdds(s, s', t, unlucky);
    if s.threads[t].Producer? {
      PublishesOnce(s, s', t, unlucky);
    } else if call.StartPush? {
      NobodyElsePublishes(s, s', t, unlucky, call);
    }
  }

  lemma NobodyElsePublishes(s: State, s': State, t: nat, unlucky: bool, call: Step)
    requires Enabled(s, Advance(t, unlucky)) && s' == Do(s, Advance(t, unlucky)) && |s'.threads| == |s.threads|
    requires Fits(s, s.threads[t], call) && call.StartPush? && !s.threads[t].Producer?
    ensures !HasPublished(s'.threads[t])
  {
  }

  /** A call begins with its arguments and changes nothing else. */
  lemma StartGoes(s: State, s': State, step: Step)
    requires Enabled(s, step) && s' == Do(s, step) && !step.Advance?
    ensures step.thread < |s'.threads| && Fits(s', s'.threads[step.thread], step) && !Resting(s'.threads[step.thread])
    ensures s' == s.(threads := s.threads[step.thread := s'.threads[step.thread]])
    ensures !HasPublished(s'.threads[step.thread])
  {
  }

  /** The other threads stay in their calls. */
  lemma OthersFit(s: State, s': State, step: Step, t: nat, call: Step)
    requires Inv(s) && Enabled(s, step) && s' == Do(s, step) && t < |s.threads| && t != step.thread && Fits(s, s.threads[t], call)
    ensures |s'.threads| == |s.threads| && s'.threads[t] == s.threads[t] && Fits(s', s'.threads[t], call)
  {
    var move := StepKeeps(s, s', step);
    if SlotOf(s.threads[t]).Some? {
      OwnSlot(s, t);
    }
  }

  lemma StepFits(s: State, s': State, step: Step, t: nat, call: Step)
    requires Inv(s) && Enabled(s, step) && s' == Do(s, step) && t < |s.threads| && Fits(s, s.threads[t], call)
    requires step.thread == t ==> step.Advance?
    ensures |s'.threads| == |s.threads| && Fits(s', s'.threads[t], call)
    ensures step.thread == t ==> Goes(s, s', t, call)
    ensures step.thread != t ==> s'.threads[t] == s.threads[t]
  {
    if step.thread == t {
      assert HandSound(s, s.threads[t]);
      AdvanceGoes(s, s', t, step.unlucky, call);
    } else {
      OthersFit(s, s', step, t, call);
    }
  }

  // ---------------------------------------------------------------- a whole call

  /** Thread t makes this call in step i and has its answer at j. */
  ghost predicate Call(run: seq<State>, steps: seq<Step>, i: nat, j: nat, t: nat) {
    && IsTrace(run, steps) && i + 1 < j <= |steps|
    && !steps[i].Advance? && steps[i].thread == t
    && (forall m | i <= m <= j :: t < |run[m].threads|)
    && (forall m | i < m < j :: !Resting(run[m].threads[t]))
    && run[j].threads[t].Done?
  }

  /** What holds after one more step of such a call. */
  lemma CallStep(run: seq<State>, steps: seq<Step>, i: nat, m: nat, j: nat, t: nat)
    requires Call(run, steps, i, j, t) && i < m < j && Fits(run[m], run[m].threads[t], steps[i])
    ensures Inv(run[m]) && Fits(run[m + 1], run[m + 1].threads[t], steps[i])
    ensures steps[m].thread == t ==> steps[m].Advance? && Goes(run[m], run[m + 1], t, steps[i])
    ensures steps[m].thread != t ==> run[m + 1].threads[t] == run[m].threads[t]
  {
    TraceIsRun(run, steps);
    RunKeepsInv(run, m);
    assert Steps(run, steps, m);
    StepFits(run[m], run[m + 1], steps[m], t, steps[i]);
  }

  lemma {:induction false} CallStands(run: seq<State>, steps: seq<Step>, i: nat, m: nat, j: nat, t: nat)
    requires Call(run, steps, i, j, t) && i < m <= j
    ensures Fits(run[m], run[m].threads[t], steps[i])
  {
    if m == i + 1 {
      assert Steps(run, steps, i);
      StartGoes(run[i], run[m], steps[i]);
    } else {
      CallStands(run, steps, i, m - 1, j, t);
      CallStep(run, steps, i, m - 1, j, t);
    }
  }

  // ---------------------------------------------------------------- pushes

  /** What the steps of thread t from i to n have added to the accepted events. */
  ghost function Gains(run: seq<State>, steps: seq<Step>, i: nat, n: nat, t: nat): seq<Event>
    requires |run| == |steps| + 1 && i <= n <= |steps|
    decreases n
  {
    if n == i then []
    else Gains(run, steps, i, n - 1, t) + (if steps[n - 1].thread == t then Added(run[n - 1], run[n]) else [])
  }

  ghost function Added(s: State, s': State): seq<Event> {
    if s.accepted <= s'.accepted then s'.accepted[|s.accepted|..] else []
  }

  /** A push has published its event, once, exactly if it is past its publication. */
  lemma {:induction false} GainsStand(run: seq<State>, steps: seq<Step>, i: nat, n: nat, j: nat, t: nat)
    requires Call(run, steps, i, j, t) && steps[i].StartPush? && i < n <= j
    ensures Gains(run, steps, i, n, t) == if HasPublished(run[n].threads[t]) then [steps[i].event] else []
  {
    CallStands(run, steps, i, n, j, t);
    if n == i + 1 {
      assert Steps(run, steps, i);
      StartGoes(run[i], run[n], steps[i]);
      assert Gains(run, steps, i, i, t) == [];
    } else {
      GainsStand(run, steps, i, n - 1, j, t);
      CallStands(run, steps, i, n - 1, j, t);
      CallStep(run, steps, i, n - 1, j, t);
      if steps[n - 1].thread == t {
        OwnGain(run[n - 1], run[n], t, steps[i]);
      }
    }
  }

  lemma OwnGain(s: State, s': State, t: nat, call: Step)
    requires t < |s.threads| && call.StartPush? && FitsPush(s, s.threads[t], call.event) && !Resting(s.threads[t]) && Goes(s, s', t, call)
    ensures Added(s, s') == if AtPublish(s.threads[t]) then [call.event] else []
    ensures AtPublish(s.threads[t]) ==> !HasPublished(s.threads[t]) && HasPublished(s'.threads[t])
    ensures !AtPublish(s.threads[t]) ==> (HasPublished(s'.threads[t]) <==> HasPublished(s.threads[t]))
  {
  }

  /** The outcome that a push is bound for. */
  function Heading(l: Local): Option<Outcome> {
    match l
    case Producer(p) => if p.LeaveProducer? then Some(p.outcome) else if p.PutBack? then Some(Threw) else None
    case Consumer(c) => if c.LeaveConsumer? then Some(c.outcome) else None
    case Done(outcome) => Some(outcome)
    case _ => None
  }

  /** The available ring may answer empty. */
  predicate NoRoom(s: State) {
    s.available == [] || s.producers.active > 1 || s.consumers.active > 0 || s.mostProducers > 2 * s.capacity
  }

  /** Why a push fails in a step: the gate is closed, the ring answers empty, or the constructor throws. */
  predicate FailsHere(s: State, step: Step, outcome: Outcome)
    requires step.thread < |s.threads|
  {
    var l := s.threads[step.thread];
    match outcome
    case Closed => (l.GateLoad? || l.GateSwap?) && s.producers.closed
    case Full => l.Producer? && l.p.Reserve? && NoRoom(s)
    case Threw => l.Producer? && l.p.Construct? && step.Advance? && step.unlucky
    case _ => false
  }

  predicate Failure(outcome: Option<Outcome>) {
    outcome in {Some(Closed), Some(Full), Some(Threw)}
  }

  lemma TurnsToFail(s: State, s': State, t: nat, unlucky: bool, event: Event)
    requires Enabled(s, Advance(t, unlucky)) && s' == Do(s, Advance(t, unlucky)) && FitsPush(s, s.threads[t], event)
    ensures |s'.threads| == |s.threads|
    ensures Heading(s'.threads[t]) == Heading(s.threads[t])
            || (Heading(s.threads[t]) == None
                && (Failure(Heading(s'.threads[t])) ==> FailsHere(s, Advance(t, unlucky), Heading(s'.threads[t]).value)))
  {
    match s.threads[t]
    case GateLoad(_) =>
    case GateSwap(_, _) =>
    case Producer(p) => ProducerTurns(s, s', t, unlucky);
  }

  lemma ProducerTurns(s: State, s': State, t: nat, unlucky: bool)
    requires t < |s.threads| && s.threads[t].Producer? && s' == DoProducer(s, t, unlucky) && (unlucky ==> MayBeUnlucky(s, s.threads[t]))
    ensures |s'.threads| == |s.threads|
    ensures Heading(s'.threads[t]) == Heading(s.threads[t])
            || (Heading(s.threads[t]) == None
                && (Failure(Heading(s'.threads[t])) ==> FailsHere(s, Advance(t, unlucky), Heading(s'.threads[t]).value)))
  {
    match s.threads[t].p
    case Reserve(_) => assert s'.threads[t].Producer?;
    case Construct(_, slot) => assert s'.threads[t] == if unlucky then Producer(PutBack(slot)) else Producer(CountUp(slot));
    case PutBack(_) => assert s'.threads[t] == Producer(LeaveProducer(Threw));
    case CountUp(slot) => assert s'.threads[t] == Producer(Publish(slot));
    case Publish(_) => assert s'.threads[t] == Producer(LeaveProducer(Success));
    case LeaveProducer(outcome) => assert s'.threads[t] == Done(outcome);
  }

  /** Step m of thread t is why its push is bound for this outcome. */
  ghost predicate Reason(run: seq<State>, steps: seq<Step>, i: nat, n: nat, t: nat, m: nat, outcome: Outcome)
    requires |run| == |steps| + 1 && n <= |steps|
  {
    i < m < n && steps[m].thread == t && t < |run[m].threads| && FailsHere(run[m], steps[m], outcome)
  }

  lemma FailStep(run: seq<State>, steps: seq<Step>, i: nat, n: nat, j: nat, t: nat)
    requires Call(run, steps, i, j, t) && steps[i].StartPush? && i < n < j
    ensures Heading(run[n + 1].threads[t]) == Heading(run[n].threads[t])
            || (Failure(Heading(run[n + 1].threads[t])) ==>
                  Reason(run, steps, i, n + 1, t, n, Heading(run[n + 1].threads[t]).value))
  {
    CallStands(run, steps, i, n, j, t);
    CallStep(run, steps, i, n, j, t);
    assert Steps(run, steps, n);
    if steps[n].thread == t {
      TurnsToFail(run[n], run[n + 1], t, steps[n].unlucky, steps[i].event);
    }
  }

  /** A push that is bound to fail has had its reason in a step of its own. */
  lemma {:induction false} PushFails(run: seq<State>, steps: seq<Step>, i: nat, n: nat, j: nat, t: nat) returns (m: nat)
    requires Call(run, steps, i, j, t) && steps[i].StartPush? && i < n <= j
    ensures Failure(Heading(run[n].threads[t])) ==> Reason(run, steps, i, n, t, m, Heading(run[n].threads[t]).value)
  {
    m := i;
    if n == i + 1 {
      assert Steps(run, steps, i);
      StartGoes(run[i], run[n], steps[i]);
      CallStands(run, steps, i, n, j, t);
    } else {
      m := PushFails(run, steps, i, n - 1, j, t);
      FailStep(run, steps, i, n - 1, j, t);
      if Heading(run[n].threads[t]) != Heading(run[n - 1].threads[t]) {
        m := n - 1;
      }
    }
  }

  /** At a closed gate a push does not get in. */
  lemma {:induction false} StaysOut(run: seq<State>, steps: seq<Step>, i: nat, n: nat, j: nat, t: nat)
    requires Call(run, steps, i, j, t) && steps[i].StartPush? && i < n <= j && run[i].producers.closed
    ensures run[n].threads[t].GateLoad? || run[n].threads[t].GateSwap? || run[n].threads[t] == Done(Closed)
  {
    if n == i + 1 {
      assert Steps(run, steps, i);
    } else {
      StaysOut(run, steps, i, n - 1, j, t);
      CallStands(run, steps, i, n - 1, j, t);
      CallStep(run, steps, i, n - 1, j, t);
      TraceIsRun(run, steps);
      RunEvolves(run, i, n - 1);
      assert Steps(run, steps, n - 1);
      if steps[n - 1].thread == t {
        TurnedAway(run[n - 1], run[n], t, steps[n - 1].unlucky, steps[i].event);
      }
    }
  }

  lemma TurnedAway(s: State, s': State, t: nat, unlucky: bool, event: Event)
    requires t < |s.threads| && (s.threads[t].GateLoad? || s.threads[t].GateSwap?) && s' == DoGate(s, t, unlucky)
    requires s.producers.closed && FitsPush(s, s.threads[t], event)
    ensures t < |s'.threads| && s'.threads[t] == Done(Closed)
  {
  }

  /** The answer of a push, over any interleaving: it is success exactly if the call itself has added
      its own event to the accepted ones, once, and otherwise it has added nothing; a push that began
      at a closed gate answers closed; and closed, full and thrown each have their reason in one of
      the call's own steps. */
  lemma PushAnswersForItself(run: seq<State>, steps: seq<Step>, i: nat, j: nat, t: nat) returns (m: nat)
    requires Call(run, steps, i, j, t) && steps[i].StartPush?
    ensures var outcome := run[j].threads[t].outcome;
            && outcome in {Success, Closed, Full, Threw}
            && Gains(run, steps, i, j, t) == (if outcome == Success then [steps[i].event] else [])
            && (run[i].producers.closed ==> outcome == Closed)
            && (outcome != Success ==> Reason(run, steps, i, j, t, m, outcome))
  {
    CallStands(run, steps, i, j, j, t);
    GainsStand(run, steps, i, j, j, t);
    m := PushFails(run, steps, i, j, j, t);
    if run[i].producers.closed {
      StaysOut(run, steps, i, j, j, t);
    }
  }

  // ---------------------------------------------------------------- all pushes together

  /** A push answers success in this step. */
  predicate PushSucceeds(s: State, s': State, t: nat) {
    && t < |s.threads| && t < |s'.threads| && s'.threads[t] == Done(Success)
    && (s.threads[t].Producer? || s.threads[t].GateLoad? || s.threads[t].GateSwap?)
  }

  ghost function Successes(run: seq<State>, steps: seq<Step>, n: nat): nat
    requires |run| == |steps| + 1 && n <= |steps|
  {
    if n == 0 then 0
    else Successes(run, steps, n - 1) + (if PushSucceeds(run[n - 1], run[n], steps[n - 1].thread) then 1 else 0)
  }

  /** A push that has published and not returned. */
  function NotYetBack(l: Local): nat {
    if l.Producer? && l.p == LeaveProducer(Success) then 1 else 0
  }

  lemma ProducerReturns(s: State, s': State, t: nat, unlucky: bool)
    requires t < |s.threads| && s.threads[t].Producer? && s' == DoProducer(s, t, unlucky) && |s'.threads| == |s.threads|
    ensures if s.threads[t].p.LeaveProducer? then s'.threads[t].Done? else s'.threads[t].Producer?
  {
    match s.threads[t].p
    case Reserve(_) => assert s'.threads[t].Producer?;
    case Construct(_, slot) => assert s'.threads[t] == if unlucky then Producer(PutBack(slot)) else Producer(CountUp(slot));
    case PutBack(_) => assert s'.threads[t] == Producer(LeaveProducer(Threw));
    case CountUp(slot) => assert s'.threads[t] == Producer(Publish(slot));
    case Publish(_) => assert s'.threads[t] == Producer(LeaveProducer(Success));
    case LeaveProducer(outcome) => assert s'.threads[t] == Done(outcome);
  }

  lemma ProducerCounts(s: State, s': State, t: nat, unlucky: bool)
    requires t < |s.threads| && s.threads[t].Producer? && s' == DoProducer(s, t, unlucky)
    ensures |s'.threads| == |s.threads|
    ensures NotYetBack(s.threads[t]) + (if AtPublish(s.threads[t]) then 1 else 0)
         == NotYetBack(s'.threads[t]) + (if PushSucceeds(s, s', t) then 1 else 0)
  {
    PublishesOnce(s, s', t, unlucky);
    ProducerReturns(s, s', t, unlucky);
  }

  lemma StepCounts(s: State, s': State, step: Step)
    requires Inv(s) && Enabled(s, step) && s' == Do(s, step)
    ensures |s'.threads| == |s.threads|
    ensures |s'.accepted| + Sum(NotYetBack, s.threads)
         == |s.accepted| + Sum(NotYetBack, s'.threads) + (if PushSucceeds(s, s', step.thread) then 1 else 0)
  {
    var t := step.thread;
    var move := StepKeeps(s, s', step);
    SumUpdate(NotYetBack, s.threads, t, s'.threads[t]);
    if step.Advance? {
      AdvanceAdds(s, s', t, step.unlucky);
      if s.threads[t].Producer? {
        ProducerCounts(s, s', t, step.unlucky);
      } else {
        NotAPush(s, s', t, step.unlucky);
      }
    } else {
      StartGoes(s, s', step);
    }
  }

  lemma NotAPush(s: State, s': State, t: nat, unlucky: bool)
    requires Enabled(s, Advance(t, unlucky)) && s' == Do(s, Advance(t, unlucky)) && |s'.threads| == |s.threads| && !s.threads[t].Producer?
    ensures NotYetBack(s'.threads[t]) == NotYetBack(s.threads[t]) == 0 && !PushSucceeds(s, s', t)
  {
    match s.threads[t]
    case GateLoad(_) => GateIsNoPush(s, s', t, unlucky);
    case GateSwap(_, _) => GateIsNoPush(s, s', t, unlucky);
    case Consumer(_) => ConsumerIsNoPush(s, s', t, unlucky);
    case Closer(_) => CloserIsNoPush(s, s', t, unlucky);
    case Lock(discard) => assert s'.threads[t] == Closer(CloseProducers(discard));
  }

  lemma GateIsNoPush(s: State, s': State, t: nat, unlucky: bool)
    requires t < |s.threads| && (s.threads[t].GateLoad? || s.threads[t].GateSwap?) && s' == DoGate(s, t, unlucky)
    ensures t < |s'.threads| && !HasPublished(s'.threads[t])
  {
  }

  lemma ConsumerIsNoPush(s: State, s': State, t: nat, unlucky: bool)
    requires t < |s.threads| && s.threads[t].Consumer? && s' == DoConsumer(s, t, unlucky) && |s'.threads| == |s.threads|
    ensures !s'.threads[t].Producer?
  {
    match s.threads[t].c
    case Claim => assert s'.threads[t].Consumer?;
    case CheckQuiesced => assert s'.threads[t].Consumer?;
    case MoveOut(slot, ticket) => assert s'.threads[t].Consumer?;
    case Destroy(slot, ticket, event) => assert s'.threads[t].Consumer?;
    case CountDown(slot, ticket, event) => assert s'.threads[t].Consumer?;
    case Release(_, ticket, event) => assert s'.threads[t].Consumer?;
    case LeaveConsumer(outcome) => assert s'.threads[t] == Done(outcome);
  }

  lemma CloserIsNoPush(s: State, s': State, t: nat, unlucky: bool)
    requires t < |s.threads| && s.threads[t].Closer? && s' == DoCloser(s, t, unlucky) && |s'.threads| == |s.threads|
    ensures !s'.threads[t].Producer?
  {
    match s.threads[t].k
    case CloseProducers(_) => assert s'.threads[t].Closer?;
    case WaitProducers(_) => assert s'.threads[t].Closer?;
    case Quiesce(_) => assert s'.threads[t].Closer?;
    case CloseConsumers => assert s'.threads[t].Closer?;
    case WaitConsumers => assert s'.threads[t].Closer?;
    case Sweep(_) => assert s'.threads[t].Closer?;
    case SweepDestroy(_, _, _) => assert s'.threads[t].Closer?;
    case SweepCountDown(_, _) => assert s'.threads[t].Closer?;
    case SweepRelease(_, _) => assert s'.threads[t].Closer?;
    case Unlock(outcome) => assert s'.threads[t] == Done(outcome);
  }

  /** At any moment the accepted events are as many as the pushes that have answered success and the
      publishers that have not returned yet. */
  lemma {:induction false} SuccessesAreAccepted(run: seq<State>, steps: seq<Step>, n: nat)
    requires IsTrace(run, steps) && n <= |steps|
    ensures |run[n].accepted| == Successes(run, steps, n) + Sum(NotYetBack, run[n].threads)
  {
    if n == 0 {
      SumZero(NotYetBack, run[0].threads);
    } else {
      SuccessesAreAccepted(run, steps, n - 1);
      TraceIsRun(run, steps);
      RunKeepsInv(run, n - 1);
      assert Steps(run, steps, n - 1);
      StepCounts(run[n - 1], run[n], steps[n - 1]);
    }
  }
}
