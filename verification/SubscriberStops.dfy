/** What `stop_delivery` and `unsubscribe` have done when they return, over every interleaving. */
module SubscriberStops {
  import opened Wrappers
  import opened Tally
  import opened Subscriber
  import opened SubscriberSafety
  import opened SubscriberTheorems
  import opened SubscriberRuns

  // ---------------------------------------------------------------- one step of a stop

  predicate StopPhase(f: Frame, next: Then) {
    f.Control? && (f.c == JoinLock(next) || f.c == Join(next) || f.c == Waiting(next))
  }

  lemma GrownBy(before: seq<Event>, more: seq<Event>)
    ensures Grown(before, before + more) == more && Grown(before, before) == []
  {
  }

  /** What the critical section of a stop adds: a discard clears the mailbox and counts its entries as
      dropped, a drain leaves everything. */
  function StopGain(isolated: bool, drain: bool, entries: seq<Event>): Gain {
    if isolated && !drain then NOTHING.(cleared := entries, dropped := |entries|) else NOTHING
  }

  /** What it leaves. */
  predicate StopLeaves(s: State, s': State, drain: bool) {
    s'.mailbox == if s.policy.Isolated? then Mailbox(if drain then s.mailbox.events else [], false, true, s.mailbox.drain && drain)
                  else s.mailbox
  }

  lemma SectionStep(s: State, s': State, t: nat, drain: bool, next: Then, k: Stack)
    requires t < |s.threads| && s.threads[t] == On(Control(StopMailbox(drain, next)), k)
    requires s' == DoControl(s, t, StopMailbox(drain, next), k)
    ensures |s'.threads| == |s.threads|
    ensures s'.threads[t] == On(Control(if s.policy.Isolated? then JoinLock(next) else Waiting(next)), k)
    ensures StopLeaves(s, s', drain) && Between(s, s') == StopGain(s.policy.Isolated?, drain, s.mailbox.events)
  {
    GrownBy(s.history.cleared, s.mailbox.events);
    GrownBy(s.history.cleared, []);
    assert s.history.cleared + [] == s.history.cleared;
  }

  lemma LaterStep(s: State, s': State, t: nat, c: ControlPoint, next: Then, k: Stack)
    requires t < |s.threads| && s.threads[t] == On(Control(c), k) && StopPhase(Control(c), next) && MayControl(s, t, c)
    requires s' == DoControl(s, t, c, k)
    ensures |s'.threads| == |s.threads| && Between(s, s') == NOTHING
    ensures s'.threads[t] == match c
                             case JoinLock(_) => On(Control(Join(next)), k)
                             case Join(_) => On(Control(Waiting(next)), k)
                             case _ => k
    ensures s'.mailbox == s.mailbox && s'.exited == s.exited && s'.inFlight == s.inFlight
    ensures c.Join? && !IsExecutor(s, t) ==> s.exited
    ensures c.Waiting? && next == Unsubscribed(false) ==> s.inFlight == 0
  {
  }

  // ---------------------------------------------------------------- from the critical section to the return

  /** The critical section is step m of the call. */
  ghost predicate Section(run: seq<State>, steps: seq<Step>, i: nat, n: nat, t: nat, d: nat, drain: bool, next: Then, m: nat)
    requires |run| == |steps| + 1 && n <= |steps|
  {
    && i < m < n && OwnStep(run, steps, m, t, d) && FrameAt(run[m].threads[t], d) == Control(StopMailbox(drain, next))
    && StopLeaves(run[m], run[m + 1], drain)
  }

  /** The executor is gone when a thread other than the executor has joined it. */
  ghost predicate Joined(s: State, t: nat, f: Frame) {
    s.policy.Isolated? && !IsExecutor(s, t) && f.Control? && f.c.Waiting? ==> s.exited
  }

  ghost predicate Stands(run: seq<State>, steps: seq<Step>, i: nat, n: nat, t: nat, d: nat, drain: bool, next: Then, base: Gain, m: nat)
    requires |run| == |steps| + 1 && i < n <= |steps| && t < |run[n].threads|
  {
    var s, k := run[n], run[n].threads[t];
    if Depth(k) > d && FrameAt(k, d) == Control(StopMailbox(drain, next)) then
      Gains(run, steps, i, n, t, d) == base
    else
      && Section(run, steps, i, n, t, d, drain, next, m)
      && Gains(run, steps, i, n, t, d) == Plus(base, StopGain(run[m].policy.Isolated?, drain, run[m].mailbox.events))
      && (Depth(k) > d ==> StopPhase(FrameAt(k, d), next) && Joined(s, t, FrameAt(k, d)))
      && (Depth(k) <= d ==>
            && (s.policy.Isolated? && !IsExecutor(s, t) ==> s.exited)
            && (next == Unsubscribed(false) ==> s.inFlight == 0))
  }

  lemma PlusNothing(a: Gain)
    ensures Plus(a, NOTHING) == a
  {
  }

  lemma TopOrGone(k: Stack, k': Stack, d: nat)
    requires Depth(k) == d && (k' == k || (k'.On? && k'.rest == k))
    ensures if k' == k then Depth(k') == d else Depth(k') == d + 1 && FrameAt(k', d) == k'.top
  {
  }

  lemma OnTop(f: Frame, k: Stack, d: nat)
    requires Depth(k) == d
    ensures Depth(On(f, k)) == d + 1 && FrameAt(On(f, k), d) == f
  {
  }

  lemma SectionNext(run: seq<State>, steps: seq<Step>, i: nat, n: nat, j: nat, t: nat, d: nat, drain: bool, next: Then, base: Gain)
    requires Call(run, steps, i, j, t, d) && i < n < j && OwnStep(run, steps, n, t, d)
    requires FrameAt(run[n].threads[t], d) == Control(StopMailbox(drain, next)) && Gains(run, steps, i, n, t, d) == base
    ensures Stands(run, steps, i, n + 1, t, d, drain, next, base, n)
  {
    CallStep(run, steps, i, n, j, t, d);
    OwnStack(run, steps, i, n, j, t, d);
    var s, s', k := run[n], run[n + 1], run[i].threads[t];
    SectionStep(s, s', t, drain, next, k);
    TopOrGone(k, s'.threads[t], d);
    DirectWaits(s, t);
  }

  /** Without an executor there is nothing to join. */
  lemma DirectWaits(s: State, t: nat)
    ensures !s.policy.Isolated? ==> forall f :: Joined(s, t, f)
  {
  }

  lemma WaitingNext(run: seq<State>, steps: seq<Step>, i: nat, n: nat, j: nat, t: nat, d: nat, drain: bool, next: Then, base: Gain, m: nat)
    requires Call(run, steps, i, j, t, d) && i < n < j && OwnStep(run, steps, n, t, d)
    requires Stands(run, steps, i, n, t, d, drain, next, base, m) && FrameAt(run[n].threads[t], d) == Control(Waiting(next))
    ensures Stands(run, steps, i, n + 1, t, d, drain, next, base, m)
  {
    CallStep(run, steps, i, n, j, t, d);
    OwnStack(run, steps, i, n, j, t, d);
    LaterStep(run[n], run[n + 1], t, Waiting(next), next, run[i].threads[t]);
    SamePolicy(run, steps, n);
    Returned(run, steps, i, n, t, d, drain, next, base, m, run[i].threads[t]);
  }

  lemma Returned(run: seq<State>, steps: seq<Step>, i: nat, n: nat, t: nat, d: nat, drain: bool, next: Then, base: Gain, m: nat, k: Stack)
    requires |run| == |steps| + 1 && i < n < |steps| && t < |run[n].threads| && t < |run[n + 1].threads| && Depth(k) == d
    requires Stands(run, steps, i, n, t, d, drain, next, base, m)
    requires Depth(run[n].threads[t]) > d && FrameAt(run[n].threads[t], d) == Control(Waiting(next))
    requires run[n + 1].threads[t] == k && Between(run[n], run[n + 1]) == NOTHING
    requires run[n + 1].policy == run[n].policy && (run[n].exited ==> run[n + 1].exited)
    requires next == Unsubscribed(false) ==> run[n + 1].inFlight == 0
    ensures Stands(run, steps, i, n + 1, t, d, drain, next, base, m)
  {
    assert Gains(run, steps, i, n + 1, t, d) == Gains(run, steps, i, n, t, d);
  }

  lemma JoiningNext(run: seq<State>, steps: seq<Step>, i: nat, n: nat, j: nat, t: nat, d: nat, drain: bool, next: Then, base: Gain, m: nat)
    requires Call(run, steps, i, j, t, d) && i < n < j && OwnStep(run, steps, n, t, d)
    requires Stands(run, steps, i, n, t, d, drain, next, base, m)
    requires FrameAt(run[n].threads[t], d) == Control(JoinLock(next)) || FrameAt(run[n].threads[t], d) == Control(Join(next))
    ensures Stands(run, steps, i, n + 1, t, d, drain, next, base, m)
  {
    CallStep(run, steps, i, n, j, t, d);
    OwnStack(run, steps, i, n, j, t, d);
    var s, s', k := run[n], run[n + 1], run[i].threads[t];
    var c := FrameAt(s.threads[t], d).c;
    LaterStep(s, s', t, c, next, k);
    SamePolicy(run, steps, n);
    if c.JoinLock? {
      GoesOn(run, steps, i, n, t, d, drain, next, base, m, k, Control(Join(next)));
    } else {
      GoesOn(run, steps, i, n, t, d, drain, next, base, m, k, Control(Waiting(next)));
    }
  }

  lemma GoesOn(run: seq<State>, steps: seq<Step>, i: nat, n: nat, t: nat, d: nat, drain: bool, next: Then, base: Gain, m: nat, k: Stack, f: Frame)
    requires |run| == |steps| + 1 && i < n < |steps| && t < |run[n].threads| && t < |run[n + 1].threads| && Depth(k) == d
    requires Stands(run, steps, i, n, t, d, drain, next, base, m)
    requires Depth(run[n].threads[t]) > d && StopPhase(FrameAt(run[n].threads[t], d), next)
    requires run[n + 1].threads[t] == On(f, k) && Between(run[n], run[n + 1]) == NOTHING
    requires StopPhase(f, next) && Joined(run[n + 1], t, f)
    ensures Stands(run, steps, i, n + 1, t, d, drain, next, base, m)
  {
    OnTop(f, k, d);
    assert Gains(run, steps, i, n + 1, t, d) == Gains(run, steps, i, n, t, d);
  }

  lemma LaterNext(run: seq<State>, steps: seq<Step>, i: nat, n: nat, j: nat, t: nat, d: nat, drain: bool, next: Then, base: Gain, m: nat)
    requires Call(run, steps, i, j, t, d) && i < n < j && OwnStep(run, steps, n, t, d)
    requires Stands(run, steps, i, n, t, d, drain, next, base, m) && FrameAt(run[n].threads[t], d) != Control(StopMailbox(drain, next))
    ensures Stands(run, steps, i, n + 1, t, d, drain, next, base, m)
  {
    if FrameAt(run[n].threads[t], d).c.Waiting? {
      WaitingNext(run, steps, i, n, j, t, d, drain, next, base, m);
    } else {
      JoiningNext(run, steps, i, n, j, t, d, drain, next, base, m);
    }
  }

  lemma SamePolicy(run: seq<State>, steps: seq<Step>, n: nat)
    requires IsTrace(run, steps) && n < |steps|
    ensures run[n + 1].policy == run[n].policy && (run[n].exited ==> run[n + 1].exited)
  {
    TraceIsRun(run, steps);
    RunEvolves(run, n, n + 1);
  }

  lemma OtherNext(run: seq<State>, steps: seq<Step>, i: nat, n: nat, j: nat, t: nat, d: nat, drain: bool, next: Then, base: Gain, m: nat)
    requires Call(run, steps, i, j, t, d) && i < n < j && !OwnStep(run, steps, n, t, d)
    requires Stands(run, steps, i, n, t, d, drain, next, base, m)
    ensures Stands(run, steps, i, n + 1, t, d, drain, next, base, m)
  {
    CallStep(run, steps, i, n, j, t, d);
    SamePolicy(run, steps, n);
  }

  /** From the moment its frame is at the critical section, a call does this. */
  lemma {:induction false} StopStands(run: seq<State>, steps: seq<Step>, i: nat, from: nat, n: nat, j: nat, t: nat, d: nat,
                                      drain: bool, next: Then, base: Gain) returns (m: nat)
    requires Call(run, steps, i, j, t, d) && i < from <= n <= j && from < j
    requires FrameAt(run[from].threads[t], d) == Control(StopMailbox(drain, next)) && Gains(run, steps, i, from, t, d) == base
    ensures Stands(run, steps, i, n, t, d, drain, next, base, m)
    decreases n
  {
    if n == from {
      m := i;
    } else {
      m := StopStands(run, steps, i, from, n - 1, j, t, d, drain, next, base);
      if !OwnStep(run, steps, n - 1, t, d) {
        OtherNext(run, steps, i, n - 1, j, t, d, drain, next, base, m);
      } else if FrameAt(run[n - 1].threads[t], d) == Control(StopMailbox(drain, next)) {
        SectionNext(run, steps, i, n - 1, j, t, d, drain, next, base);
        m := n - 1;
      } else {
        LaterNext(run, steps, i, n - 1, j, t, d, drain, next, base, m);
      }
    }
  }

  // ---------------------------------------------------------------- stop_delivery

  lemma PlusToNothing(a: Gain)
    ensures Plus(NOTHING, a) == a
  {
  }

  /** Once the mailbox has been told to discard, it stays closed and empty. */
  lemma StaysStopped(run: seq<State>, steps: seq<Step>, m: nat, j: nat, drain: bool)
    requires IsTrace(run, steps) && m < j <= |steps| && run[m].policy.Isolated? && StopLeaves(run[m], run[m + 1], drain)
    ensures run[j].mailbox.stopping && !run[j].mailbox.accepting && (!drain ==> run[j].mailbox.events == [])
  {
    TraceIsRun(run, steps);
    RunEvolves(run, m + 1, j);
    RunKeepsInv(run, j);
  }

  /** What has been done by a call that has passed its critical section and returned. */
  lemma StopReturns(run: seq<State>, steps: seq<Step>, i: nat, from: nat, j: nat, t: nat, d: nat, drain: bool, next: Then, base: Gain)
    returns (m: nat)
    requires Call(run, steps, i, j, t, d) && i < from < j
    requires FrameAt(run[from].threads[t], d) == Control(StopMailbox(drain, next)) && Gains(run, steps, i, from, t, d) == base
    ensures Section(run, steps, i, j, t, d, drain, next, m) && run[m].policy == run[j].policy == run[i].policy
    ensures Gains(run, steps, i, j, t, d) == Plus(base, StopGain(run[j].policy.Isolated?, drain, run[m].mailbox.events))
    ensures run[j].policy.Isolated? ==>
              && run[j].mailbox.stopping && !run[j].mailbox.accepting && (!drain ==> run[j].mailbox.events == [])
              && (!IsExecutor(run[j], t) ==> run[j].exited)
    ensures next == Unsubscribed(false) ==> run[j].inFlight == 0
  {
    m := StopStands(run, steps, i, from, j, j, t, d, drain, next, base);
    PolicyStays(run, steps, i, m);
    PolicyStays(run, steps, m, j);
    if run[m].policy.Isolated? {
      StaysStopped(run, steps, m, j, drain);
    }
  }

  lemma PolicyStays(run: seq<State>, steps: seq<Step>, i: nat, j: nat)
    requires IsTrace(run, steps) && i <= j <= |steps|
    ensures run[j].policy == run[i].policy && (!run[i].active ==> !run[j].active)
  {
    TraceIsRun(run, steps);
    RunEvolves(run, i, j);
  }

  /** `stop_delivery(drain)`, over any interleaving: in its critical section it closes the mailbox, and
      a discard clears it and counts every entry as dropped, while a drain leaves the entries; it adds
      nothing else.  The mailbox stays closed, and empty after a discard; and when a thread other than
      the executor returns from it the executor has exited. */
  lemma StopAnswersForItself(run: seq<State>, steps: seq<Step>, i: nat, j: nat, t: nat, d: nat) returns (m: nat)
    requires Call(run, steps, i, j, t, d) && steps[i].Stop?
    ensures Section(run, steps, i, j, t, d, steps[i].drain, Return, m)
    ensures Gains(run, steps, i, j, t, d) == StopGain(run[j].policy.Isolated?, steps[i].drain, run[m].mailbox.events)
    ensures run[j].policy.Isolated? ==>
              && run[j].mailbox.stopping && !run[j].mailbox.accepting && (!steps[i].drain ==> run[j].mailbox.events == [])
              && (!IsExecutor(run[j], t) ==> run[j].exited)
  {
    CallStarts(run, steps, i, j, t, d);
    m := StopReturns(run, steps, i, i + 1, j, t, d, steps[i].drain, Return, NOTHING);
    PlusToNothing(StopGain(run[j].policy.Isolated?, steps[i].drain, run[m].mailbox.events));
  }

  // ---------------------------------------------------------------- unsubscribe

  lemma DeactivateStep(s: State, s': State, t: nat, k: Stack)
    requires t < |s.threads| && s.threads[t] == On(Control(Deactivate), k) && s' == DoControl(s, t, Deactivate, k)
    ensures |s'.threads| == |s.threads| && !s'.active && Between(s, s') == NOTHING
    ensures s.retirementStarted ==> s'.threads[t] == On(Control(StopMailbox(false, Unsubscribed(InCallback(k)))), k)
    ensures !s.retirementStarted ==> s'.threads[t] == On(Control(Retire(InCallback(k))), k)
  {
  }

  lemma RetireStep(s: State, s': State, t: nat, self: bool, k: Stack)
    requires t < |s.threads| && s.threads[t] == On(Control(Retire(self)), k) && s' == DoControl(s, t, Retire(self), k)
    ensures |s'.threads| == |s.threads| && Between(s, s') == NOTHING.(retirements := 1)
    ensures s'.threads[t] == On(Control(StopMailbox(false, Unsubscribed(self))), k)
  {
  }

  function Retires(started: bool): Gain {
    NOTHING.(retirements := if started then 0 else 1)
  }

  /** The deactivation is step m of the call. */
  ghost predicate Deactivates(run: seq<State>, steps: seq<Step>, i: nat, n: nat, t: nat, d: nat, m: nat)
    requires |run| == |steps| + 1 && n <= |steps|
  {
    i < m < n && OwnStep(run, steps, m, t, d) && run[m].threads[t].top == Control(Deactivate) && !run[m + 1].active
  }

  /** How far an unsubscribe has come before its stop. */
  ghost predicate Unsubscribes(run: seq<State>, steps: seq<Step>, i: nat, n: nat, t: nat, d: nat, self: bool, m: nat)
    requires |run| == |steps| + 1 && i < n <= |steps| && t < |run[n].threads| && Depth(run[n].threads[t]) > d
  {
    var f, gain := FrameAt(run[n].threads[t], d), Gains(run, steps, i, n, t, d);
    && f.Control?
    && (f.c.Deactivate? || Deactivates(run, steps, i, n, t, d, m))
    && match f.c
       case Deactivate => gain == NOTHING
       case Retire(b) => b == self && gain == NOTHING && !run[m].retirementStarted
       case StopMailbox(drain, next) => !drain && next == Unsubscribed(self) && gain == Retires(run[m].retirementStarted)
       case _ => false
  }

  lemma DeactivateFirst(run: seq<State>, steps: seq<Step>, i: nat, n: nat, j: nat, t: nat, d: nat)
    requires Call(run, steps, i, j, t, d) && i < n < j && OwnStep(run, steps, n, t, d) && !run[n].retirementStarted
    requires FrameAt(run[n].threads[t], d) == Control(Deactivate) && Gains(run, steps, i, n, t, d) == NOTHING
    ensures Depth(run[n + 1].threads[t]) > d && Unsubscribes(run, steps, i, n + 1, t, d, InCallback(run[i].threads[t]), n)
  {
    CallStep(run, steps, i, n, j, t, d);
    OwnStack(run, steps, i, n, j, t, d);
    var k := run[i].threads[t];
    DeactivateStep(run[n], run[n + 1], t, k);
    PlusToNothing(Between(run[n], run[n + 1]));
    TopOrGone(k, run[n + 1].threads[t], d);
  }

  lemma DeactivateAgain(run: seq<State>, steps: seq<Step>, i: nat, n: nat, j: nat, t: nat, d: nat)
    requires Call(run, steps, i, j, t, d) && i < n < j && OwnStep(run, steps, n, t, d) && run[n].retirementStarted
    requires FrameAt(run[n].threads[t], d) == Control(Deactivate) && Gains(run, steps, i, n, t, d) == NOTHING
    ensures Depth(run[n + 1].threads[t]) > d && Unsubscribes(run, steps, i, n + 1, t, d, InCallback(run[i].threads[t]), n)
  {
    CallStep(run, steps, i, n, j, t, d);
    OwnStack(run, steps, i, n, j, t, d);
    var k := run[i].threads[t];
    DeactivateStep(run[n], run[n + 1], t, k);
    PlusToNothing(Between(run[n], run[n + 1]));
    TopOrGone(k, run[n + 1].threads[t], d);
  }

  lemma RetireNext(run: seq<State>, steps: seq<Step>, i: nat, n: nat, j: nat, t: nat, d: nat, m: nat)
    requires Call(run, steps, i, j, t, d) && i < n < j && OwnStep(run, steps, n, t, d)
    requires FrameAt(run[n].threads[t], d) == Control(Retire(InCallback(run[i].threads[t]))) && Gains(run, steps, i, n, t, d) == NOTHING
    requires Deactivates(run, steps, i, n, t, d, m) && !run[m].retirementStarted
    ensures Depth(run[n + 1].threads[t]) > d && Unsubscribes(run, steps, i, n + 1, t, d, InCallback(run[i].threads[t]), m)
  {
    CallStep(run, steps, i, n, j, t, d);
    OwnStack(run, steps, i, n, j, t, d);
    var k := run[i].threads[t];
    RetireStep(run[n], run[n + 1], t, InCallback(k), k);
    PlusToNothing(Between(run[n], run[n + 1]));
    TopOrGone(k, run[n + 1].threads[t], d);
  }

  lemma WaitsNext(run: seq<State>, steps: seq<Step>, i: nat, n: nat, j: nat, t: nat, d: nat, m: nat)
    requires Call(run, steps, i, j, t, d) && i < n < j && !OwnStep(run, steps, n, t, d)
    requires Unsubscribes(run, steps, i, n, t, d, InCallback(run[i].threads[t]), m)
    ensures Depth(run[n + 1].threads[t]) > d && Unsubscribes(run, steps, i, n + 1, t, d, InCallback(run[i].threads[t]), m)
  {
    CallStep(run, steps, i, n, j, t, d);
  }

  lemma FirstNext(run: seq<State>, steps: seq<Step>, i: nat, n: nat, j: nat, t: nat, d: nat, m: nat) returns (m': nat)
    requires Call(run, steps, i, j, t, d) && i < n < j
    requires Unsubscribes(run, steps, i, n, t, d, InCallback(run[i].threads[t]), m)
    requires FrameAt(run[n].threads[t], d) == Control(Deactivate) || FrameAt(run[n].threads[t], d).c.Retire?
    ensures n + 1 < j && Depth(run[n + 1].threads[t]) > d
    ensures Unsubscribes(run, steps, i, n + 1, t, d, InCallback(run[i].threads[t]), m')
  {
    m' := m;
    if !OwnStep(run, steps, n, t, d) {
      WaitsNext(run, steps, i, n, j, t, d, m);
    } else if FrameAt(run[n].threads[t], d) == Control(Deactivate) {
      if run[n].retirementStarted {
        DeactivateAgain(run, steps, i, n, j, t, d);
      } else {
        DeactivateFirst(run, steps, i, n, j, t, d);
      }
      m' := n;
    } else {
      RetireNext(run, steps, i, n, j, t, d, m);
    }
  }

  /** An unsubscribe comes to its stop. */
  lemma {:induction false} ReachesStop(run: seq<State>, steps: seq<Step>, i: nat, n: nat, j: nat, t: nat, d: nat, m: nat)
    returns (from: nat, m': nat)
    requires Call(run, steps, i, j, t, d) && steps[i].Unsubscribe? && i < n < j
    requires Unsubscribes(run, steps, i, n, t, d, InCallback(run[i].threads[t]), m)
    ensures n <= from < j && Deactivates(run, steps, i, from, t, d, m')
    ensures FrameAt(run[from].threads[t], d) == Control(StopMailbox(false, Unsubscribed(InCallback(run[i].threads[t]))))
    ensures Gains(run, steps, i, from, t, d) == Retires(run[m'].retirementStarted)
    decreases j - n
  {
    if FrameAt(run[n].threads[t], d).c.StopMailbox? {
      from, m' := n, m;
    } else {
      var next := FirstNext(run, steps, i, n, j, t, d, m);
      from, m' := ReachesStop(run, steps, i, n + 1, j, t, d, next);
    }
  }

  /** `unsubscribe`, over any interleaving: it deactivates the subscription for good, retires it if it
      is the first, and discards the mailbox; and unless it was called from this subscriber's own
      callback, nothing is in flight when it returns. */
  lemma UnsubscribeAnswersForItself(run: seq<State>, steps: seq<Step>, i: nat, j: nat, t: nat, d: nat) returns (m: nat, section: nat)
    requires Call(run, steps, i, j, t, d) && steps[i].Unsubscribe?
    ensures Deactivates(run, steps, i, j, t, d, m) && !run[j].active
    ensures Section(run, steps, i, j, t, d, false, Unsubscribed(InCallback(run[i].threads[t])), section)
    ensures Gains(run, steps, i, j, t, d)
         == Plus(Retires(run[m].retirementStarted), StopGain(run[j].policy.Isolated?, false, run[section].mailbox.events))
    ensures run[j].policy.Isolated? ==>
              && run[j].mailbox.stopping && !run[j].mailbox.accepting && run[j].mailbox.events == []
              && (!IsExecutor(run[j], t) ==> run[j].exited)
    ensures !InCallback(run[i].threads[t]) ==> run[j].inFlight == 0
  {
    var from;
    from, m := ComesToStop(run, steps, i, j, t, d);
    section := StopReturns(run, steps, i, from, j, t, d, false, Unsubscribed(InCallback(run[i].threads[t])),
                           Retires(run[m].retirementStarted));
    PolicyStays(run, steps, m + 1, j);
  }

  lemma ComesToStop(run: seq<State>, steps: seq<Step>, i: nat, j: nat, t: nat, d: nat) returns (from: nat, m: nat)
    requires Call(run, steps, i, j, t, d) && steps[i].Unsubscribe?
    ensures i < from < j && Deactivates(run, steps, i, j, t, d, m)
    ensures FrameAt(run[from].threads[t], d) == Control(StopMailbox(false, Unsubscribed(InCallback(run[i].threads[t]))))
    ensures Gains(run, steps, i, from, t, d) == Retires(run[m].retirementStarted)
  {
    CallStarts(run, steps, i, j, t, d);
    from, m := ReachesStop(run, steps, i, i + 1, j, t, d, i);
  }

  /** So when an unsubscribe that was not called from this subscriber's own callback has returned, no
      thread is in the callback, none ever is again, and the callback is never entered again. */
  lemma UnsubscribeCallIsSynchronous(run: seq<State>, steps: seq<Step>, i: nat, j: nat, l: nat, t: nat, d: nat, u: nat)
    requires Call(run, steps, i, j, t, d) && steps[i].Unsubscribe? && !InCallback(run[i].threads[t])
    requires j <= l <= |steps| && u < |run[l].threads|
    ensures !run[l].active && run[l].inFlight == 0 && !InCallback(run[l].threads[u])
    ensures run[l].history.invoked == run[j].history.invoked
  {
    var m, section := UnsubscribeAnswersForItself(run, steps, i, j, t, d);
    TraceIsRun(run, steps);
    QuietForGood(run, j, l, u);
  }

  lemma QuietForGood(run: seq<State>, j: nat, l: nat, u: nat)
    requires IsRun(run) && j <= l < |run| && u < |run[l].threads| && !run[j].active && run[j].inFlight == 0
    ensures !run[l].active && run[l].inFlight == 0 && !InCallback(run[l].threads[u])
    ensures run[l].history.invoked == run[j].history.invoked
  {
    RunEvolves(run, j, l);
    RunKeepsInv(run, l);
    NoneInFlight(run[l], u);
  }
}
