/** What pops, closes and discards of the lock-free queue answer, over every interleaving. */
module LockFreeReturns {
  import opened Wrappers
  import opened Tally
  import opened LockFreeQueue
  import opened LockFreeSafety
  import opened LockFreeTheorems
  import opened LockFreeCalls

  // ---------------------------------------------------------------- pops

  /** The ticket of the event that a pop has claimed. */
  function ClaimedBy(l: Local): seq<nat> {
    match l
    case Consumer(c) =>
      (match c
       case MoveOut(_, ticket) => [ticket]
       case Destroy(_, ticket, _) => [ticket]
       case CountDown(_, ticket, _) => [ticket]
       case Release(_, ticket, _) => [ticket]
       case LeaveConsumer(outcome) => TicketIn(outcome)
       case _ => [])
    case Done(outcome) => TicketIn(outcome)
    case _ => []
  }

  function TicketIn(outcome: Outcome): seq<nat> {
    if outcome.Popped? then [outcome.ticket] else []
  }

  /** The tickets that the steps of thread t from i to n have claimed. */
  ghost function Claims(run: seq<State>, steps: seq<Step>, i: nat, n: nat, t: nat): seq<nat>
    requires |run| == |steps| + 1 && i <= n <= |steps|
    decreases n
  {
    if n == i then []
    else Claims(run, steps, i, n - 1, t)
         + (if steps[n - 1].thread == t && |run[n].fate| > |run[n - 1].fate| then [|run[n - 1].fate|] else [])
  }

  /** The published ring may answer empty. */
  predicate NoEvent(s: State) {
    s.published == [] || s.producers.active > 0 || s.mostConsumers > 2 * s.capacity
  }

  /** A step of a pop that has not claimed anything yet. */
  ghost predicate ClaimsOrNot(s: State, s': State, l: Local, l': Local) {
    if |s'.fate| > |s.fate| then ClaimedBy(l) == [] && ClaimedBy(l') == [|s.fate|] else ClaimedBy(l') == ClaimedBy(l)
  }

  lemma ClaimStep(s: State, s': State, t: nat, unlucky: bool)
    requires t < |s.threads| && s.threads[t] == Consumer(Claim) && s' == DoConsumer(s, t, unlucky)
    ensures t < |s'.threads| && ClaimsOrNot(s, s', s.threads[t], s'.threads[t])
    ensures s'.threads[t] == Consumer(CheckQuiesced) ==> s.published == [] || unlucky
  {
  }

  lemma LaterStep(s: State, s': State, t: nat, unlucky: bool)
    requires t < |s.threads| && s.threads[t].Consumer? && !s.threads[t].c.Claim? && s' == DoConsumer(s, t, unlucky)
    requires |s'.threads| == |s.threads|
    ensures ClaimedBy(s'.threads[t]) == ClaimedBy(s.threads[t])
  {
    match s.threads[t].c
    case CheckQuiesced => assert s'.threads[t] == Consumer(LeaveConsumer(if s.quiesced then Closed else Empty));
    case MoveOut(slot, ticket) => assert s'.threads[t] == Consumer(Destroy(slot, ticket, Contents(s, slot)));
    case Destroy(slot, ticket, event) => assert s'.threads[t] == Consumer(CountDown(slot, ticket, event));
    case CountDown(slot, ticket, event) => assert s'.threads[t] == Consumer(Release(slot, ticket, event));
    case Release(_, ticket, event) => assert s'.threads[t] == Consumer(LeaveConsumer(Popped(event, ticket)));
    case LeaveConsumer(outcome) => assert s'.threads[t] == Done(outcome);
  }

  lemma LaterFate(s: State, s': State, t: nat, unlucky: bool)
    requires t < |s.threads| && s.threads[t].Consumer? && !s.threads[t].c.Claim? && s' == DoConsumer(s, t, unlucky)
    ensures |s'.fate| == |s.fate|
  {
  }

  lemma PopStep(s: State, s': State, t: nat, unlucky: bool)
    requires Enabled(s, Advance(t, unlucky)) && s' == Do(s, Advance(t, unlucky)) && FitsPop(s.threads[t]) && |s'.threads| == |s.threads|
    ensures ClaimsOrNot(s, s', s.threads[t], s'.threads[t])
  {
    match s.threads[t]
    case GateLoad(_) => GateClaimsNothing(s, s', t, unlucky);
    case GateSwap(_, _) => GateClaimsNothing(s, s', t, unlucky);
    case Consumer(c) =>
      if c.Claim? {
        ClaimStep(s, s', t, unlucky);
      } else {
        LaterStep(s, s', t, unlucky);
        LaterFate(s, s', t, unlucky);
      }
  }

  lemma GateClaimsNothing(s: State, s': State, t: nat, unlucky: bool)
    requires t < |s.threads| && (s.threads[t].GateLoad? || s.threads[t].GateSwap?) && s' == DoGate(s, t, unlucky)
    requires FitsPop(s.threads[t])
    ensures t < |s'.threads| && s'.fate == s.fate && ClaimedBy(s'.threads[t]) == []
  {
  }

  lemma PopStarts(run: seq<State>, steps: seq<Step>, i: nat, j: nat, t: nat)
    requires Call(run, steps, i, j, t) && steps[i].StartPop?
    ensures run[i + 1].threads[t] == GateLoad(Pop) && run[i + 1].fate == run[i].fate
  {
    assert Steps(run, steps, i);
    StartGoes(run[i], run[i + 1], steps[i]);
  }

  lemma PopStepAt(run: seq<State>, steps: seq<Step>, i: nat, n: nat, j: nat, t: nat)
    requires Call(run, steps, i, j, t) && steps[i].StartPop? && i < n < j
    ensures if steps[n].thread == t then ClaimsOrNot(run[n], run[n + 1], run[n].threads[t], run[n + 1].threads[t])
            else run[n + 1].threads[t] == run[n].threads[t]
  {
    CallStands(run, steps, i, n, j, t);
    CallStep(run, steps, i, n, j, t);
    assert Steps(run, steps, n);
    if steps[n].thread == t {
      PopStep(run[n], run[n + 1], t, steps[n].unlucky);
    }
  }

  /** A pop has claimed what it carries, and nothing else. */
  lemma {:induction false} ClaimsStand(run: seq<State>, steps: seq<Step>, i: nat, n: nat, j: nat, t: nat)
    requires Call(run, steps, i, j, t) && steps[i].StartPop? && i < n <= j
    ensures Claims(run, steps, i, n, t) == ClaimedBy(run[n].threads[t])
  {
    if n == i + 1 {
      PopStarts(run, steps, i, j, t);
      assert Claims(run, steps, i, i, t) == [];
    } else {
      ClaimsStand(run, steps, i, n - 1, j, t);
      PopStepAt(run, steps, i, n - 1, j, t);
    }
  }

  /** What a pop that comes to nothing rests on: it was let in neither for the gate, or the ring
      answered empty and then the quiescence flag decided. */
  predicate DecidesHere(s: State, l: Local, outcome: Outcome) {
    match outcome
    case Empty => l == Consumer(CheckQuiesced) && !s.quiesced
    case Closed => if l.Consumer? then l.c.CheckQuiesced? && s.quiesced else (l.GateLoad? || l.GateSwap?) && s.consumers.closed
    case _ => false
  }

  predicate Nothing(outcome: Option<Outcome>) {
    outcome in {Some(Closed), Some(Empty)}
  }

  lemma TurnsToNothing(s: State, s': State, t: nat, unlucky: bool)
    requires Enabled(s, Advance(t, unlucky)) && s' == Do(s, Advance(t, unlucky)) && FitsPop(s.threads[t]) && |s'.threads| == |s.threads|
    ensures Heading(s'.threads[t]) == Heading(s.threads[t])
            || (Nothing(Heading(s'.threads[t])) ==> DecidesHere(s, s.threads[t], Heading(s'.threads[t]).value))
  {
    match s.threads[t]
    case GateLoad(_) => GateTurns(s, s', t, unlucky);
    case GateSwap(_, _) => GateTurns(s, s', t, unlucky);
    case Consumer(_) => ConsumerTurns(s, s', t, unlucky);
  }

  lemma GateTurns(s: State, s': State, t: nat, unlucky: bool)
    requires t < |s.threads| && (s.threads[t].GateLoad? || s.threads[t].GateSwap?) && s' == DoGate(s, t, unlucky)
    requires FitsPop(s.threads[t])
    ensures t < |s'.threads| && (Heading(s'.threads[t]) == None || (Heading(s'.threads[t]) == Some(Closed) && s.consumers.closed))
  {
  }

  lemma ConsumerTurns(s: State, s': State, t: nat, unlucky: bool)
    requires t < |s.threads| && s.threads[t].Consumer? && s' == DoConsumer(s, t, unlucky) && |s'.threads| == |s.threads|
    ensures Heading(s'.threads[t]) == Heading(s.threads[t])
            || (Nothing(Heading(s'.threads[t])) ==> DecidesHere(s, s.threads[t], Heading(s'.threads[t]).value))
  {
    match s.threads[t].c
    case Claim => assert Heading(s'.threads[t]) == None;
    case CheckQuiesced => assert s'.threads[t] == Consumer(LeaveConsumer(if s.quiesced then Closed else Empty));
    case MoveOut(slot, ticket) => assert s'.threads[t] == Consumer(Destroy(slot, ticket, Contents(s, slot)));
    case Destroy(slot, ticket, event) => assert s'.threads[t] == Consumer(CountDown(slot, ticket, event));
    case CountDown(slot, ticket, event) => assert s'.threads[t] == Consumer(Release(slot, ticket, event));
    case Release(_, ticket, event) => assert s'.threads[t] == Consumer(LeaveConsumer(Popped(event, ticket)));
    case LeaveConsumer(outcome) => assert s'.threads[t] == Done(outcome);
  }

  /** Step m decides that the pop of thread t comes to nothing. */
  ghost predicate Decides(run: seq<State>, steps: seq<Step>, i: nat, n: nat, t: nat, m: nat, outcome: Outcome)
    requires |run| == |steps| + 1 && n <= |steps|
  {
    i < m < n && steps[m].thread == t && t < |run[m].threads| && DecidesHere(run[m], run[m].threads[t], outcome)
  }

  lemma DecideStep(run: seq<State>, steps: seq<Step>, i: nat, n: nat, j: nat, t: nat)
    requires Call(run, steps, i, j, t) && steps[i].StartPop? && i < n < j
    ensures Heading(run[n + 1].threads[t]) == Heading(run[n].threads[t])
            || (Nothing(Heading(run[n + 1].threads[t])) ==>
                  Decides(run, steps, i, n + 1, t, n, Heading(run[n + 1].threads[t]).value))
  {
    CallStands(run, steps, i, n, j, t);
    CallStep(run, steps, i, n, j, t);
    assert Steps(run, steps, n);
    if steps[n].thread == t {
      TurnsToNothing(run[n], run[n + 1], t, steps[n].unlucky);
    }
  }

  lemma {:induction false} PopDecides(run: seq<State>, steps: seq<Step>, i: nat, n: nat, j: nat, t: nat) returns (m: nat)
    requires Call(run, steps, i, j, t) && steps[i].StartPop? && i < n <= j
    ensures Nothing(Heading(run[n].threads[t])) ==> Decides(run, steps, i, n, t, m, Heading(run[n].threads[t]).value)
  {
    m := i;
    if n == i + 1 {
      assert Steps(run, steps, i);
      StartGoes(run[i], run[n], steps[i]);
      CallStands(run, steps, i, n, j, t);
    } else {
      m := PopDecides(run, steps, i, n - 1, j, t);
      DecideStep(run, steps, i, n - 1, j, t);
      if Heading(run[n].threads[t]) != Heading(run[n - 1].threads[t]) {
        m := n - 1;
      }
    }
  }

  /** Step m of thread t is a claim that finds the published ring empty. */
  ghost predicate Asks(run: seq<State>, steps: seq<Step>, i: nat, n: nat, t: nat, m: nat)
    requires |run| == |steps| + 1 && n <= |steps|
  {
    i < m < n && steps[m].thread == t && t < |run[m].threads| && run[m].threads[t] == Consumer(Claim) && NoEvent(run[m])
  }

  lemma AskStep(run: seq<State>, steps: seq<Step>, i: nat, n: nat, j: nat, t: nat)
    requires Call(run, steps, i, j, t) && steps[i].StartPop? && i < n < j
    requires run[n + 1].threads[t] == Consumer(CheckQuiesced) && run[n].threads[t] != Consumer(CheckQuiesced)
    ensures Asks(run, steps, i, n + 1, t, n)
  {
    CallStands(run, steps, i, n, j, t);
    CallStep(run, steps, i, n, j, t);
    assert Steps(run, steps, n);
    CameFromClaim(run[n], run[n + 1], t, steps[n]);
  }

  /** Before the look at the quiescence flag the published ring answered empty. */
  lemma {:induction false} AskedTheRing(run: seq<State>, steps: seq<Step>, i: nat, n: nat, j: nat, t: nat) returns (m: nat)
    requires Call(run, steps, i, j, t) && steps[i].StartPop? && i < n < j && run[n].threads[t] == Consumer(CheckQuiesced)
    ensures Asks(run, steps, i, n, t, m)
  {
    PopStarts(run, steps, i, j, t);
    if run[n - 1].threads[t] == Consumer(CheckQuiesced) {
      m := AskedTheRing(run, steps, i, n - 1, j, t);
    } else {
      AskStep(run, steps, i, n - 1, j, t);
      m := n - 1;
    }
  }

  lemma CameFromClaim(s: State, s': State, t: nat, step: Step)
    requires Enabled(s, step) && s' == Do(s, step) && t < |s.threads| == |s'.threads| && FitsPop(s.threads[t])
    requires step.thread != t ==> s'.threads[t] == s.threads[t]
    requires s'.threads[t] == Consumer(CheckQuiesced) && s.threads[t] != Consumer(CheckQuiesced)
    ensures step.thread == t && s.threads[t] == Consumer(Claim) && NoEvent(s)
  {
    if s.threads[t].Consumer? {
      if s.threads[t].c.Claim? {
        ClaimStep(s, s', t, step.unlucky);
      } else {
        NotBackToCheck(s, s', t, step.unlucky);
      }
    } else {
      GateEnters(s, s', t, step.unlucky);
    }
  }

  lemma NotBackToCheck(s: State, s': State, t: nat, unlucky: bool)
    requires t < |s.threads| && s.threads[t].Consumer? && !s.threads[t].c.Claim? && !s.threads[t].c.CheckQuiesced?
    requires s' == DoConsumer(s, t, unlucky) && |s'.threads| == |s.threads|
    ensures s'.threads[t] != Consumer(CheckQuiesced)
  {
    match s.threads[t].c
    case MoveOut(slot, ticket) => assert s'.threads[t] == Consumer(Destroy(slot, ticket, Contents(s, slot)));
    case Destroy(slot, ticket, event) => assert s'.threads[t] == Consumer(CountDown(slot, ticket, event));
    case CountDown(slot, ticket, event) => assert s'.threads[t] == Consumer(Release(slot, ticket, event));
    case Release(_, ticket, event) => assert s'.threads[t] == Consumer(LeaveConsumer(Popped(event, ticket)));
    case LeaveConsumer(outcome) => assert s'.threads[t] == Done(outcome);
  }

  lemma GateEnters(s: State, s': State, t: nat, unlucky: bool)
    requires t < |s.threads| && (s.threads[t].GateLoad? || s.threads[t].GateSwap?) && s' == DoGate(s, t, unlucky)
    ensures t < |s'.threads| && s'.threads[t] != Consumer(CheckQuiesced)
  {
  }

  /** The answer of a pop, over any interleaving.  If it answers an event, the call itself has claimed
      exactly that accepted event.  If it answers empty or closed it has claimed nothing: empty was not
      quiesced yet, closed was, and if the pop was inside the gate the ring had answered empty. */
  lemma PopAnswersForItself(run: seq<State>, steps: seq<Step>, i: nat, j: nat, t: nat) returns (m: nat, asked: nat)
    requires Call(run, steps, i, j, t) && steps[i].StartPop?
    ensures var outcome := run[j].threads[t].outcome;
            && (outcome in {Closed, Empty} || outcome.Popped?)
            && (outcome.Popped? ==>
                  && Claims(run, steps, i, j, t) == [outcome.ticket]
                  && outcome.ticket < |run[j].accepted| && run[j].accepted[outcome.ticket] == outcome.event)
            && (!outcome.Popped? ==>
                  && Claims(run, steps, i, j, t) == []
                  && Decides(run, steps, i, j, t, m, outcome)
                  && (run[m].threads[t].Consumer? ==> Asks(run, steps, i, m, t, asked)))
            && (outcome == Empty ==> !run[i].quiesced)
            && (outcome == Closed ==> run[j].quiesced)
  {
    CallStands(run, steps, i, j, j, t);
    ClaimsStand(run, steps, i, j, j, t);
    m := PopDecides(run, steps, i, j, j, t);
    asked := i;
    PopQuiesced(run, steps, i, j, t, m);
    if Nothing(Heading(run[j].threads[t])) && run[m].threads[t].Consumer? {
      asked := AskedTheRing(run, steps, i, m, j, t);
    }
  }

  lemma PopQuiesced(run: seq<State>, steps: seq<Step>, i: nat, j: nat, t: nat, m: nat)
    requires Call(run, steps, i, j, t) && FitsPop(run[j].threads[t])
    requires Nothing(Heading(run[j].threads[t])) ==> Decides(run, steps, i, j, t, m, Heading(run[j].threads[t]).value)
    ensures run[j].threads[t].outcome == Empty ==> !run[i].quiesced
    ensures run[j].threads[t].outcome == Closed ==> run[j].quiesced
    ensures var outcome := run[j].threads[t].outcome;
            outcome.Popped? ==> outcome.ticket < |run[j].accepted| && run[j].accepted[outcome.ticket] == outcome.event
  {
    TraceIsRun(run, steps);
    RunKeepsInv(run, j);
    assert HandSound(run[j], run[j].threads[t]);
    if i < m < j {
      RunKeepsInv(run, m);
      RunEvolves(run, i, m);
      RunEvolves(run, m, j);
    }
  }

  // ---------------------------------------------------------------- closes

  /** How many events a `close_and_discard` has destroyed so far. */
  function DroppedBy(l: Local): nat {
    match l
    case Closer(k) =>
      (match k
       case Sweep(count) => count
       case SweepDestroy(_, _, count) => count
       case SweepCountDown(_, count) => count + 1
       case SweepRelease(_, count) => count + 1
       case Unlock(outcome) => CountIn(outcome)
       case _ => 0)
    case Done(outcome) => CountIn(outcome)
    case _ => 0
  }

  function CountIn(outcome: Outcome): nat {
    if outcome.Discarded? then outcome.count else 0
  }

  /** How many events the steps of thread t from i to n have discarded. */
  ghost function Drops(run: seq<State>, steps: seq<Step>, i: nat, n: nat, t: nat): int
    requires |run| == |steps| + 1 && i <= n <= |steps|
    decreases n
  {
    if n == i then 0
    else Drops(run, steps, i, n - 1, t) + (if steps[n - 1].thread == t then run[n].discards - run[n - 1].discards else 0)
  }

  /** What a thread in the middle of closing has done already. */
  ghost predicate HasDone(s: State, l: Local) {
    match l
    case Closer(k) =>
      (match k
       case CloseProducers(_) => true
       case WaitProducers(_) => s.producers.closed
       case Quiesce(_) => s.producers.closed
       case CloseConsumers => s.quiesced
       case WaitConsumers => s.quiesced && s.consumers.closed
       case Unlock(outcome) => s.quiesced && (outcome.Discarded? ==> s.consumers.closed)
       case _ => s.quiesced && s.consumers.closed)
    case Done(outcome) => s.quiesced && (outcome.Discarded? ==> s.consumers.closed)
    case Lock(_) => true
    case _ => false
  }

  lemma LateCloseStep(s: State, s': State, t: nat, unlucky: bool)
    requires t < |s.threads| && s.threads[t].Closer? && s' == DoCloser(s, t, unlucky) && |s'.threads| == |s.threads|
    requires HasDone(s, s.threads[t]) && InSweep(s.threads[t].k)
    ensures HasDone(s', s'.threads[t]) && s'.consumers == s.consumers
    ensures DroppedBy(s'.threads[t]) == DroppedBy(s.threads[t]) + s'.discards - s.discards
  {
    match s.threads[t].k
    case Sweep(count) => SweepGoesOn(s, s', t, unlucky, count);
    case SweepDestroy(slot, _, count) => assert s'.threads[t] == Closer(SweepCountDown(slot, count)) && s'.discards == s.discards + 1;
    case SweepCountDown(slot, count) => assert s'.threads[t] == Closer(SweepRelease(slot, count)) && s'.discards == s.discards;
    case SweepRelease(_, count) => assert s'.threads[t] == Closer(Sweep(count + 1)) && s'.discards == s.discards;
  }

  lemma SweepGoesOn(s: State, s': State, t: nat, unlucky: bool, count: nat)
    requires t < |s.threads| && s.threads[t] == Closer(Sweep(count)) && s' == DoCloser(s, t, unlucky) && |s'.threads| == |s.threads|
    ensures s'.discards == s.discards && s'.consumers == s.consumers && s'.quiesced == s.quiesced
    ensures s'.threads[t] == Closer(Unlock(Discarded(count)))
            || (s'.threads[t].Closer? && s'.threads[t].k.SweepDestroy? && s'.threads[t].k.count == count)
  {
  }

  lemma EarlyCloseStep(s: State, s': State, t: nat, unlucky: bool, discard: bool)
    requires t < |s.threads| && s.threads[t].Closer? && s' == DoCloser(s, t, unlucky) && |s'.threads| == |s.threads|
    requires FitsClose(s.threads[t], discard) && HasDone(s, s.threads[t]) && !InSweep(s.threads[t].k)
    ensures HasDone(s', s'.threads[t]) && (!discard ==> s'.consumers == s.consumers)
    ensures DroppedBy(s'.threads[t]) == DroppedBy(s.threads[t]) && s'.discards == s.discards
  {
    match s.threads[t].k
    case CloseProducers(d) => assert s'.threads[t] == Closer(WaitProducers(d)) && s'.discards == s.discards;
    case WaitProducers(d) => assert s'.threads[t] == Closer(Quiesce(d)) && s'.discards == s.discards;
    case Quiesce(d) => assert s'.threads[t] == Closer(if d then CloseConsumers else Unlock(Success)) && s'.discards == s.discards;
    case CloseConsumers => assert s'.threads[t] == Closer(WaitConsumers) && s'.discards == s.discards;
    case WaitConsumers => assert s'.threads[t] == Closer(Sweep(0)) && s'.discards == s.discards;
    case Unlock(outcome) => assert s'.threads[t] == Done(outcome) && s'.discards == s.discards;
  }

  lemma CloseStep(s: State, s': State, t: nat, unlucky: bool, discard: bool)
    requires Enabled(s, Advance(t, unlucky)) && s' == Do(s, Advance(t, unlucky)) && |s'.threads| == |s.threads|
    requires FitsClose(s.threads[t], discard) && HasDone(s, s.threads[t])
    ensures HasDone(s', s'.threads[t]) && (!discard ==> s'.consumers == s.consumers)
    ensures DroppedBy(s'.threads[t]) == DroppedBy(s.threads[t]) + s'.discards - s.discards
  {
    match s.threads[t]
    case Lock(d) => assert s'.threads[t] == Closer(CloseProducers(d));
    case Closer(k) =>
      if InSweep(k) {
        LateCloseStep(s, s', t, unlucky);
      } else {
        EarlyCloseStep(s, s', t, unlucky, discard);
      }
  }

  lemma CloseStarts(run: seq<State>, steps: seq<Step>, i: nat, j: nat, t: nat)
    requires Call(run, steps, i, j, t) && steps[i].StartClose?
    ensures run[i + 1].threads[t] == Lock(steps[i].discard) && run[i + 1].discards == run[i].discards
    ensures run[i + 1].consumers == run[i].consumers
  {
    assert Steps(run, steps, i);
  }

  lemma OwnCloseStep(run: seq<State>, steps: seq<Step>, i: nat, n: nat, j: nat, t: nat)
    requires Call(run, steps, i, j, t) && steps[i].StartClose? && i < n < j && HasDone(run[n], run[n].threads[t]) && steps[n].thread == t
    ensures HasDone(run[n + 1], run[n + 1].threads[t])
    ensures DroppedBy(run[n + 1].threads[t]) == DroppedBy(run[n].threads[t]) + run[n + 1].discards - run[n].discards
    ensures !steps[i].discard ==> run[n + 1].consumers == run[n].consumers
  {
    CallStands(run, steps, i, n, j, t);
    CallStep(run, steps, i, n, j, t);
    assert Steps(run, steps, n);
    CloseStep(run[n], run[n + 1], t, steps[n].unlucky, steps[i].discard);
  }

  lemma OtherCloseStep(run: seq<State>, steps: seq<Step>, i: nat, n: nat, j: nat, t: nat)
    requires Call(run, steps, i, j, t) && steps[i].StartClose? && i < n < j && HasDone(run[n], run[n].threads[t]) && steps[n].thread != t
    ensures HasDone(run[n + 1], run[n + 1].threads[t]) && run[n + 1].threads[t] == run[n].threads[t]
  {
    CallStands(run, steps, i, n, j, t);
    CallStep(run, steps, i, n, j, t);
    EvolvesAt(run, steps, n);
    DoneStays(run[n], run[n + 1], run[n].threads[t]);
  }

  lemma EvolvesAt(run: seq<State>, steps: seq<Step>, n: nat)
    requires IsTrace(run, steps) && n < |steps|
    ensures Evolves(run[n], run[n + 1])
  {
    TraceIsRun(run, steps);
    RunEvolves(run, n, n + 1);
  }

  lemma DoneStays(s: State, s': State, l: Local)
    requires Evolves(s, s') && HasDone(s, l)
    ensures HasDone(s', l)
  {
  }

  lemma {:induction false} CloseStands(run: seq<State>, steps: seq<Step>, i: nat, n: nat, j: nat, t: nat)
    requires Call(run, steps, i, j, t) && steps[i].StartClose? && i < n <= j
    ensures HasDone(run[n], run[n].threads[t]) && Drops(run, steps, i, n, t) == DroppedBy(run[n].threads[t])
    ensures !steps[i].discard ==> forall k | i <= k < n && steps[k].thread == t :: run[k + 1].consumers == run[k].consumers
  {
    CloseStarts(run, steps, i, j, t);
    if n == i + 1 {
      assert Drops(run, steps, i, i, t) == 0;
    } else {
      CloseStands(run, steps, i, n - 1, j, t);
      if steps[n - 1].thread == t {
        OwnCloseStep(run, steps, i, n - 1, j, t);
      } else {
        OtherCloseStep(run, steps, i, n - 1, j, t);
      }
    }
  }

  /** What `close` and `close_and_discard` have done when they return, over any interleaving: both leave
      the queue quiesced; a discard has shut the consumers out and answers the number of events that it
      destroyed itself; a plain close destroys nothing and leaves the consumers' gate alone. */
  lemma CloseAnswersForItself(run: seq<State>, steps: seq<Step>, i: nat, j: nat, t: nat)
    requires Call(run, steps, i, j, t) && steps[i].StartClose?
    ensures var outcome := run[j].threads[t].outcome;
            && run[j].quiesced && Shut(run[j].producers)
            && (if steps[i].discard then outcome.Discarded? && outcome.count == Drops(run, steps, i, j, t) && run[j].consumers.closed
                else outcome == Success && Drops(run, steps, i, j, t) == 0)
            && (!steps[i].discard ==> forall k | i <= k < j && steps[k].thread == t :: run[k + 1].consumers == run[k].consumers)
  {
    CallStands(run, steps, i, j, j, t);
    CloseStands(run, steps, i, j, j, t);
    TraceIsRun(run, steps);
    RunKeepsInv(run, j);
  }
}
