/** Calls of the lock-free queue that run alone: that some such call does its work, and when every
    undisturbed push succeeds. */
module LockFreeAlone {
  import opened Wrappers
  import opened Tally
  import opened LockFreeQueue
  import opened LockFreeSafety
  import opened LockFreeTheorems

  function Last(run: seq<State>): State
    requires run != []
  {
    run[|run| - 1]
  }

  // ---------------------------------------------------------------- runs of one thread

  /** Thread u runs on from the end of a run, and nobody else does. */
  ghost predicate RunsAlone(run: seq<State>, longer: seq<State>, u: nat) {
    && run != [] && run <= longer && IsRun(longer)
    && forall m | |run| <= m < |longer| :: Alone(Last(run), longer[m], u)
  }

  ghost predicate Alone(s: State, s': State, u: nat) {
    u < |s.threads| == |s'.threads| && s'.threads == s.threads[u := s'.threads[u]]
  }

  lemma Then(run: seq<State>, step: Step) returns (longer: seq<State>, s': State)
    requires IsRun(run) && Enabled(Last(run), step)
    ensures IsRun(longer) && longer == run + [s'] && s' == Last(longer) == Do(Last(run), step)
  {
    s' := Do(Last(run), step);
    longer := run + [s'];
    forall i: nat | i + 1 < |longer|
      ensures StepAt(longer, i)
    {
      if i + 1 < |run| {
        assert StepAt(run, i);
      } else {
        assert Next(Last(run), longer[i + 1]);
      }
    }
  }

  lemma ThenAlone(run: seq<State>, u: nat, longer: seq<State>, s': State)
    requires run != [] && IsRun(longer) && longer == run + [s'] && Alone(Last(run), s', u)
    ensures RunsAlone(run, longer, u)
  {
  }

  lemma AloneOn(a: seq<State>, b: seq<State>, c: seq<State>, u: nat)
    requires RunsAlone(a, b, u) && RunsAlone(b, c, u)
    ensures RunsAlone(a, c, u)
  {
    forall m | |a| <= m < |c|
      ensures Alone(Last(a), c[m], u)
    {
      assert m < |b| ==> c[m] == b[m];
      assert |a| < |b| ==> Alone(Last(a), b[|b| - 1], u);
    }
  }

  /** A step of thread u that is told by its new state. */
  lemma StepAlone(run: seq<State>, u: nat, step: Step, s': State) returns (longer: seq<State>)
    requires IsRun(run) && Enabled(Last(run), step) && s' == Do(Last(run), step) && Alone(Last(run), s', u)
    ensures RunsAlone(run, longer, u) && Last(longer) == s'
  {
    var e;
    longer, e := Then(run, step);
    ThenAlone(run, u, longer, e);
  }

  // ---------------------------------------------------------------- a push alone

  lemma EnterProducer(run: seq<State>, u: nat, event: Event) returns (longer: seq<State>)
    requires IsRun(run) && u < |Last(run).threads| && Resting(Last(run).threads[u]) && !Last(run).producers.closed
    ensures RunsAlone(run, longer, u)
    ensures var s, inside := Last(run), Last(run).producers.active + 1;
            Last(longer) == s.(threads := s.threads[u := Producer(Reserve(event))], producers := Gate(false, inside),
                               mostProducers := Most(s.mostProducers, inside))
  {
    var s, inside := Last(run), Last(run).producers.active + 1;
    var r1 := StepAlone(run, u, StartPush(u, event), Goto(s, u, GateLoad(Push(event))));
    var r2 := StepAlone(r1, u, Advance(u, false), Goto(s, u, GateSwap(Push(event), s.producers)));
    longer := StepAlone(r2, u, Advance(u, false),
                        Goto(s, u, Producer(Reserve(event)))
                        .(producers := Gate(false, inside), mostProducers := Most(s.mostProducers, inside)));
    AloneOn(run, r1, r2, u);
    AloneOn(run, r2, longer, u);
  }

  /** What a push inside its gate leaves alone. */
  ghost predicate InsidePush(s: State, s': State) {
    && s'.producers == s.producers && s'.lock == s.lock && s'.quiesced == s.quiesced && s'.consumers == s.consumers
    && s'.capacity == s.capacity && s'.mostConsumers == s.mostConsumers && s'.mostProducers == s.mostProducers
  }

  lemma ReserveAndConstruct(run: seq<State>, u: nat, event: Event) returns (longer: seq<State>, slot: nat)
    requires IsRun(run) && At(Last(run), u, Producer(Reserve(event))) && Last(run).available != []
    ensures RunsAlone(run, longer, u) && InsidePush(Last(run), Last(longer))
    ensures At(Last(longer), u, Producer(CountUp(slot)))
    ensures |Last(longer).available| + 1 == |Last(run).available| && Last(longer).published == Last(run).published
  {
    slot := Last(run).available[0];
    var s1 := DoProducer(Last(run), u, false);
    var r1 := StepAlone(run, u, Advance(u, false), s1);
    assert s1.threads[u] == Producer(Construct(event, slot));
    longer := StepAlone(r1, u, Advance(u, false), DoProducer(s1, u, false));
    AloneOn(run, r1, longer, u);
  }

  lemma CountAndPublish(run: seq<State>, u: nat, slot: nat) returns (longer: seq<State>)
    requires IsRun(run) && At(Last(run), u, Producer(CountUp(slot)))
    ensures RunsAlone(run, longer, u) && InsidePush(Last(run), Last(longer))
    ensures At(Last(longer), u, Producer(LeaveProducer(Success)))
    ensures Last(longer).available == Last(run).available && |Last(longer).published| == |Last(run).published| + 1
  {
    var s1 := DoProducer(Last(run), u, false);
    var r1 := StepAlone(run, u, Advance(u, false), s1);
    assert s1.threads[u] == Producer(Publish(slot));
    longer := StepAlone(r1, u, Advance(u, false), DoProducer(s1, u, false));
    AloneOn(run, r1, longer, u);
  }

  /** Where there is room and nobody else is in the producer gate, a push can run alone to success. */
  lemma PushAlone(run: seq<State>, u: nat, event: Event) returns (longer: seq<State>)
    requires IsRun(run) && u < |Last(run).threads| && Resting(Last(run).threads[u])
    requires Last(run).producers == Gate(false, 0) && Last(run).available != []
    ensures RunsAlone(run, longer, u)
    ensures var s, s' := Last(run), Last(longer);
            && s'.producers == s.producers && s'.lock == s.lock && s'.quiesced == s.quiesced && s'.consumers == s.consumers
            && s'.capacity == s.capacity && s'.mostConsumers == s.mostConsumers
            && |s'.available| + 1 == |s.available| && |s'.published| == |s.published| + 1
    ensures At(Last(longer), u, Done(Success))
  {
    var r1 := EnterProducer(run, u, event);
    var r2, slot := ReserveAndConstruct(r1, u, event);
    var r3 := CountAndPublish(r2, u, slot);
    longer := StepAlone(r3, u, Advance(u, false), DoProducer(Last(r3), u, false));
    AloneOn(run, r1, r2, u);
    AloneOn(run, r2, r3, u);
    AloneOn(run, r3, longer, u);
  }

  // ---------------------------------------------------------------- every push alone

  /** Thread u calls `try_push` at i, and nobody else moves until the call has its answer at j. */
  ghost predicate LonePush(run: seq<State>, i: nat, j: nat, u: nat, event: Event) {
    && i + 1 < j < |run|
    && Enabled(run[i], StartPush(u, event)) && run[i + 1] == Do(run[i], StartPush(u, event))
    && (forall m: nat | i < m < j :: OwnStep(run[m], run[m + 1], u))
    && u < |run[j].threads| && run[j].threads[u].Done?
  }

  ghost predicate OwnStep(s: State, s': State, u: nat) {
    exists unlucky :: Enabled(s, Advance(u, unlucky)) && s' == Do(s, Advance(u, unlucky))
  }

  /** The constructor of the event threw in the call of thread u. */
  ghost predicate Threw(run: seq<State>, i: nat, j: nat, u: nat)
    requires j < |run|
  {
    exists m :: i <= m <= j && PuttingBack(run[m], u)
  }

  predicate PuttingBack(s: State, u: nat) {
    u < |s.threads| && s.threads[u].Producer? && s.threads[u].p.PutBack?
  }

  /** What the call adds to the accepted events. */
  function Gain(event: Event, threw: bool): seq<Event> {
    if threw then [] else [event]
  }

  /** How far the call has come. */
  ghost predicate OnPush(accepted: seq<Event>, s: State, l: Local, event: Event, threw: bool) {
    match l
    case GateLoad(op) => op == Push(event) && s.producers == Gate(false, 0) && s.available != [] && s.accepted == accepted && !threw
    case GateSwap(op, seen) =>
      op == Push(event) && !seen.closed && s.producers == Gate(false, 0) && s.available != [] && s.accepted == accepted && !threw
    case Producer(p) => OnPushInside(accepted, s, p, event, threw)
    case Done(outcome) => outcome == (if threw then Outcome.Threw else Success) && s.accepted == accepted + Gain(event, threw)
    case _ => false
  }

  ghost predicate OnPushInside(accepted: seq<Event>, s: State, p: ProducerPoint, event: Event, threw: bool) {
    match p
    case Reserve(e) => e == event && s.producers == Gate(false, 1) && s.available != [] && s.accepted == accepted && !threw
    case Construct(e, slot) => e == event && slot < |s.slots| && s.accepted == accepted && !threw
    case PutBack(_) => s.accepted == accepted && threw
    case CountUp(slot) => slot < |s.slots| && s.slots[slot] == Some(event) && s.accepted == accepted && !threw
    case Publish(slot) => slot < |s.slots| && s.slots[slot] == Some(event) && s.accepted == accepted && !threw
    case LeaveProducer(outcome) =>
      outcome == (if threw then Outcome.Threw else Success) && s.accepted == accepted + Gain(event, threw)
  }

  lemma GateOnPush(s: State, s': State, u: nat, unlucky: bool, accepted: seq<Event>, event: Event)
    requires u < |s.threads| && (s.threads[u].GateLoad? || s.threads[u].GateSwap?) && s' == DoGate(s, u, unlucky)
    requires OnPush(accepted, s, s.threads[u], event, false)
    ensures u < |s'.threads| && OnPush(accepted, s', s'.threads[u], event, false) && s'.consumers == s.consumers
  {
  }

  lemma ReserveOnPush(s: State, s': State, u: nat, unlucky: bool, accepted: seq<Event>, event: Event)
    requires u < |s.threads| && s.threads[u].Producer? && s.threads[u].p.Reserve? && s' == DoProducer(s, u, unlucky)
    requires RingsSound(s) && s.consumers.active == 0 && !Pressed(s) && (unlucky ==> MayBeUnlucky(s, s.threads[u]))
    requires OnPush(accepted, s, s.threads[u], event, false)
    ensures u < |s'.threads| && OnPush(accepted, s', s'.threads[u], event, false) && s'.consumers == s.consumers
  {
    assert !unlucky;
    assert s'.threads[u] == Producer(Construct(event, s.available[0]));
  }

  lemma InsideOnPush(s: State, s': State, u: nat, unlucky: bool, accepted: seq<Event>, event: Event, threw: bool)
    requires u < |s.threads| && s.threads[u].Producer? && !s.threads[u].p.Reserve? && s' == DoProducer(s, u, unlucky)
    requires OnPush(accepted, s, s.threads[u], event, threw)
    ensures u < |s'.threads| && OnPush(accepted, s', s'.threads[u], event, threw || PuttingBack(s', u)) && s'.consumers == s.consumers
  {
    match s.threads[u].p
    case Construct(_, slot) =>
      assert s'.threads[u] == if unlucky then Producer(PutBack(slot)) else Producer(CountUp(slot));
    case PutBack(_) => assert s'.threads[u] == Producer(LeaveProducer(Outcome.Threw));
    case CountUp(slot) => assert s'.threads[u] == Producer(Publish(slot));
    case Publish(_) => assert s'.threads[u] == Producer(LeaveProducer(Success));
    case LeaveProducer(outcome) => assert s'.threads[u] == Done(outcome);
  }

  lemma OwnStepOnPush(s: State, s': State, u: nat, accepted: seq<Event>, event: Event, threw: bool)
    requires RingsSound(s) && s.consumers.active == 0 && !Pressed(s) && OwnStep(s, s', u)
    requires u < |s.threads| && OnPush(accepted, s, s.threads[u], event, threw)
    ensures u < |s'.threads| && OnPush(accepted, s', s'.threads[u], event, threw || PuttingBack(s', u)) && s'.consumers == s.consumers
  {
    var unlucky :| Enabled(s, Advance(u, unlucky)) && s' == Do(s, Advance(u, unlucky));
    if s.threads[u].Producer? {
      if s.threads[u].p.Reserve? {
        ReserveOnPush(s, s', u, unlucky, accepted, event);
      } else {
        InsideOnPush(s, s', u, unlucky, accepted, event, threw);
      }
    } else {
      GateOnPush(s, s', u, unlucky, accepted, event);
    }
  }

  lemma ThrewGrows(run: seq<State>, i: nat, m: nat, u: nat)
    requires i < m < |run|
    ensures Threw(run, i, m, u) <==> Threw(run, i, m - 1, u) || PuttingBack(run[m], u)
  {
  }

  /** A place for a push from which its run can be followed. */
  ghost predicate Roomy(s: State) {
    s.producers == Gate(false, 0) && s.consumers.active == 0 && s.available != []
  }

  lemma StartOnPush(run: seq<State>, i: nat, j: nat, u: nat, event: Event)
    requires LonePush(run, i, j, u, event) && Roomy(run[i])
    ensures u < |run[i + 1].threads| && OnPush(run[i].accepted, run[i + 1], run[i + 1].threads[u], event, Threw(run, i, i + 1, u))
    ensures run[i + 1].consumers == run[i].consumers
  {
    assert run[i + 1] == Goto(run[i], u, GateLoad(Push(event)));
    assert !PuttingBack(run[i], u) && !PuttingBack(run[i + 1], u);
  }

  lemma StepAtOnPush(run: seq<State>, i: nat, m: nat, j: nat, u: nat, event: Event)
    requires IsRun(run) && LonePush(run, i, j, u, event) && FewProducers(run, j) && i + 1 < m <= j
    requires run[m - 1].consumers.active == 0
    requires u < |run[m - 1].threads| && OnPush(run[i].accepted, run[m - 1], run[m - 1].threads[u], event, Threw(run, i, m - 1, u))
    ensures u < |run[m].threads| && OnPush(run[i].accepted, run[m], run[m].threads[u], event, Threw(run, i, m, u))
    ensures run[m].consumers == run[m - 1].consumers
  {
    RunKeepsInv(run, m - 1);
    FewSoFar(run, m - 1, j);
    assert OwnStep(run[m - 1], run[m], u);
    OwnStepOnPush(run[m - 1], run[m], u, run[i].accepted, event, Threw(run, i, m - 1, u));
    ThrewGrows(run, i, m, u);
  }

  lemma FewSoFar(run: seq<State>, i: nat, j: nat)
    requires IsRun(run) && i <= j < |run| && FewProducers(run, j)
    ensures !Pressed(run[i])
  {
    FewExactly(run, i);
  }

  lemma {:induction false} RunOnPush(run: seq<State>, i: nat, m: nat, j: nat, u: nat, event: Event)
    requires IsRun(run) && LonePush(run, i, j, u, event) && Roomy(run[i]) && FewProducers(run, j) && i < m <= j
    ensures u < |run[m].threads| && OnPush(run[i].accepted, run[m], run[m].threads[u], event, Threw(run, i, m, u))
    ensures run[m].consumers == run[i].consumers
  {
    if m == i + 1 {
      StartOnPush(run, i, j, u, event);
    } else {
      RunOnPush(run, i, m - 1, j, u, event);
      StepAtOnPush(run, i, m, j, u, event);
    }
  }

  /** If never more than 2n producers were inside at once, every push that nobody disturbs, called
      with the gate open, a free slot and nobody inside, succeeds and has its event accepted, unless
      the constructor throws, when nothing is accepted. */
  lemma LonePushSucceeds(run: seq<State>, i: nat, j: nat, u: nat, event: Event)
    requires IsRun(run) && LonePush(run, i, j, u, event) && FewProducers(run, j)
    requires run[i].producers == Gate(false, 0) && run[i].consumers.active == 0 && run[i].available != []
    ensures if Threw(run, i, j, u) then run[j].threads[u] == Done(Outcome.Threw) && run[j].accepted == run[i].accepted
            else run[j].threads[u] == Done(Success) && run[j].accepted == run[i].accepted + [event]
  {
    RunOnPush(run, i, j, j, u, event);
  }

  // ---------------------------------------------------------------- a close alone

  lemma LockAlone(run: seq<State>, v: nat, discard: bool) returns (longer: seq<State>)
    requires IsRun(run) && v < |Last(run).threads| && Resting(Last(run).threads[v]) && Last(run).lock == None
    ensures RunsAlone(run, longer, v)
    ensures var s := Last(run);
            Last(longer) == s.(threads := s.threads[v := Closer(CloseProducers(discard))], lock := Some(v))
  {
    var s := Last(run);
    var r1 := StepAlone(run, v, StartClose(v, discard), Goto(s, v, Lock(discard)));
    longer := StepAlone(r1, v, Advance(v, false), Goto(s, v, Closer(CloseProducers(discard))).(lock := Some(v)));
    AloneOn(run, r1, longer, v);
  }

  lemma LockAndClose(run: seq<State>, v: nat, discard: bool) returns (longer: seq<State>)
    requires IsRun(run) && v < |Last(run).threads| && Resting(Last(run).threads[v])
    requires Last(run).producers.active == 0 && Last(run).lock == None
    ensures RunsAlone(run, longer, v)
    ensures var s := Last(run);
            Last(longer) == s.(threads := s.threads[v := Closer(WaitProducers(discard))], lock := Some(v), producers := Gate(true, 0))
  {
    var s := Last(run);
    var r1 := LockAlone(run, v, discard);
    longer := StepAlone(r1, v, Advance(v, false), DoCloser(Last(r1), v, false));
    AloneOn(run, r1, longer, v);
  }

  /** What somebody in the middle of closing still does to the producers. */
  lemma QuiesceAlone(run: seq<State>, v: nat, discard: bool) returns (longer: seq<State>)
    requires IsRun(run) && Last(run).producers.active == 0
    requires At(Last(run), v, Closer(WaitProducers(discard))) || At(Last(run), v, Closer(Quiesce(discard)))
    ensures RunsAlone(run, longer, v)
    ensures var s := Last(run);
            Last(longer) == s.(threads := s.threads[v := Closer(if discard then CloseConsumers else Unlock(Success))], quiesced := true)
  {
    var s := Last(run);
    if s.threads[v].k.Quiesce? {
      longer := StepAlone(run, v, Advance(v, false), DoCloser(s, v, false));
    } else {
      var r1 := StepAlone(run, v, Advance(v, false), Goto(s, v, Closer(Quiesce(discard))));
      longer := StepAlone(r1, v, Advance(v, false), DoCloser(Last(r1), v, false));
      AloneOn(run, r1, longer, v);
    }
  }

  /** A close with nobody inside quiesces. */
  lemma CloseAlone(run: seq<State>, v: nat) returns (longer: seq<State>)
    requires IsRun(run) && v < |Last(run).threads| && Resting(Last(run).threads[v])
    requires Last(run).producers.active == 0 && Last(run).lock == None
    ensures RunsAlone(run, longer, v)
    ensures var s := Last(run);
            Last(longer) == s.(threads := s.threads[v := Done(Success)], producers := Gate(true, 0), quiesced := true)
  {
    var s := Last(run);
    var r1 := LockAndClose(run, v, false);
    var r2 := QuiesceAlone(r1, v, false);
    longer := StepAlone(r2, v, Advance(v, false), DoCloser(Last(r2), v, false));
    AloneOn(run, r1, r2, v);
    AloneOn(run, r2, longer, v);
  }

  // ---------------------------------------------------------------- pops alone

  lemma EnterConsumer(run: seq<State>, t: nat) returns (longer: seq<State>)
    requires IsRun(run) && At(Last(run), t, GateLoad(Pop)) && !Last(run).consumers.closed
    ensures RunsAlone(run, longer, t) && |longer| == |run| + 2 && AtPop(longer[|run|], t)
    ensures var s, inside := Last(run), Last(run).consumers.active + 1;
            Last(longer) == s.(threads := s.threads[t := Consumer(Claim)], consumers := Gate(false, inside),
                               mostConsumers := Most(s.mostConsumers, inside))
  {
    var s, inside := Last(run), Last(run).consumers.active + 1;
    var r1, s1 := Then(run, Advance(t, false));
    assert s1 == Goto(s, t, GateSwap(Pop, s.consumers));
    ThenAlone(run, t, r1, s1);
    var r2, s2 := Then(r1, Advance(t, false));
    assert s2 == Goto(s, t, Consumer(Claim)).(consumers := Gate(false, inside), mostConsumers := Most(s.mostConsumers, inside));
    ThenAlone(r1, t, r2, s2);
    AloneOn(run, r1, r2, t);
    longer := r2;
  }

  /** Thread t is in the middle of a call. */
  predicate AtPop(s: State, t: nat) {
    t < |s.threads| && !Resting(s.threads[t])
  }

  /** What a pop inside its gate leaves alone. */
  ghost predicate InsidePop(s: State, s': State) {
    && s'.producers == s.producers && s'.lock == s.lock && s'.quiesced == s.quiesced && s'.consumers == s.consumers
    && s'.capacity == s.capacity && s'.mostConsumers == s.mostConsumers && s'.mostProducers == s.mostProducers
  }

  lemma ClaimAndMoveOut(run: seq<State>, u: nat) returns (longer: seq<State>, slot: nat, ticket: nat, event: Event)
    requires IsRun(run) && At(Last(run), u, Consumer(Claim)) && Last(run).published != []
    ensures RunsAlone(run, longer, u) && InsidePop(Last(run), Last(longer))
    ensures At(Last(longer), u, Consumer(Destroy(slot, ticket, event)))
    ensures Last(longer).published == Last(run).published[1..] && Last(longer).available == Last(run).available
  {
    var s1 := DoConsumer(Last(run), u, false);
    slot, ticket := Last(run).published[0], |Last(run).fate|;
    var r1 := StepAlone(run, u, Advance(u, false), s1);
    assert s1.threads[u] == Consumer(MoveOut(slot, ticket));
    longer := StepAlone(r1, u, Advance(u, false), DoConsumer(s1, u, false));
    event := Contents(s1, slot);
    AloneOn(run, r1, longer, u);
  }

  lemma DestroyAndRelease(run: seq<State>, u: nat, slot: nat, ticket: nat, event: Event) returns (longer: seq<State>)
    requires IsRun(run) && At(Last(run), u, Consumer(Destroy(slot, ticket, event)))
    ensures RunsAlone(run, longer, u) && InsidePop(Last(run), Last(longer))
    ensures At(Last(longer), u, Consumer(LeaveConsumer(Popped(event, ticket))))
    ensures Last(longer).published == Last(run).published && |Last(longer).available| == |Last(run).available| + 1
  {
    var s1 := DoConsumer(Last(run), u, false);
    var r1 := StepAlone(run, u, Advance(u, false), s1);
    assert s1.threads[u] == Consumer(CountDown(slot, ticket, event));
    var s2 := DoConsumer(s1, u, false);
    var r2 := StepAlone(r1, u, Advance(u, false), s2);
    assert s2.threads[u] == Consumer(Release(slot, ticket, event));
    longer := StepAlone(r2, u, Advance(u, false), DoConsumer(s2, u, false));
    AloneOn(run, r1, r2, u);
    AloneOn(run, r2, longer, u);
  }

  /** What a whole pop leaves alone, with at most one consumer more than before. */
  ghost predicate AroundPop(s: State, s': State) {
    && s'.producers == s.producers && s'.lock == s.lock && s'.quiesced == s.quiesced && s'.consumers == s.consumers
    && s'.capacity == s.capacity && s'.mostConsumers <= Most(s.mostConsumers, s.consumers.active + 1)
    && s'.mostProducers == s.mostProducers
  }

  /** A pop alone takes the first event, and its slot becomes available. */
  lemma PopAlone(run: seq<State>, u: nat) returns (longer: seq<State>)
    requires IsRun(run) && u < |Last(run).threads| && Resting(Last(run).threads[u])
    requires !Last(run).consumers.closed && Last(run).published != []
    ensures RunsAlone(run, longer, u) && AroundPop(Last(run), Last(longer)) && Resting(Last(longer).threads[u])
    ensures Last(longer).published == Last(run).published[1..] && |Last(longer).available| == |Last(run).available| + 1
  {
    var s := Last(run);
    var r1 := StepAlone(run, u, StartPop(u), Goto(s, u, GateLoad(Pop)));
    var r2 := EnterConsumer(r1, u);
    var r3, slot, ticket, event := ClaimAndMoveOut(r2, u);
    var r4 := DestroyAndRelease(r3, u, slot, ticket, event);
    longer := StepAlone(r4, u, Advance(u, false), DoConsumer(Last(r4), u, false));
    AloneOn(run, r1, r2, u);
    AloneOn(run, r2, r3, u);
    AloneOn(run, r3, r4, u);
    AloneOn(run, r4, longer, u);
  }

  /** Pops alone take everything. */
  lemma {:induction false} DrainAlone(run: seq<State>, u: nat) returns (longer: seq<State>)
    requires IsRun(run) && u < |Last(run).threads| && Resting(Last(run).threads[u]) && !Last(run).consumers.closed
    ensures RunsAlone(run, longer, u) && AroundPop(Last(run), Last(longer)) && Resting(Last(longer).threads[u])
    ensures Last(longer).published == [] && |Last(longer).available| == |Last(run).available| + |Last(run).published|
    decreases |Last(run).published|
  {
    longer := run;
    if Last(run).published != [] {
      var r1 := PopAlone(run, u);
      longer := DrainAlone(r1, u);
      AloneOn(run, r1, longer, u);
    }
  }

  /** Pushes alone fill the queue. */
  lemma {:induction false} FillAlone(run: seq<State>, u: nat) returns (longer: seq<State>)
    requires IsRun(run) && u < |Last(run).threads| && Resting(Last(run).threads[u]) && Last(run).producers == Gate(false, 0)
    ensures RunsAlone(run, longer, u) && Resting(Last(longer).threads[u])
    ensures var s, s' := Last(run), Last(longer);
            && s'.producers == s.producers && s'.lock == s.lock && s'.quiesced == s.quiesced && s'.consumers == s.consumers
            && s'.capacity == s.capacity && s'.available == [] && |s'.published| == |s.published| + |s.available|
    decreases |Last(run).available|
  {
    longer := run;
    if Last(run).available != [] {
      var r1 := PushAlone(run, u, 7);
      longer := FillAlone(r1, u);
      AloneOn(run, r1, longer, u);
    }
  }
}
