/** What too many threads at once can do to the lock-free queue: runs with 3n consumers or producers
    after which the queue breaks a promise, with every earlier call returned. */
module LockFreeCrowded {
  import opened Wrappers
  import opened Tally
  import opened LockFreeQueue
  import opened LockFreeSafety
  import opened LockFreeTheorems
  import opened LockFreeAlone
  import opened LockFreeClosed

  /** The first i of m threads are at a, the others at b, and one more comes last. */
  predicate Ranks(threads: seq<Local>, m: nat, i: nat, a: Local, b: Local) {
    && i <= m && |threads| == m + 1 && Resting(threads[m])
    && (forall t | 0 <= t < i :: threads[t] == a)
    && (forall t | i <= t < m :: threads[t] == b)
  }

  // ---------------------------------------------------------------- consumers that come too early

  lemma ClaimOne(run: seq<State>, t: nat) returns (longer: seq<State>)
    requires IsRun(run) && t < |Last(run).threads| && Resting(Last(run).threads[t])
    requires !Last(run).consumers.closed && Last(run).published == []
    ensures IsRun(longer)
    ensures var s, inside := Last(run), Last(run).consumers.active + 1;
            Last(longer) == s.(threads := s.threads[t := Consumer(CheckQuiesced)], consumers := Gate(false, inside),
                               mostConsumers := Most(s.mostConsumers, inside))
  {
    var s := Last(run);
    var r1, s1 := Then(run, StartPop(t));
    assert s1 == Goto(s, t, GateLoad(Pop));
    longer := ClaimOnEmpty(r1, t);
  }

  /** All find the published ring empty. */
  lemma {:induction false} AllClaim(run: seq<State>, m: nat, i: nat) returns (longer: seq<State>)
    requires IsRun(run) && Ranks(Last(run).threads, m, i, Consumer(CheckQuiesced), Idle)
    requires Last(run).consumers == Gate(false, i) && Last(run).published == [] && i <= Last(run).mostConsumers
    ensures IsRun(longer) && Ranks(Last(longer).threads, m, m, Consumer(CheckQuiesced), Idle)
    ensures var s, s' := Last(run), Last(longer);
            && s' == s.(threads := s'.threads, consumers := Gate(false, m), mostConsumers := s'.mostConsumers)
            && m <= s'.mostConsumers
    decreases m - i
  {
    longer := run;
    if i < m {
      longer := ClaimOne(run, i);
      longer := AllClaim(longer, m, i + 1);
    }
  }

  lemma LeaveOne(run: seq<State>, t: nat) returns (longer: seq<State>)
    requires IsRun(run) && At(Last(run), t, Consumer(CheckQuiesced)) && !Last(run).quiesced
    ensures IsRun(longer)
    ensures var s := Last(run);
            Last(longer) == s.(threads := s.threads[t := Done(Empty)], consumers := LeaveGate(s.consumers))
  {
    var s := Last(run);
    var r1, s1 := Then(run, Advance(t, false));
    assert s1 == Goto(s, t, Consumer(LeaveConsumer(Empty)));
    var r2, s2 := Then(r1, Advance(t, false));
    longer := r2;
  }

  /** All answer empty. */
  lemma {:induction false} AllLeave(run: seq<State>, m: nat, i: nat) returns (longer: seq<State>)
    requires IsRun(run) && Ranks(Last(run).threads, m, i, Done(Empty), Consumer(CheckQuiesced))
    requires Last(run).consumers == Gate(false, m - i) && !Last(run).quiesced
    ensures IsRun(longer) && Ranks(Last(longer).threads, m, m, Done(Empty), Consumer(CheckQuiesced))
    ensures var s, s' := Last(run), Last(longer); s' == s.(threads := s'.threads, consumers := Gate(false, 0))
    decreases m - i
  {
    longer := run;
    if i < m {
      longer := LeaveOne(run, i);
      longer := AllLeave(longer, m, i + 1);
    }
  }

  /** An event is published behind the back of 3n consumers, and everybody returns. */
  ghost predicate EventBehind(s: State, n: nat) {
    && s.capacity == n && Ranks(s.threads, 3 * n, 3 * n, Done(Empty), Consumer(CheckQuiesced)) && s.published != []
    && s.producers == Gate(false, 0) && s.consumers == Gate(false, 0) && s.lock == None && !s.quiesced
    && s.mostConsumers >= 3 * n
  }

  lemma NewIsRun(n: nat, threads: nat)
    ensures IsRun([NewQueue(n, threads)])
  {
  }

  lemma CountLength(n: nat)
    ensures |Count(n)| == n
  {
  }

  lemma PublishBehind(n: nat) returns (run: seq<State>)
    requires n > 0
    ensures IsRun(run) && EventBehind(Last(run), n)
  {
    var s := NewQueue(n, 3 * n + 1);
    NewIsRun(n, 3 * n + 1);
    CountLength(n);
    var r1 := AllClaim([s], 3 * n, 0);
    var r2 := PushAlone(r1, 3 * n, 7);
    run := AllLeave(r2, 3 * n, 0);
  }

  /** With 3n consumers a pop that begins after a close has returned may answer "closed" with an event
      left and no discard under way. */
  lemma CrowdedPopMisses(n: nat) returns (run: seq<State>, i: nat)
    requires n > 0
    ensures IsRun(run) && i < |run| && run[i].quiesced && Last(run).capacity == n && |Last(run).threads| == 3 * n + 1
    ensures forall t | 0 <= t < |run[i].threads| :: run[i].threads[t].Done?
    ensures ClosedPop(run, i, |run| - 1, 0) && Last(run).published != [] && !Last(run).consumers.closed
  {
    var r1 := PublishBehind(n);
    var r2 := CloseAlone(r1, 3 * n);
    i := |r2| - 1;
    run := MissedPop(r2);
  }

  lemma MissedPop(run: seq<State>) returns (longer: seq<State>)
    requires IsRun(run) && |Last(run).threads| > 0 && Resting(Last(run).threads[0]) && Last(run).quiesced
    requires !Last(run).consumers.closed && Crowded(Last(run))
    ensures IsRun(longer) && run <= longer && ClosedPop(longer, |run| - 1, |longer| - 1, 0)
    ensures var s, s' := Last(run), Last(longer);
            s'.published == s.published && !s'.consumers.closed && s'.capacity == s.capacity && |s'.threads| == |s.threads|
  {
    var s := Last(run);
    var r1, s1 := Then(run, StartPop(0));
    assert s1 == Goto(s, 0, GateLoad(Pop));
    var r2 := MissedClaim(r1, 0);
    longer := AnswersClosed(r2, 0);
    assert r1[|run|] == s1;
    CallSpans(run, r1, r2, longer, 0);
  }

  lemma MissedClaim(run: seq<State>, t: nat) returns (longer: seq<State>)
    requires IsRun(run) && At(Last(run), t, GateLoad(Pop)) && !Last(run).consumers.closed && Crowded(Last(run))
    ensures run <= longer && IsRun(longer) && At(Last(longer), t, Consumer(CheckQuiesced))
    ensures forall m | |run| <= m < |longer| :: AtPop(longer[m], t)
    ensures var s, s' := Last(run), Last(longer);
            && s'.published == s.published && !s'.consumers.closed && s'.capacity == s.capacity && |s'.threads| == |s.threads|
            && s'.quiesced == s.quiesced
  {
    var r1 := EnterConsumer(run, t);
    var s2;
    longer, s2 := Then(r1, Advance(t, true));
    assert s2 == Goto(Last(r1), t, Consumer(CheckQuiesced));
  }

  /** With 3n consumers `close_and_discard` may leave an accepted event that is neither popped nor
      discarded, with every thread back from its call. */
  lemma CrowdedDiscardMisses(n: nat) returns (run: seq<State>)
    requires n > 0
    ensures IsRun(run)
    ensures var s := Last(run);
            && s.capacity == n && |s.threads| == 3 * n + 1 && s.threads[3 * n] == Done(Discarded(0)) && s.swept
            && (forall t | 0 <= t < |s.threads| :: s.threads[t].Done?)
            && s.published != [] && s.pops + s.discards < |s.accepted|
  {
    var r1 := PublishBehind(n);
    var r2 := LockAndClose(r1, 3 * n, true);
    var r3 := QuiesceAlone(r2, 3 * n, true);
    run := MissedSweep(r3, 3 * n);
    RunKeepsInv(run, |run| - 1);
  }

  lemma MissedSweep(run: seq<State>, v: nat) returns (longer: seq<State>)
    requires IsRun(run) && At(Last(run), v, Closer(CloseConsumers)) && Last(run).consumers.active == 0 && Crowded(Last(run))
    ensures IsRun(longer)
    ensures var s, s' := Last(run), Last(longer);
            && s' == s.(threads := s.threads[v := Done(Discarded(0))], consumers := Gate(true, 0), lock := None, swept := true)
  {
    var s := Last(run);
    var r1, s1 := Then(run, Advance(v, false));
    assert s1 == Goto(s, v, Closer(WaitConsumers)).(consumers := Gate(true, 0));
    var r2, s2 := Then(r1, Advance(v, false));
    assert s2 == Goto(s1, v, Closer(Sweep(0)));
    longer := SweepNothing(r2, v);
  }

  lemma SweepNothing(run: seq<State>, v: nat) returns (longer: seq<State>)
    requires IsRun(run) && At(Last(run), v, Closer(Sweep(0))) && Crowded(Last(run))
    ensures IsRun(longer)
    ensures var s, s' := Last(run), Last(longer);
            s' == s.(threads := s.threads[v := Done(Discarded(0))], lock := None, swept := true)
  {
    var s := Last(run);
    var r1, s1 := Then(run, Advance(v, true));
    assert s1 == Goto(s, v, Closer(Unlock(Discarded(0))));
    var r2, s2 := Then(r1, Advance(v, false));
    longer := r2;
  }

  // ---------------------------------------------------------------- producers that come too early

  lemma ReserveOne(run: seq<State>, t: nat) returns (longer: seq<State>)
    requires IsRun(run) && t < |Last(run).threads| && Resting(Last(run).threads[t])
    requires !Last(run).producers.closed && Last(run).available == []
    ensures IsRun(longer)
    ensures var s, inside := Last(run), Last(run).producers.active + 1;
            Last(longer) == s.(threads := s.threads[t := Producer(LeaveProducer(Full))], producers := Gate(false, inside),
                               mostProducers := Most(s.mostProducers, inside))
  {
    var r1 := EnterProducer(run, t, 5);
    var s1 := Last(r1);
    var r2, s2 := Then(r1, Advance(t, false));
    assert s2 == Goto(s1, t, Producer(LeaveProducer(Full)));
    longer := r2;
  }

  /** All find the queue full. */
  lemma {:induction false} AllReserve(run: seq<State>, m: nat, i: nat) returns (longer: seq<State>)
    requires IsRun(run) && Ranks(Last(run).threads, m, i, Producer(LeaveProducer(Full)), Idle)
    requires Last(run).producers == Gate(false, i) && Last(run).available == [] && i <= Last(run).mostProducers
    ensures IsRun(longer) && Ranks(Last(longer).threads, m, m, Producer(LeaveProducer(Full)), Idle)
    ensures var s, s' := Last(run), Last(longer);
            && s' == s.(threads := s'.threads, producers := Gate(false, m), mostProducers := s'.mostProducers)
            && m <= s'.mostProducers
    decreases m - i
  {
    longer := run;
    if i < m {
      longer := ReserveOne(run, i);
      longer := AllReserve(longer, m, i + 1);
    }
  }

  /** All answer full. */
  lemma {:induction false} AllGoFull(run: seq<State>, m: nat, i: nat) returns (longer: seq<State>)
    requires IsRun(run) && Ranks(Last(run).threads, m, i, Done(Full), Producer(LeaveProducer(Full)))
    requires Last(run).producers == Gate(false, m - i)
    ensures IsRun(longer) && Ranks(Last(longer).threads, m, m, Done(Full), Producer(LeaveProducer(Full)))
    ensures var s, s' := Last(run), Last(longer); s' == s.(threads := s'.threads, producers := Gate(false, 0))
    decreases m - i
  {
    longer := run;
    if i < m {
      var s := Last(run);
      var s1;
      longer, s1 := Then(run, Advance(i, false));
      assert s1 == Goto(s, i, Done(Full)).(producers := Gate(false, m - i - 1));
      longer := AllGoFull(longer, m, i + 1);
    }
  }

  /** The queue is empty again, with every thread back from its call. */
  ghost predicate EmptyAgain(s: State, n: nat) {
    && s.capacity == n && Ranks(s.threads, 3 * n, 3 * n, Done(Full), Producer(LeaveProducer(Full))) && Resting(s.threads[3 * n])
    && s.producers == Gate(false, 0) && s.consumers == Gate(false, 0) && s.published == [] && |s.available| == n
    && s.mostProducers >= 3 * n
  }

  lemma EmptyBehind(n: nat) returns (run: seq<State>)
    requires n > 0
    ensures IsRun(run) && EmptyAgain(Last(run), n)
  {
    var s := NewQueue(n, 3 * n + 1);
    NewIsRun(n, 3 * n + 1);
    CountLength(n);
    var r1 := FillAlone([s], 3 * n);
    var r2 := AllReserve(r1, 3 * n, 0);
    var r3 := DrainAlone(r2, 3 * n);
    run := AllGoFull(r3, 3 * n, 0);
  }

  /** With 3n producers a push that nobody disturbs may answer full although the queue is open and all
      n slots are free. */
  lemma CrowdedPushMisses(n: nat, event: Event) returns (run: seq<State>, i: nat)
    requires n > 0
    ensures IsRun(run) && i < |run| && run[i].capacity == n && |run[i].threads| == 3 * n + 1
    ensures forall t | 0 <= t < |run[i].threads| :: Resting(run[i].threads[t])
    ensures run[i].producers == Gate(false, 0) && run[i].consumers.active == 0 && |run[i].available| == n
    ensures LonePush(run, i, |run| - 1, 3 * n, event) && At(Last(run), 3 * n, Done(Full))
  {
    var r1 := EmptyBehind(n);
    i := |r1| - 1;
    run := MissedPush(r1, 3 * n, event);
  }

  lemma MissedPush(run: seq<State>, u: nat, event: Event) returns (longer: seq<State>)
    requires IsRun(run) && u < |Last(run).threads| && Resting(Last(run).threads[u])
    requires Last(run).producers == Gate(false, 0) && Pressed(Last(run))
    ensures IsRun(longer) && run <= longer && LonePush(longer, |run| - 1, |longer| - 1, u, event)
    ensures At(Last(longer), u, Done(Full))
  {
    var s := Last(run);
    var r1, s1 := Then(run, StartPush(u, event));
    assert s1 == Goto(s, u, GateLoad(Push(event)));
    var r2, s2 := OwnThen(r1, u, false);
    assert s2 == Goto(s, u, GateSwap(Push(event), Gate(false, 0)));
    longer := MissedInside(r2, u, event);
    forall m: nat | |run| <= m < |longer| - 1
      ensures OwnStep(longer[m], longer[m + 1], u)
    {
      if m == |run| {
        assert longer[m] == s1 && longer[m + 1] == s2;
      }
    }
    assert longer[|run| - 1] == s && longer[|run|] == s1;
  }

  lemma OwnThen(run: seq<State>, u: nat, unlucky: bool) returns (longer: seq<State>, s': State)
    requires IsRun(run) && Enabled(Last(run), Advance(u, unlucky))
    ensures IsRun(longer) && longer == run + [s'] && s' == Last(longer) == Do(Last(run), Advance(u, unlucky))
    ensures OwnStep(Last(run), s', u)
  {
    longer, s' := Then(run, Advance(u, unlucky));
  }

  lemma MissedInside(run: seq<State>, u: nat, event: Event) returns (longer: seq<State>)
    requires IsRun(run) && At(Last(run), u, GateSwap(Push(event), Gate(false, 0)))
    requires Last(run).producers == Gate(false, 0) && Pressed(Last(run))
    ensures IsRun(longer) && run <= longer && |longer| == |run| + 3 && At(Last(longer), u, Done(Full))
    ensures forall m: nat | |run| - 1 <= m < |longer| - 1 :: OwnStep(longer[m], longer[m + 1], u)
  {
    var s := Last(run);
    var r1, s1 := OwnThen(run, u, false);
    assert s1 == Goto(s, u, Producer(Reserve(event))).(producers := Gate(false, 1), mostProducers := Most(s.mostProducers, 1));
    var s2, s3;
    longer, s2, s3 := RefusedInside(r1, u, event);
    assert longer == run + [s1, s2, s3];
  }

  lemma RefusedInside(run: seq<State>, u: nat, event: Event) returns (longer: seq<State>, s1: State, s2: State)
    requires IsRun(run) && At(Last(run), u, Producer(Reserve(event))) && Pressed(Last(run))
    ensures IsRun(longer) && longer == run + [s1, s2] && At(s2, u, Done(Full))
    ensures OwnStep(Last(run), s1, u) && OwnStep(s1, s2, u)
  {
    var r1, r2;
    r1, s1 := OwnThen(run, u, true);
    assert s1 == Goto(Last(run), u, Producer(LeaveProducer(Full)));
    r2, s2 := OwnThen(r1, u, false);
    longer := r2;
  }
}
