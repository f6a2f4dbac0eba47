/** A limit of `stop_delivery`: it takes the join mutex before it asks whether it runs on the executor.
    So a callback that unsubscribes itself while another thread is joining the executor waits for a
    mutex whose holder waits for the executor, and neither ever moves again; and that is the only way
    it can be held up there. */
module SubscriberStandoff {
  import opened Wrappers
  import opened Subscriber
  import opened SubscriberSafety

  function Last(run: seq<State>): State
    requires run != []
  {
    run[|run| - 1]
  }

  /** The executor waits inside the callback for the join mutex. */
  predicate Stopping(s: State) {
    s.policy.Isolated? && |s.threads| > 0 && AtJoinLock(s.threads[0])
  }

  /** Thread u joins the executor, which waits for the mutex that u holds. */
  predicate Standoff(s: State, u: nat) {
    Stopping(s) && 0 < u < |s.threads| && !s.exited && s.joinLock == Some(u) && Joining(s.threads[u])
  }

  lemma NeitherMoves(s: State, u: nat, step: Step)
    requires Standoff(s, u) && Enabled(s, step)
    ensures step.thread != 0 && step.thread != u
  {
  }

  lemma StepKeepsStandoff(s: State, s': State, u: nat, step: Step)
    requires Inv(s) && Standoff(s, u) && Enabled(s, step) && s' == Do(s, step)
    ensures Standoff(s', u) && s'.threads[0] == s.threads[0] && s'.threads[u] == s.threads[u]
  {
    NeitherMoves(s, u, step);
    StepKeeps(s, s', step);
    assert LockSound(s);
  }

  lemma StepAtKeepsStandoff(run: seq<State>, j: nat, u: nat)
    requires IsRun(run) && 0 < j < |run| && Standoff(run[j - 1], u)
    ensures Standoff(run[j], u) && run[j].threads[0] == run[j - 1].threads[0] && run[j].threads[u] == run[j - 1].threads[u]
  {
    RunKeepsInv(run, j - 1);
    assert StepAt(run, j - 1);
    var step :| Enabled(run[j - 1], step) && run[j] == Do(run[j - 1], step);
    StepKeepsStandoff(run[j - 1], run[j], u, step);
  }

  /** The standoff is for ever. */
  lemma {:induction false} StandoffIsPermanent(run: seq<State>, i: nat, j: nat, u: nat)
    requires IsRun(run) && i <= j < |run| && Standoff(run[i], u)
    ensures Standoff(run[j], u) && run[j].threads[0] == run[i].threads[0] && run[j].threads[u] == run[i].threads[u]
  {
    if i == j {
    } else {
      StandoffIsPermanent(run, i, j - 1, u);
      StepAtKeepsStandoff(run, j, u);
    }
  }

  // ---------------------------------------------------------------- exactly when it gets through

  lemma Then(run: seq<State>, step: Step) returns (longer: seq<State>, s': State)
    requires IsRun(run) && Enabled(Last(run), step)
    ensures IsRun(longer) && run <= longer && s' == Last(longer) == Do(Last(run), step)
  {
    s' := Do(Last(run), step);
    longer := run + [s'];
    forall i: nat | i + 1 < |longer|
      ensures StepAt(longer, i)
    {
      if i + 1 < |run| {
        assert StepAt(run, i);
      } else {
        assert Next(Last(run), longer[i + 1]);
      }
    }
  }

  /** Some way to go on moves the executor. */
  ghost predicate GetsThrough(run: seq<State>)
    requires run != []
  {
    exists longer: seq<State> :: run <= longer && IsRun(longer) && |Last(run).threads| > 0 && |Last(longer).threads| > 0
                                 && Last(longer).threads[0] != Last(run).threads[0]
  }

  /** If the mutex is taken, it is by a thread that joins the executor. */
  lemma TakenMeansStandoff(s: State)
    requires Inv(s) && Stopping(s) && s.joinLock.Some?
    ensures Standoff(s, s.joinLock.value)
  {
    assert LockSound(s) && ExecutorSound(s, s.threads[0]);
    assert Joining(s.threads[s.joinLock.value]);
  }

  lemma TakenAt(run: seq<State>, i: nat)
    requires IsRun(run) && i < |run| && Stopping(run[i]) && run[i].joinLock.Some?
    ensures Standoff(run[i], run[i].joinLock.value)
  {
    RunKeepsInv(run, i);
    TakenMeansStandoff(run[i]);
  }

  lemma StuckForGood(run: seq<State>, longer: seq<State>)
    requires IsRun(run) && Stopping(Last(run)) && Last(run).joinLock.Some? && run <= longer && IsRun(longer)
    ensures |Last(longer).threads| > 0 && Last(longer).threads[0] == Last(run).threads[0]
  {
    var i := |run| - 1;
    assert longer[i] == run[i];
    TakenAt(longer, i);
    StandoffIsPermanent(longer, i, |longer| - 1, run[i].joinLock.value);
  }

  lemma FreeMoves(run: seq<State>)
    requires IsRun(run) && Stopping(Last(run)) && Last(run).joinLock == None
    ensures GetsThrough(run)
  {
    var longer, s' := Then(run, Advance(0, false));
    assert Joining(s'.threads[0]);
  }

  /** A callback that stops delivery, or unsubscribes, on its own executor gets through the join mutex
      if and only if the mutex is free when it arrives: if not, nothing that anybody does helps. */
  lemma GetsThroughExactly(run: seq<State>)
    requires IsRun(run) && Stopping(Last(run))
    ensures GetsThrough(run) <==> Last(run).joinLock == None
  {
    if Last(run).joinLock == None {
      FreeMoves(run);
    } else if GetsThrough(run) {
      var longer: seq<State> :| run <= longer && IsRun(longer) && |Last(longer).threads| > 0
                                && Last(longer).threads[0] != Last(run).threads[0];
      StuckForGood(run, longer);
      assert false;
    }
  }

  /** Callers can see to it: while no other thread is inside a stop or an unsubscribe of this
      subscriber, the callback gets through. */
  lemma AloneGetsThrough(run: seq<State>)
    requires IsRun(run) && Stopping(Last(run))
    requires forall w | 0 < w < |Last(run).threads| && Last(run).threads[w].On? :: !Last(run).threads[w].top.Control?
    ensures GetsThrough(run)
  {
    if Last(run).joinLock.Some? {
      TakenAt(run, |run| - 1);
      assert false;
    }
    FreeMoves(run);
  }

  // ---------------------------------------------------------------- a run into it

  function AtTheLoop(): Stack {
    On(Executor(Loop), Nil)
  }

  function InTheCallback(): Stack {
    On(Invocation(Running(5)), AtTheLoop())
  }

  function Fresh(): State {
    State(Isolated, 1, false, true, 0, false, 0, Mailbox([], true, false, true), None, None, false,
          [AtTheLoop(), Nil], Metrics(0, 0, 0, 0, 0), History([], [], [], []))
  }

  /** The executor is in the callback with the only event. */
  function InUse(): State {
    Fresh().(inFlight := 1, threads := [InTheCallback(), Nil], metrics := Metrics(1, 0, 0, 0, 0),
             history := History([5], [5], [], [5]))
  }

  lemma ReachInUse() returns (run: seq<State>)
    ensures IsRun(run) && Last(run) == InUse()
  {
    var e;
    var s := Fresh();
    assert Starts(s, 0) && Starts(s, 1);
    run := [s];
    var offered := s.(metrics := Metrics(1, 0, 0, 0, 0));
    var s1 := offered.(threads := [AtTheLoop(), On(Offering(5), Nil)]);
    run, e := Then(run, Offer(1, 5));
    assert e == s1;
    var s2 := offered.(mailbox := Mailbox([5], true, false, true), history := History([5], [], [], []));
    run, e := Then(run, Advance(1, false));
    assert e == s2;
    var taken := offered.(history := History([5], [5], [], []));
    var s3 := taken.(threads := [On(Executor(Taken(5)), AtTheLoop()), Nil]);
    run, e := Then(run, Advance(0, false));
    assert e == s3;
    var s4 := taken.(inFlight := 1, threads := [On(Invocation(Admitted(5)), AtTheLoop()), Nil]);
    run, e := Then(run, Advance(0, false));
    assert e == s4;
    run, e := Then(run, Advance(0, false));
    assert e == InUse();
  }

  /** The callback unsubscribes itself, up to the join mutex. */
  function Unsubscribing(): State {
    InUse().(active := false, retirementStarted := true, retirements := 1, mailbox := Mailbox([], false, true, false),
            threads := [On(Control(JoinLock(Unsubscribed(true))), InTheCallback()), Nil])
  }

  lemma ReachUnsubscribing() returns (run: seq<State>)
    ensures IsRun(run) && Last(run) == Unsubscribing()
  {
    var e;
    run := ReachInUse();
    var s := InUse();
    var s1 := s.(threads := [On(Control(Deactivate), InTheCallback()), Nil]);
    run, e := Then(run, Unsubscribe(0));
    assert e == s1;
    var inactive := s.(active := false, retirementStarted := true);
    var s2 := inactive.(threads := [On(Control(Retire(true)), InTheCallback()), Nil]);
    run, e := Then(run, Advance(0, false));
    assert e == s2;
    var s3 := inactive.(retirements := 1, threads := [On(Control(StopMailbox(false, Unsubscribed(true))), InTheCallback()), Nil]);
    run, e := Then(run, Advance(0, false));
    assert e == s3;
    run, e := Then(run, Advance(0, false));
    assert e == Unsubscribing();
  }

  /** Some run reaches the standoff. */
  lemma StandoffIsReachable() returns (run: seq<State>)
    ensures IsRun(run) && Standoff(Last(run), 1)
  {
    var e;
    run := ReachUnsubscribing();
    var s := Unsubscribing();
    var executor := s.threads[0];
    var s1 := s.(threads := [executor, On(Control(StopMailbox(false, Return)), Nil)]);
    run, e := Then(run, Stop(1, false));
    assert e == s1;
    var s2 := s.(threads := [executor, On(Control(JoinLock(Return)), Nil)]);
    run, e := Then(run, Advance(1, false));
    assert e == s2;
    var s3 := s.(joinLock := Some(1), threads := [executor, On(Control(Join(Return)), Nil)]);
    run, e := Then(run, Advance(1, false));
    assert e == s3;
  }
}
