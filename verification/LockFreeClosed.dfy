/** When the answer "closed" of the lock-free queue means that nothing is left. */
module LockFreeClosed {
  import opened Wrappers
  import opened Tally
  import opened LockFreeQueue
  import opened LockFreeSafety
  import opened LockFreeTheorems
  import opened LockFreeAlone

  // ---------------------------------------------------------------- what others can do in between

  /** Nobody is pushing or closing, another thread is free to do both, and not every slot is in
      somebody's hands. */
  predicate Opportunity(s: State, t: nat, u: nat) {
    && t < |s.threads| && u < |s.threads| && t != u && Resting(s.threads[u])
    && s.producers == Gate(false, 0) && s.lock == None && (s.available != [] || s.published != [])
  }

  /** Thread t stays where it is. */
  ghost predicate Meanwhile(run: seq<State>, longer: seq<State>, t: nat) {
    && run != [] && run <= longer && IsRun(longer) && t < |Last(run).threads|
    && forall m | |run| <= m < |longer| :: At(longer[m], t, Last(run).threads[t])
  }

  lemma AloneMeanwhile(run: seq<State>, longer: seq<State>, u: nat, t: nat)
    requires RunsAlone(run, longer, u) && t < |Last(run).threads| && t != u
    ensures Meanwhile(run, longer, t)
  {
    forall m | |run| <= m < |longer|
      ensures At(longer[m], t, Last(run).threads[t])
    {
      assert Alone(Last(run), longer[m], u);
    }
  }

  /** Behind the back of thread t an event is pushed and the queue is closed. */
  lemma PushAndClose(run: seq<State>, t: nat, u: nat) returns (longer: seq<State>)
    requires IsRun(run) && Opportunity(Last(run), t, u) && Last(run).available != []
    ensures Meanwhile(run, longer, t)
    ensures var s, s' := Last(run), Last(longer);
            && s'.published != [] && s'.quiesced && s'.consumers == s.consumers
            && s'.mostConsumers == s.mostConsumers && s'.capacity == s.capacity
  {
    var r1 := PushAlone(run, u, 7);
    longer := CloseAlone(r1, u);
    AloneOn(run, r1, longer, u);
    AloneMeanwhile(run, longer, u, t);
  }

  /** A closed gate with nobody inside is quiesced by whoever is closing. */
  lemma FinishClosing(run: seq<State>, t: nat) returns (longer: seq<State>)
    requires IsRun(run) && Shut(Last(run).producers) && !Last(run).quiesced
    requires t < |Last(run).threads| && !Last(run).threads[t].Closer?
    ensures Meanwhile(run, longer, t) && Last(longer).published == Last(run).published && Last(longer).quiesced
  {
    RunKeepsInv(run, |run| - 1);
    assert CloserAtWork(Last(run));
    var v := Last(run).lock.value;
    longer := QuiesceAlone(run, v, Last(run).threads[v].k.discard);
    AloneMeanwhile(run, longer, v, t);
  }

  // ---------------------------------------------------------------- at the look at the quiescence flag

  /** Whatever happens, thread t answers "closed" only with nothing left. */
  ghost predicate AlwaysDrained(run: seq<State>, t: nat)
    requires run != []
  {
    forall longer: seq<State> | run <= longer && IsRun(longer) && At(Last(longer), t, Consumer(LeaveConsumer(Closed))) ::
      Last(longer).published == []
  }

  lemma EmptyStays(run: seq<State>, longer: seq<State>)
    requires IsRun(run) && IsRun(longer) && run <= longer && Shut(Last(run).producers) && Last(run).published == []
    ensures Last(longer).published == []
  {
    assert longer[|run| - 1] == Last(run);
    RunEvolves(longer, |run| - 1, |longer| - 1);
  }

  lemma AnswersNow(run: seq<State>, t: nat) returns (longer: seq<State>)
    requires IsRun(run) && At(Last(run), t, Consumer(CheckQuiesced)) && Last(run).quiesced
    ensures run <= longer && IsRun(longer) && At(Last(longer), t, Consumer(LeaveConsumer(Closed)))
    ensures Last(longer) == Last(run).(threads := Last(run).threads[t := Consumer(LeaveConsumer(Closed))])
    ensures longer == run + [Last(longer)]
  {
    var s';
    longer, s' := Then(run, Advance(t, false));
  }

  lemma QuiescedIsShut(run: seq<State>)
    requires IsRun(run) && Last(run).quiesced
    ensures Shut(Last(run).producers)
  {
    RunKeepsInv(run, |run| - 1);
  }

  /** Something is left, or will be. */
  lemma UntrustedCheck(run: seq<State>, t: nat, u: nat) returns (longer: seq<State>)
    requires IsRun(run) && At(Last(run), t, Consumer(CheckQuiesced))
    requires if Shut(Last(run).producers) then Last(run).published != [] else Opportunity(Last(run), t, u) && Last(run).available != []
    ensures Meanwhile(run, longer, t) && Last(longer).published != [] && Last(longer).quiesced
  {
    if Last(run).quiesced {
      QuiescedIsShut(run);
      longer := run;
    } else if Shut(Last(run).producers) {
      longer := FinishClosing(run, t);
    } else {
      longer := PushAndClose(run, t, u);
    }
  }

  /** A pop that is about to look at the quiescence flag can be trusted to answer "closed" only with
      nothing left if and only if the producer gate is closed with nobody inside and the published
      ring is empty, as long as otherwise somebody is free to push and to close in between. */
  lemma TrustedAtTheCheck(run: seq<State>, t: nat, u: nat)
    requires IsRun(run) && At(Last(run), t, Consumer(CheckQuiesced))
    requires Shut(Last(run).producers) || (Opportunity(Last(run), t, u) && Last(run).available != [])
    ensures AlwaysDrained(run, t) <==> Shut(Last(run).producers) && Last(run).published == []
  {
    if Shut(Last(run).producers) && Last(run).published == [] {
      forall longer: seq<State> | run <= longer && IsRun(longer) && At(Last(longer), t, Consumer(LeaveConsumer(Closed)))
        ensures Last(longer).published == []
      {
        EmptyStays(run, longer);
      }
    } else {
      if Last(run).quiesced {
        QuiescedIsShut(run);
      }
      var r1 := UntrustedCheck(run, t, u);
      assert At(Last(r1), t, Consumer(CheckQuiesced));
      var longer := AnswersNow(r1, t);
      assert run <= longer;
      assert !AlwaysDrained(run, t);
    }
  }

  // ---------------------------------------------------------------- a whole call

  /** Thread t calls `try_pop` at i and has the answer "closed" at j. */
  ghost predicate ClosedPop(run: seq<State>, i: nat, j: nat, t: nat) {
    && i + 1 < j < |run|
    && (forall m | i <= m <= j :: t < |run[m].threads|)
    && Resting(run[i].threads[t]) && run[i + 1].threads[t] == GateLoad(Pop)
    && (forall m | i < m < j :: !Resting(run[m].threads[t]))
    && run[j].threads[t] == Done(Closed)
  }

  /** How far such a call has come, with the producers shut out. */
  ghost predicate OnTrail(s: State, l: Local) {
    match l
    case GateLoad(op) => op.Pop?
    case GateSwap(op, _) => op.Pop?
    case Consumer(c) => (c.CheckQuiesced? || c == LeaveConsumer(Closed)) ==> s.published == []
    case Done(outcome) => outcome == Closed ==> s.published == [] || s.consumers.closed
    case _ => false
  }

  lemma OwnTrail(s: State, s': State, t: nat, unlucky: bool)
    requires t < |s.threads| && OnTrail(s, s.threads[t]) && !Resting(s.threads[t]) && Shut(s.producers) && !Crowded(s)
    requires Enabled(s, Advance(t, unlucky)) && s' == Do(s, Advance(t, unlucky))
    requires s.published == [] ==> s'.published == []
    ensures t < |s'.threads| && OnTrail(s', s'.threads[t])
  {
    if s.threads[t].Consumer? {
      assert unlucky ==> MayBeUnlucky(s, s.threads[t]);
      ConsumerTrail(s, s', t, unlucky);
    } else {
      GateTrail(s, s', t, unlucky);
    }
  }

  lemma GateTrail(s: State, s': State, t: nat, unlucky: bool)
    requires t < |s.threads| && (s.threads[t].GateLoad? || s.threads[t].GateSwap?) && s' == DoGate(s, t, unlucky)
    requires OnTrail(s, s.threads[t])
    ensures t < |s'.threads| && OnTrail(s', s'.threads[t])
  {
  }

  lemma ConsumerTrail(s: State, s': State, t: nat, unlucky: bool)
    requires t < |s.threads| && s.threads[t].Consumer? && s' == DoConsumer(s, t, unlucky)
    requires OnTrail(s, s.threads[t]) && (s.published == [] ==> s'.published == [])
    requires s.threads[t] == Consumer(Claim) ==> !unlucky
    ensures t < |s'.threads| && OnTrail(s', s'.threads[t])
  {
    match s.threads[t].c
    case Claim => ClaimTrail(s, s', t);
    case CheckQuiesced => CheckTrail(s, s', t);
    case MoveOut(slot, ticket) => assert s'.threads[t] == Consumer(Destroy(slot, ticket, Contents(s, slot)));
    case Destroy(slot, ticket, event) => assert s'.threads[t] == Consumer(CountDown(slot, ticket, event));
    case CountDown(slot, ticket, event) => assert s'.threads[t] == Consumer(Release(slot, ticket, event));
    case Release(_, ticket, event) => assert s'.threads[t] == Consumer(LeaveConsumer(Popped(event, ticket)));
    case LeaveConsumer(outcome) => assert s'.threads[t] == Done(outcome);
  }

  lemma ClaimTrail(s: State, s': State, t: nat)
    requires At(s, t, Consumer(Claim)) && s' == DoConsumer(s, t, false)
    requires s.published == [] ==> s'.published == []
    ensures t < |s'.threads| && OnTrail(s', s'.threads[t])
  {
  }

  lemma CheckTrail(s: State, s': State, t: nat)
    requires At(s, t, Consumer(CheckQuiesced)) && s' == DoConsumer(s, t, false) && s.published == []
    ensures t < |s'.threads| && OnTrail(s', s'.threads[t])
  {
  }

  lemma NextTrail(s: State, s': State, t: nat)
    requires Inv(s) && Next(s, s') && Evolves(s, s') && Shut(s.producers) && !Crowded(s) && t < |s.threads|
    requires OnTrail(s, s.threads[t]) && !Resting(s.threads[t])
    ensures t < |s'.threads| && OnTrail(s', s'.threads[t])
  {
    var step :| Enabled(s, step) && s' == Do(s, step);
    if step.thread == t {
      OwnTrail(s, s', t, step.unlucky);
    } else {
      OthersStay(s, s', step);
      assert s'.threads[t] == s.threads[t];
    }
  }

  lemma StepAtTrail(run: seq<State>, m: nat, t: nat)
    requires IsRun(run) && m + 1 < |run| && Shut(run[m].producers) && !Crowded(run[m]) && t < |run[m].threads|
    requires OnTrail(run[m], run[m].threads[t]) && !Resting(run[m].threads[t])
    ensures t < |run[m + 1].threads| && OnTrail(run[m + 1], run[m + 1].threads[t])
  {
    RunKeepsInv(run, m);
    RunEvolves(run, m, m + 1);
    assert StepAt(run, m);
    NextTrail(run[m], run[m + 1], t);
  }

  lemma {:induction false} RunTrail(run: seq<State>, i: nat, m: nat, j: nat, t: nat)
    requires IsRun(run) && ClosedPop(run, i, j, t) && FewConsumers(run, j) && Shut(run[i].producers) && i < m <= j
    ensures OnTrail(run[m], run[m].threads[t])
  {
    if m == i + 1 {
    } else {
      RunTrail(run, i, m - 1, j, t);
      RunEvolves(run, i, m - 1);
      FewExactly(run, m - 1);
      StepAtTrail(run, m - 1, t);
    }
  }

  /** If never more than 2n consumers were inside at once, a pop that begins with the producer gate
      closed and nobody in it, as it is after a `close` has returned, and that answers "closed",
      leaves nothing behind, or the rest is being discarded. */
  lemma ClosedAfterClose(run: seq<State>, i: nat, j: nat, t: nat)
    requires IsRun(run) && ClosedPop(run, i, j, t) && FewConsumers(run, j) && (run[i].quiesced || Shut(run[i].producers))
    ensures run[j].published == [] || run[j].consumers.closed
  {
    RunKeepsInv(run, i);
    RunTrail(run, i, j, j, t);
  }

  /** Whatever happens with at most 2n consumers inside at once, a pop called now by thread t answers
      "closed" only with nothing left, or with the rest being discarded. */
  ghost predicate PopIsTrusted(run: seq<State>, t: nat)
    requires run != []
  {
    forall longer: seq<State> | run <= longer && IsRun(longer) && ClosedPop(longer, |run| - 1, |longer| - 1, t)
                                && FewConsumers(longer, |longer| - 1) ::
      Last(longer).published == [] || Last(longer).consumers.closed
  }

  // ---------------------------------------------------------------- a call that cannot be trusted

  /** Thread t claims on the empty ring. */
  lemma ClaimOnEmpty(run: seq<State>, t: nat) returns (longer: seq<State>)
    requires IsRun(run) && At(Last(run), t, GateLoad(Pop)) && !Last(run).consumers.closed && Last(run).published == []
    ensures RunsAlone(run, longer, t) && forall m | |run| <= m < |longer| :: AtPop(longer[m], t)
    ensures var s, inside := Last(run), Last(run).consumers.active + 1;
            Last(longer) == s.(threads := s.threads[t := Consumer(CheckQuiesced)], consumers := Gate(false, inside),
                               mostConsumers := Most(s.mostConsumers, inside))
  {
    var r1 := EnterConsumer(run, t);
    var s1 := Last(r1);
    var s2;
    longer, s2 := Then(r1, Advance(t, false));
    assert s2 == Goto(s1, t, Consumer(CheckQuiesced));
    ThenAlone(r1, t, longer, s2);
    AloneOn(run, r1, longer, t);
  }

  /** Thread t calls, and another thread takes what there is before it enters. */
  lemma CallAndDrain(run: seq<State>, t: nat, u: nat) returns (longer: seq<State>)
    requires IsRun(run) && Opportunity(Last(run), t, u) && Resting(Last(run).threads[t]) && !Last(run).consumers.closed
    ensures run <= longer && IsRun(longer) && |longer| > |run| && Opportunity(Last(longer), t, u)
    ensures forall m | |run| <= m < |longer| :: At(longer[m], t, GateLoad(Pop))
    ensures AroundPop(Last(run), Last(longer)) && Last(longer).published == [] && Last(longer).available != []
  {
    var r1, s1 := Then(run, StartPop(t));
    longer := DrainAlone(r1, u);
    AloneMeanwhile(r1, longer, u, t);
    forall m | |run| <= m < |longer|
      ensures At(longer[m], t, GateLoad(Pop))
    {
      if m < |r1| {
        assert longer[m] == r1[m];
      }
    }
    assert Alone(s1, Last(longer), u) || longer == r1;
  }

  /** It enters and claims on the empty ring, and an event is pushed and the queue closed. */
  lemma ClaimThenClose(run: seq<State>, t: nat, u: nat) returns (longer: seq<State>)
    requires IsRun(run) && Opportunity(Last(run), t, u) && At(Last(run), t, GateLoad(Pop))
    requires !Last(run).consumers.closed && Last(run).published == []
    ensures run <= longer && IsRun(longer) && At(Last(longer), t, Consumer(CheckQuiesced))
    ensures forall m | |run| <= m < |longer| :: AtPop(longer[m], t)
    ensures var s, s' := Last(run), Last(longer);
            && s'.published != [] && s'.quiesced && !s'.consumers.closed && s'.capacity == s.capacity
            && s'.mostConsumers == Most(s.mostConsumers, s.consumers.active + 1)
  {
    var r1 := ClaimOnEmpty(run, t);
    longer := PushAndClose(r1, t, u);
    forall m | |run| <= m < |longer|
      ensures AtPop(longer[m], t)
    {
      if m < |r1| {
        assert longer[m] == r1[m];
      } else {
        assert At(longer[m], t, Last(r1).threads[t]);
      }
    }
    assert At(Last(longer), t, Consumer(CheckQuiesced));
  }

  lemma AnswersClosed(run: seq<State>, t: nat) returns (longer: seq<State>)
    requires IsRun(run) && At(Last(run), t, Consumer(CheckQuiesced)) && Last(run).quiesced
    ensures run <= longer && IsRun(longer) && |longer| == |run| + 2
    ensures AtPop(longer[|run|], t) && At(Last(longer), t, Done(Closed))
    ensures var s, s' := Last(run), Last(longer);
            && s'.published == s.published && s'.consumers.closed == s.consumers.closed && s'.available == s.available
            && s'.mostConsumers == s.mostConsumers && s'.capacity == s.capacity
            && s'.quiesced && s'.producers == s.producers && s'.lock == s.lock && Alone(s, s', t)
  {
    var r1 := AnswersNow(run, t);
    var r2, s2 := Then(r1, Advance(t, false));
    longer := r2;
  }

  /** Before the producers are shut out, and with an opportunity, a call of thread t may answer
      "closed" with an event left that nobody discards. */
  lemma UntrustedCall(run: seq<State>, t: nat, u: nat) returns (longer: seq<State>)
    requires IsRun(run) && Opportunity(Last(run), t, u) && Resting(Last(run).threads[t]) && !Last(run).consumers.closed
    ensures run <= longer && IsRun(longer) && ClosedPop(longer, |run| - 1, |longer| - 1, t)
    ensures var s, s' := Last(run), Last(longer);
            && s'.published != [] && !s'.consumers.closed && s'.capacity == s.capacity
            && s'.mostConsumers <= Most(s.mostConsumers, s.consumers.active + 1)
  {
    var r1 := CallAndDrain(run, t, u);
    var r2 := ClaimThenClose(r1, t, u);
    longer := AnswersClosed(r2, t);
    CallSpans(run, r1, r2, longer, t);
  }

  /** The pieces make one call. */
  lemma CallSpans(run: seq<State>, r1: seq<State>, r2: seq<State>, longer: seq<State>, t: nat)
    requires run != [] && t < |Last(run).threads| && Resting(Last(run).threads[t])
    requires run <= r1 <= r2 <= longer && |run| < |r1| && |longer| == |r2| + 2
    requires forall m | |run| <= m < |r1| :: At(r1[m], t, GateLoad(Pop))
    requires forall m | |r1| <= m < |r2| :: AtPop(r2[m], t)
    requires AtPop(longer[|r2|], t) && At(Last(longer), t, Done(Closed))
    ensures ClosedPop(longer, |run| - 1, |longer| - 1, t)
  {
    forall m | |run| <= m < |longer| - 1
      ensures AtPop(longer[m], t)
    {
      if m < |r1| {
        assert longer[m] == r1[m];
      } else if m < |r2| {
        assert longer[m] == r2[m];
      }
    }
    assert longer[|run|] == r1[|run|] && longer[|run| - 1] == Last(run);
  }

  lemma UntrustedAmongFew(run: seq<State>, t: nat, u: nat) returns (longer: seq<State>)
    requires IsRun(run) && FewConsumers(run, |run| - 1) && t < |Last(run).threads| && Resting(Last(run).threads[t])
    requires Opportunity(Last(run), t, u) && Last(run).consumers.active < 2 * Last(run).capacity
    ensures run <= longer && IsRun(longer) && ClosedPop(longer, |run| - 1, |longer| - 1, t) && FewConsumers(longer, |longer| - 1)
    ensures Last(longer).published != [] && !Last(longer).consumers.closed
  {
    OpenUntilShut(run);
    longer := UntrustedCall(run, t, u);
    StillFew(run, longer);
  }

  lemma OpenUntilShut(run: seq<State>)
    requires IsRun(run) && !Shut(Last(run).producers)
    ensures !Last(run).consumers.closed
  {
    RunKeepsInv(run, |run| - 1);
  }

  lemma StillFew(run: seq<State>, longer: seq<State>)
    requires IsRun(run) && IsRun(longer) && FewConsumers(run, |run| - 1) && Last(longer).capacity == Last(run).capacity
    requires Last(run).consumers.active < 2 * Last(run).capacity
    requires Last(longer).mostConsumers <= Most(Last(run).mostConsumers, Last(run).consumers.active + 1)
    ensures FewConsumers(longer, |longer| - 1)
  {
    FewExactly(run, |run| - 1);
    FewExactly(longer, |longer| - 1);
  }

  /** As long as never more than 2n consumers are inside at once, a caller can trust the answer
      "closed" of a pop exactly if the call begins with the producer gate closed and nobody in it, as
      after a `close` has returned: then nothing is left, or it is being discarded.  Otherwise, if
      somebody else is free to pop, to push and to close, the answer may come with an event left. */
  lemma PopIsTrustedExactly(run: seq<State>, t: nat, u: nat)
    requires IsRun(run) && FewConsumers(run, |run| - 1) && t < |Last(run).threads| && Resting(Last(run).threads[t])
    requires Shut(Last(run).producers) || (Opportunity(Last(run), t, u) && Last(run).consumers.active < 2 * Last(run).capacity)
    ensures PopIsTrusted(run, t) <==> Shut(Last(run).producers)
  {
    if Shut(Last(run).producers) {
      forall longer: seq<State> | run <= longer && IsRun(longer) && ClosedPop(longer, |run| - 1, |longer| - 1, t)
                                  && FewConsumers(longer, |longer| - 1)
        ensures Last(longer).published == [] || Last(longer).consumers.closed
      {
        assert longer[|run| - 1] == Last(run);
        ClosedAfterClose(longer, |run| - 1, |longer| - 1, t);
      }
    } else {
      var longer := UntrustedAmongFew(run, t, u);
      assert !PopIsTrusted(run, t);
    }
  }

  // ---------------------------------------------------------------- a run with an event left

  function NewQueue(n: nat, threads: nat): State {
    State(n, Count(n), [], seq(n, _ => None), 0, Gate(false, 0), Gate(false, 0), false, None,
          seq(threads, _ => Idle), [], [], 0, 0, 0, 0, 0, false, false)
  }

  /** In general "closed" does not mean drained: some run of a queue of two slots, with two threads,
      ends with a pop that answers "closed" while an accepted event is neither popped nor discarded,
      and no discard is under way. */
  lemma ClosedWithAnEventLeft() returns (run: seq<State>)
    ensures IsRun(run)
    ensures var s := Last(run);
            && |s.threads| > 0 && s.threads[0] == Done(Closed) && !s.consumers.closed
            && s.published != [] && s.pops + s.discards < |s.accepted|
  {
    var s := NewQueue(2, 2);
    assert s.available == [0, 1];
    run := UntrustedCall([s], 0, 1);
    RunKeepsInv(run, |run| - 1);
  }
}
