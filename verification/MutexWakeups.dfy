/** No wake-up of the mutex queue is lost, over every interleaving, and every interleaving is a
    sequence of calls on one bounded queue. */
module MutexWakeups {
  import opened BoundedFifo
  import opened MutexWaiting

  // ---------------------------------------------------------------- counting threads

  datatype Kind = ParkedC | AwakeC | ParkedP | AwakeP | PendingC | PendingP | AllC | AllP | Other

  function KindOf(l: Local): Kind {
    match l
    case Idle => Other
    case ConsumerParked => ParkedC
    case ConsumerAwake => AwakeC
    case ProducerParked(_) => ParkedP
    case ProducerAwake(_) => AwakeP
    case NotifyNotEmpty => PendingC
    case NotifyNotFull => PendingP
    case NotifyAllNotEmpty => AllC
    case NotifyAllNotFull => AllP
  }

  function One(l: Local, k: Kind): nat {
    if KindOf(l) == k then 1 else 0
  }

  /** The number of threads of a kind. */
  function Number(threads: seq<Local>, k: Kind): nat {
    if threads == [] then 0 else One(threads[0], k) + Number(threads[1..], k)
  }

  lemma {:induction false} NumberUpdate(threads: seq<Local>, t: nat, l: Local, k: Kind)
    requires t < |threads|
    ensures Number(threads[t := l], k) + One(threads[t], k) == Number(threads, k) + One(l, k)
  {
    var updated := threads[t := l];
    if t == 0 {
      assert updated[1..] == threads[1..];
    } else {
      assert updated[1..] == threads[1..][t - 1 := l];
      NumberUpdate(threads[1..], t - 1, l, k);
    }
  }

  lemma {:induction false} NumberCovers(threads: seq<Local>, t: nat)
    requires t < |threads|
    ensures Number(threads, KindOf(threads[t])) > 0
  {
    if t == 0 {
    } else {
      NumberCovers(threads[1..], t - 1);
    }
  }

  lemma {:induction false} NumberFinds(threads: seq<Local>, k: Kind) returns (t: nat)
    requires Number(threads, k) > 0
    ensures t < |threads| && KindOf(threads[t]) == k
  {
    if KindOf(threads[0]) == k {
      t := 0;
    } else {
      var u := NumberFinds(threads[1..], k);
      t := u + 1;
    }
  }

  lemma {:induction false} NumberZero(threads: seq<Local>, k: Kind)
    requires forall t | 0 <= t < |threads| :: KindOf(threads[t]) != k
    ensures Number(threads, k) == 0
  {
    if threads == [] {
    } else {
      NumberZero(threads[1..], k);
    }
  }

  function ParkedKind(notification: Local): Kind {
    if notification.NotifyNotEmpty? || notification.NotifyAllNotEmpty? then ParkedC else ParkedP
  }

  function AwakeKind(notification: Local): Kind {
    if notification.NotifyNotEmpty? || notification.NotifyAllNotEmpty? then AwakeC else AwakeP
  }

  lemma {:induction false} WakeAllCounts(threads: seq<Local>, n: Local, k: Kind)
    requires n.NotifyAllNotEmpty? || n.NotifyAllNotFull?
    ensures Number(WakeAll(threads, n), k) ==
            if k == ParkedKind(n) then 0
            else if k == AwakeKind(n) then Number(threads, k) + Number(threads, ParkedKind(n))
            else Number(threads, k)
  {
    if threads == [] {
    } else {
      var woken := WakeAll(threads, n);
      assert woken[1..] == WakeAll(threads[1..], n);
      WakeAllCounts(threads[1..], n, k);
    }
  }

  lemma {:induction false} WakeAllAt(threads: seq<Local>, n: Local, t: nat)
    requires t < |threads|
    ensures WakeAll(threads, n)[t] == if Hears(n, threads[t]) then Woken(threads[t]) else threads[t]
  {
    if t == 0 {
    } else {
      WakeAllAt(threads[1..], n, t - 1);
    }
  }

  // ---------------------------------------------------------------- the invariant

  /** While a consumer is parked, the notifications to come and the consumers already woken are
      enough for the events in the queue; if it is closed, everybody will be woken. */
  ghost predicate ConsumersServed(s: State) {
    Number(s.threads, ParkedC) > 0 ==>
      && Number(s.threads, PendingC) + Number(s.threads, AwakeC) >= |s.q.events|
      && (s.q.closed ==> Number(s.threads, AllC) > 0)
  }

  /** While a producer is parked and the queue is open, the notifications to come and the producers
      already woken, with the wake-ups that throwing copies absorbed, are enough for the free slots. */
  ghost predicate ProducersServed(s: State) {
    Number(s.threads, ParkedP) > 0 ==>
      && (!s.q.closed ==>
            Number(s.threads, PendingP) + Number(s.threads, AwakeP) + s.absorbed + |s.q.events| >= s.q.capacity)
      && (s.q.closed ==> Number(s.threads, AllC) + Number(s.threads, AllP) > 0)
  }

  /** The queue is the outcome of the calls completed so far. */
  ghost predicate Recorded(s: State) {
    && s.q == Run(Fifo(s.q.capacity, [], false), s.calls)
    && s.replies == Replies(Fifo(s.q.capacity, [], false), s.calls)
  }

  ghost predicate Inv(s: State) {
    && s.q.capacity > 0 && |s.q.events| <= s.q.capacity
    && ConsumersServed(s)
    && ProducersServed(s)
    && Recorded(s)
  }

  ghost predicate Served(s: State) {
    s.q.capacity > 0 && |s.q.events| <= s.q.capacity && ConsumersServed(s) && ProducersServed(s)
  }

  /** Every kind is counted as the thread t moves. */
  ghost predicate Moved(threads: seq<Local>, threads': seq<Local>, l: Local, l': Local) {
    forall k :: Number(threads', k) + One(l, k) == Number(threads, k) + One(l', k)
  }

  lemma Moves(threads: seq<Local>, t: nat, l': Local)
    requires t < |threads|
    ensures Moved(threads, threads[t := l'], threads[t], l')
    ensures Number(threads, KindOf(threads[t])) > 0
  {
    forall k ensures Number(threads[t := l'], k) + One(threads[t], k) == Number(threads, k) + One(l', k) {
      NumberUpdate(threads, t, l', k);
    }
    NumberCovers(threads, t);
  }

  lemma PushServes(s: State, s': State, t: nat, event: Event, throws: bool)
    requires Served(s) && t < |s.threads| && s' == DoPush(s, t, event, throws)
    requires s.threads[t].Idle? || s.threads[t] == ProducerAwake(event)
    ensures Served(s')
  {
    if PushReply(s.q, throws) == Success {
      AcceptedServes(s, s', t, event, throws);
    } else {
      RefusedServes(s, s', t, event, throws);
    }
  }

  lemma AcceptedServes(s: State, s': State, t: nat, event: Event, throws: bool)
    requires Served(s) && t < |s.threads| && s' == DoPush(s, t, event, throws) && PushReply(s.q, throws) == Success
    requires s.threads[t].Idle? || s.threads[t] == ProducerAwake(event)
    ensures Served(s')
  {
    Moves(s.threads, t, NotifyNotEmpty);
  }

  lemma RefusedServes(s: State, s': State, t: nat, event: Event, throws: bool)
    requires Served(s) && t < |s.threads| && s' == DoPush(s, t, event, throws) && PushReply(s.q, throws) != Success
    requires s.threads[t].Idle? || s.threads[t] == ProducerAwake(event)
    ensures Served(s')
  {
    Moves(s.threads, t, Idle);
  }

  lemma PopServes(s: State, s': State, t: nat)
    requires Served(s) && t < |s.threads| && s' == DoPop(s, t)
    requires s.threads[t].Idle? || s.threads[t].ConsumerAwake?
    ensures Served(s')
  {
    Moves(s.threads, t, s'.threads[t]);
  }

  lemma ParkServes(s: State, s': State, t: nat, l: Local)
    requires Served(s) && t < |s.threads| && s' == Goto(s, t, l) && !s.q.closed
    requires s.threads[t].Idle? || (s.threads[t].ConsumerAwake? && s.q.events == [])
             || (s.threads[t].ProducerAwake? && |s.q.events| == s.q.capacity)
    requires l.Idle? || (l.ConsumerParked? && s.q.events == []) || (l.ProducerParked? && |s.q.events| == s.q.capacity)
    ensures Served(s')
  {
    Moves(s.threads, t, l);
  }

  lemma CloseServes(s: State, s': State, t: nat, discard: bool)
    requires Served(s) && t < |s.threads| && s.threads[t].Idle?
    requires s' == Complete(s, t, if discard then Discard else Close, NotifyAllNotEmpty)
    ensures Served(s')
  {
    Moves(s.threads, t, NotifyAllNotEmpty);
  }

  lemma WakeServes(s: State, s': State, t: nat)
    requires Served(s) && t < |s.threads| && Parked(s.threads[t]) && s' == Goto(s, t, Woken(s.threads[t]))
    ensures Served(s')
  {
    Moves(s.threads, t, Woken(s.threads[t]));
  }

  lemma NotifyMoves(s: State, s': State, t: nat, other: nat)
    requires t < |s.threads| && other < |s.threads| && Hears(s.threads[t], s.threads[other])
    requires s' == DoNotify(s, t, other)
    ensures forall k :: Number(s'.threads, k) + One(s.threads[t], k) + One(s.threads[other], k)
                     == Number(s.threads, k) + One(Idle, k) + One(Woken(s.threads[other]), k)
  {
    var middle := s.threads[other := Woken(s.threads[other])];
    Moves(s.threads, other, Woken(s.threads[other]));
    Moves(middle, t, Idle);
  }

  lemma NotifyServes(s: State, s': State, t: nat, other: nat)
    requires Served(s) && Enabled(s, NotifyOne(t, other)) && s' == DoNotify(s, t, other)
    ensures Served(s')
  {
    if other < |s.threads| && Hears(s.threads[t], s.threads[other]) {
      NotifyMoves(s, s', t, other);
      if s.threads[t].NotifyNotEmpty? {
        NotifyHeardByConsumer(s, s', t, other);
      } else {
        NotifyHeardByProducer(s, s', t, other);
      }
    } else {
      NotifyUnheard(s, s', t);
    }
  }

  lemma NotifyHeardByConsumer(s: State, s': State, t: nat, other: nat)
    requires Served(s) && t < |s.threads| && other < |s.threads|
    requires s.threads[t].NotifyNotEmpty? && s.threads[other].ConsumerParked?
    requires forall k :: Number(s'.threads, k) + One(s.threads[t], k) + One(s.threads[other], k)
                      == Number(s.threads, k) + One(Idle, k) + One(Woken(s.threads[other]), k)
    requires s'.q == s.q && s'.absorbed == s.absorbed
    ensures Served(s')
  {
    NumberCovers(s.threads, other);
  }

  lemma NotifyHeardByProducer(s: State, s': State, t: nat, other: nat)
    requires Served(s) && t < |s.threads| && other < |s.threads|
    requires s.threads[t].NotifyNotFull? && s.threads[other].ProducerParked?
    requires forall k :: Number(s'.threads, k) + One(s.threads[t], k) + One(s.threads[other], k)
                      == Number(s.threads, k) + One(Idle, k) + One(Woken(s.threads[other]), k)
    requires s'.q == s.q && s'.absorbed == s.absorbed
    ensures Served(s')
  {
    NumberCovers(s.threads, other);
  }

  lemma NotifyUnheard(s: State, s': State, t: nat)
    requires Served(s) && t < |s.threads| && (s.threads[t].NotifyNotEmpty? || s.threads[t].NotifyNotFull?)
    requires NobodyHears(s.threads, s.threads[t]) && s' == Goto(s, t, Idle)
    ensures Served(s')
  {
    Moves(s.threads, t, Idle);
    NumberZero(s.threads, ParkedKind(s.threads[t]));
  }

  lemma NotifyAllMoves(s: State, s': State, t: nat, k: Kind)
    requires Enabled(s, NotifyAll(t)) && s' == DoNotifyAll(s, t)
    ensures var n := s.threads[t];
            Number(s'.threads, k) + One(n, k) == One(s'.threads[t], k) + (
              if k == ParkedKind(n) then 0
              else if k == AwakeKind(n) then Number(s.threads, k) + Number(s.threads, ParkedKind(n))
              else Number(s.threads, k))
  {
    var n := s.threads[t];
    WakeAllAt(s.threads, n, t);
    NumberUpdate(WakeAll(s.threads, n), t, s'.threads[t], k);
    WakeAllCounts(s.threads, n, k);
  }

  lemma NotifyAllServes(s: State, s': State, t: nat)
    requires Served(s) && Enabled(s, NotifyAll(t)) && s' == DoNotifyAll(s, t)
    ensures Served(s')
  {
    NotifyAllMoves(s, s', t, ParkedC);
    NotifyAllMoves(s, s', t, ParkedP);
    NotifyAllMoves(s, s', t, AwakeC);
    NotifyAllMoves(s, s', t, AwakeP);
    NotifyAllMoves(s, s', t, PendingC);
    NotifyAllMoves(s, s', t, PendingP);
    NotifyAllMoves(s, s', t, AllC);
    NotifyAllMoves(s, s', t, AllP);
    NumberCovers(s.threads, t);
  }

  lemma StepServes(s: State, s': State, step: Step)
    requires Served(s) && Enabled(s, step) && s' == Do(s, step)
    ensures Served(s')
  {
    match step
    case TryPush(t, event, throws) => PushServes(s, s', t, event, throws);
    case TryPop(t) => PopServes(s, s', t);
    case WaitPush(t, event, throws, expired) =>
      if s.q.closed || |s.q.events| != s.q.capacity {
        PushServes(s, s', t, event, throws);
      } else {
        ParkServes(s, s', t, if expired then Idle else ProducerParked(event));
      }
    case WaitPop(t, expired) =>
      if s.q.closed || s.q.events != [] {
        PopServes(s, s', t);
      } else {
        ParkServes(s, s', t, if expired then Idle else ConsumerParked);
      }
    case CloseQueue(t, discard) => CloseServes(s, s', t, discard);
    case NotifyOne(t, other) => NotifyServes(s, s', t, other);
    case NotifyAll(t) => NotifyAllServes(s, s', t);
    case Wake(t) => WakeServes(s, s', t);
  }

  // ---------------------------------------------------------------- the record

  /** The step completes a call, or none. */
  ghost predicate Completes(s: State, s': State, call: Call<Event>) {
    s'.q == After(s.q, call) && s'.calls == s.calls + [call] && s'.replies == s.replies + [Answer(s.q, call)]
  }

  ghost predicate CompletesNone(s: State, s': State) {
    s'.q == s.q && s'.calls == s.calls && s'.replies == s.replies
  }

  lemma StepCompletes(s: State, s': State, step: Step) returns (call: Call<Event>)
    requires Enabled(s, step) && s' == Do(s, step)
    ensures CompletesNone(s, s') || Completes(s, s', call)
  {
    match step
    case TryPush(_, event, throws) => call := Push(event, throws);
    case TryPop(_) => call := Pop;
    case WaitPush(_, event, throws, _) => call := Push(event, throws);
    case WaitPop(_, _) => call := Pop;
    case CloseQueue(_, discard) => call := if discard then Discard else Close;
    case NotifyOne(_, _) => call := Pop;
    case NotifyAll(_) => call := Pop;
    case Wake(_) => call := Pop;
  }

  lemma CallRecorded(s: State, s': State, call: Call<Event>)
    requires Recorded(s) && (CompletesNone(s, s') || Completes(s, s', call))
    ensures Recorded(s')
  {
    RunSnoc(Fifo(s.q.capacity, [], false), s.calls, call);
  }

  lemma StepKeepsInv(s: State, s': State, step: Step)
    requires Inv(s) && Enabled(s, step) && s' == Do(s, step)
    ensures Inv(s')
  {
    StepServes(s, s', step);
    var call := StepCompletes(s, s', step);
    CallRecorded(s, s', call);
  }

  lemma InitInv(s: State)
    requires Init(s)
    ensures Inv(s)
  {
    NumberZero(s.threads, ParkedC);
    NumberZero(s.threads, ParkedP);
  }

  lemma StepAtKeepsInv(run: seq<State>, i: nat)
    requires IsRun(run) && 0 < i < |run| && Inv(run[i - 1])
    ensures Inv(run[i])
  {
    assert StepAt(run, i - 1);
    var step :| Enabled(run[i - 1], step) && run[i] == Do(run[i - 1], step);
    StepKeepsInv(run[i - 1], run[i], step);
  }

  lemma {:induction false} RunKeepsInv(run: seq<State>, i: nat)
    requires IsRun(run) && i < |run|
    ensures Inv(run[i])
  {
    if i == 0 {
      InitInv(run[i]);
    } else {
      RunKeepsInv(run, i - 1);
      StepAtKeepsInv(run, i);
    }
  }

  // ---------------------------------------------------------------- the theorems

  ghost predicate SomeThread(threads: seq<Local>, k: Kind) {
    exists t :: 0 <= t < |threads| && KindOf(threads[t]) == k
  }

  lemma SomeThreadCounts(threads: seq<Local>, k: Kind)
    ensures SomeThread(threads, k) <==> Number(threads, k) > 0
  {
    if Number(threads, k) > 0 {
      var t := NumberFinds(threads, k);
    }
    if t :| 0 <= t < |threads| && KindOf(threads[t]) == k {
      NumberCovers(threads, t);
    }
  }

  /** No wake-up is lost: while a consumer is parked, the notifications to come and the consumers
      already woken are at least as many as the events; while a producer is parked in an open queue,
      they are at least as many as the free slots, but for wake-ups absorbed by copies that threw. */
  lemma NoLostWakeup(run: seq<State>, i: nat)
    requires IsRun(run) && i < |run|
    ensures var s := run[i];
            && (SomeThread(s.threads, ParkedC) ==>
                  Number(s.threads, PendingC) + Number(s.threads, AwakeC) >= |s.q.events|)
            && (SomeThread(s.threads, ParkedP) && !s.q.closed ==>
                  Number(s.threads, PendingP) + Number(s.threads, AwakeP) + s.absorbed >= s.q.capacity - |s.q.events|)
            && (SomeThread(s.threads, ParkedC) && s.q.closed ==> SomeThread(s.threads, AllC))
            && (SomeThread(s.threads, ParkedP) && s.q.closed ==> SomeThread(s.threads, AllC) || SomeThread(s.threads, AllP))
  {
    RunKeepsInv(run, i);
    var s := run[i];
    SomeThreadCounts(s.threads, ParkedC);
    SomeThreadCounts(s.threads, ParkedP);
    SomeThreadCounts(s.threads, AllC);
    SomeThreadCounts(s.threads, AllP);
  }

  /** When nobody is about to act, a parked consumer has nothing to pop, and a parked producer has
      no room if no copy threw; the queue is open, and they are not parked together. */
  lemma QuietMeansStuckForAReason(run: seq<State>, i: nat)
    requires IsRun(run) && i < |run|
    requires forall t | 0 <= t < |run[i].threads| :: run[i].threads[t].Idle? || Parked(run[i].threads[t])
    ensures var s := run[i];
            && (SomeThread(s.threads, ParkedC) ==> s.q.events == [] && !s.q.closed)
            && (SomeThread(s.threads, ParkedP) ==> !s.q.closed)
            && (SomeThread(s.threads, ParkedP) && s.absorbed == 0 ==>
                  |s.q.events| == s.q.capacity && !SomeThread(s.threads, ParkedC))
  {
    RunKeepsInv(run, i);
    NoLostWakeup(run, i);
    var s := run[i];
    NumberZero(s.threads, PendingC);
    NumberZero(s.threads, PendingP);
    NumberZero(s.threads, AwakeC);
    NumberZero(s.threads, AwakeP);
  }

  /** Over every interleaving, what was accepted is what was popped, then what was discarded, then
      what is queued. */
  lemma ConcurrentCallsAreFifo(run: seq<State>, i: nat) returns (discarded: seq<Event>)
    requires IsRun(run) && i < |run|
    ensures var s := run[i];
            && Accepted(Fifo(s.q.capacity, [], false), s.calls) == Delivered(s.replies) + discarded + s.q.events
            && |discarded| == DiscardedCount(s.replies)
  {
    RunKeepsInv(run, i);
    var s := run[i];
    discarded := AcceptedLeaveInOrder(Fifo(s.q.capacity, [], false), s.calls);
  }

  // ---------------------------------------------------------------- an absorbed wake-up

  lemma Then(run: seq<State>, step: Step) returns (longer: seq<State>, s': State)
    requires IsRun(run) && Enabled(run[|run| - 1], step)
    ensures IsRun(longer) && longer == run + [s'] && s' == Do(run[|run| - 1], step)
  {
    var s := run[|run| - 1];
    s' := Do(s, step);
    longer := run + [s'];
    forall i: nat | i + 1 < |longer|
      ensures StepAt(longer, i)
    {
      if i + 1 < |run| {
        assert StepAt(run, i);
      } else {
        assert Next(s, longer[i + 1]);
      }
    }
  }

  /** Two producers wait at a full queue of one. */
  lemma TwoParked() returns (run: seq<State>)
    ensures IsRun(run)
    ensures run[|run| - 1] ==
            State(Fifo(1, [5], false), [Idle, ProducerParked(6), ProducerParked(7)], 0, [Push(5, false)], [Success])
  {
    var e;
    var s0 := State(Fifo(1, [], false), [Idle, Idle, Idle], 0, [], []);
    run := [s0];
    var full := State(Fifo(1, [5], false), [Idle, Idle, Idle], 0, [Push(5, false)], [Success]);
    var s1 := full.(threads := [NotifyNotEmpty, Idle, Idle]);
    run, e := Then(run, TryPush(0, 5, false));
    assert e == s1;
    run, e := Then(run, NotifyOne(0, 0));
    assert e == full;
    var s3 := full.(threads := [Idle, ProducerParked(6), Idle]);
    run, e := Then(run, WaitPush(1, 6, true, false));
    assert e == s3;
    run, e := Then(run, WaitPush(2, 7, false, false));
    assert e == s3.(threads := [Idle, ProducerParked(6), ProducerParked(7)]);
  }

  /** Without the absorbed wake-ups the claim for producers is false: a copy that throws in a woken
      producer leaves another parked at an empty, open queue, with nobody to wake it. */
  lemma ThrowingCopyAbsorbsWakeup() returns (run: seq<State>)
    ensures IsRun(run)
    ensures var s := run[|run| - 1];
            && SomeThread(s.threads, ParkedP) && !s.q.closed && |s.q.events| < s.q.capacity
            && (forall t | 0 <= t < |s.threads| :: s.threads[t].Idle? || Parked(s.threads[t]))
  {
    var e;
    run := TwoParked();
    var s := run[|run| - 1];
    var popped := s.(q := Fifo(1, [], false), calls := [Push(5, false), Pop], replies := [Success, Popped(5)]);
    var s1 := popped.(threads := [NotifyNotFull, ProducerParked(6), ProducerParked(7)]);
    run, e := Then(run, TryPop(0));
    assert e == s1;
    var s2 := popped.(threads := [Idle, ProducerAwake(6), ProducerParked(7)]);
    run, e := Then(run, NotifyOne(0, 1));
    assert e == s2;
    var s3 := State(Fifo(1, [], false), [Idle, Idle, ProducerParked(7)], 1,
                    [Push(5, false), Pop, Push(6, true)], [Success, Popped(5), Threw]);
    run, e := Then(run, WaitPush(1, 6, true, false));
    assert e == s3;
    assert KindOf(s3.threads[2]) == ParkedP;
  }
}
