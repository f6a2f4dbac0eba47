/** What every step of the dispatcher keeps. */
module DispatcherSafety {
  import opened Wrappers
  import opened Tally
  import opened BoundedFifo
  import opened Dispatcher

  // ---------------------------------------------------------------- what a thread has in hand

  /** A push that succeeded and has not been counted. */
  function ToCount(l: Local): nat {
    if l == Producer(CountResult(Success)) then 1 else 0
  }

  /** Events taken from the queue and not yet offered to the whole snapshot. */
  function InBatch(l: Local): nat {
    if !l.Worker? then 0
    else match l.w
         case WaitPop => 0
         case Filling(batch) => |batch|
         case Broadcasting(batch, _, at, _) => if at <= |batch| then |batch| - at else 0
         case Exited => 0
  }

  /** Events discarded and not yet counted as dropped. */
  function ToDrop(l: Local): nat {
    if l.Closer? && l.c.AddDropped? then l.c.count else 0
  }

  predicate IsLeading(c: CloserPoint) {
    c.CloseEvents? || c.AddDropped? || c.JoinWorkers? || c.SetStopped?
  }

  /** The caller that carries out the shutdown. */
  function Leading(l: Local): nat {
    if l.Closer? && IsLeading(l.c) then 1 else 0
  }

  predicate IsStopping(l: Lifecycle) {
    l.DrainStopping? || l.DiscardStopping?
  }

  // ---------------------------------------------------------------- the invariant

  ghost predicate Counted(s: State) {
    && |s.trace.enqueued| == s.metrics.accepted + Sum(ToCount, s.threads)
    && |s.trace.taken| == s.trace.broadcast + Sum(InBatch, s.threads)
    && |s.trace.discarded| == s.metrics.dropped + Sum(ToDrop, s.threads)
    && Sum(Leading, s.threads) == (if IsStopping(s.lifecycle) then 1 else 0)
  }

  ghost predicate FlowSound(s: State) {
    && s.trace.enqueued == s.trace.taken + s.trace.discarded + s.q.events
    && (!s.q.closed || s.lifecycle != Running)
    && (s.trace.discarded != [] ==> s.q.closed && s.q.events == [] && s.trace.policy == Some(DiscardPending))
    && |s.q.events| <= s.q.capacity && s.batchSize > 0
  }

  ghost predicate LifecycleSound(s: State) {
    match s.lifecycle
    case Running => s.trace.policy == None
    case DrainStopping => s.trace.policy == Some(Drain)
    case DiscardStopping => s.trace.policy == Some(DiscardPending)
    case Stopped => s.trace.policy.Some? && s.q.closed && AllExited(s.threads)
  }

  /** What a thread at a control point may rely on. */
  ghost predicate PhaseSound(s: State, l: Local) {
    match l
    case Producer(_) => true
    case Worker(w) =>
      (match w
       case WaitPop => true
       case Filling(batch) => 0 < |batch| <= s.batchSize
       case Broadcasting(batch, snapshot, at, next) => |batch| <= s.batchSize && at <= |batch| && next <= |snapshot|
       case Exited => s.q.closed && s.q.events == [])
    case Closer(c) =>
      (match c
       case Away => true
       case Begin(_) => true
       case Await => s.lifecycle != Running
       case CloseEvents(policy) => s.lifecycle == StoppingFor(policy)
       case AddDropped(_) => s.lifecycle == DiscardStopping && s.q.closed
       case JoinWorkers(policy) => s.lifecycle == StoppingFor(policy) && s.q.closed
       case SetStopped(policy) => s.lifecycle == StoppingFor(policy) && s.q.closed && AllExited(s.threads)
       case Returned => s.lifecycle == Stopped)
  }

  ghost predicate Inv(s: State) {
    && Counted(s)
    && FlowSound(s)
    && LifecycleSound(s)
    && HasWorker(s.threads)
    && forall t | 0 <= t < |s.threads| :: PhaseSound(s, s.threads[t])
  }

  // ---------------------------------------------------------------- the effect of a step

  ghost predicate CountsFollow(s: State, s': State, l: Local, l': Local) {
    && |s'.trace.enqueued| + s.metrics.accepted + ToCount(l) == |s.trace.enqueued| + s'.metrics.accepted + ToCount(l')
    && |s'.trace.taken| + s.trace.broadcast + InBatch(l) == |s.trace.taken| + s'.trace.broadcast + InBatch(l')
    && |s'.trace.discarded| + s.metrics.dropped + ToDrop(l) == |s.trace.discarded| + s'.metrics.dropped + ToDrop(l')
    && (if IsStopping(s'.lifecycle) then 1 else 0) + Leading(l) == (if IsStopping(s.lifecycle) then 1 else 0) + Leading(l')
  }

  function Rank(l: Lifecycle): nat {
    match l
    case Running => 0
    case DrainStopping => 1
    case DiscardStopping => 1
    case Stopped => 2
  }

  /** The lifecycle only moves forward, only a leader or the first caller moves it, and the policy of
      the first caller stays. */
  ghost predicate Forward(s: State, s': State, l: Local) {
    && Rank(s.lifecycle) <= Rank(s'.lifecycle)
    && (s.trace.policy.Some? ==> s'.trace.policy == s.trace.policy)
    && (s.lifecycle != Running && Leading(l) == 0 ==> s'.lifecycle == s.lifecycle)
    && (s.lifecycle != Running && s'.lifecycle != s.lifecycle ==> s'.lifecycle == Stopped)
    && (s.q.closed ==> s'.q.closed && (s.q.events == [] ==> s'.q.events == []))
    && s'.batchSize == s.batchSize && s'.q.capacity == s.q.capacity
  }

  ghost predicate Exits(l: Local, l': Local) {
    (l.Worker? <==> l'.Worker?) && (l.Worker? && l.w.Exited? ==> l' == l)
  }

  ghost predicate Keeps(s: State, s': State, t: nat) {
    && t < |s.threads| == |s'.threads| && s'.threads == s.threads[t := s'.threads[t]]
    && CountsFollow(s, s', s.threads[t], s'.threads[t])
    && FlowSound(s')
    && LifecycleSound(s')
    && Forward(s, s', s.threads[t])
    && Exits(s.threads[t], s'.threads[t])
    && PhaseSound(s', s'.threads[t])
  }

  ghost predicate Before(s: State, t: nat, l: Local) {
    && t < |s.threads| && s.threads[t] == l
    && FlowSound(s) && LifecycleSound(s) && PhaseSound(s, l)
    && (Leading(l) == 1 ==> IsStopping(s.lifecycle))
  }

  lemma AllExitedStays(threads: seq<Local>, t: nat, l: Local)
    requires t < |threads| && Exits(threads[t], l)
    ensures AllExited(threads) ==> AllExited(threads[t := l])
  {
  }

  lemma ProducerKeeps(s: State, s': State, t: nat, p: ProducerPoint, unlucky: bool)
    requires Before(s, t, Producer(p)) && !BetweenCalls(p) && s' == DoProducer(s, t, p, unlucky)
    ensures Keeps(s, s', t)
  {
    AllExitedStays(s.threads, t, s'.threads[t]);
  }

  lemma WaitPopKeeps(s: State, s': State, t: nat, unlucky: bool)
    requires Before(s, t, Worker(WaitPop)) && MayAdvance(s, Worker(WaitPop)) && s' == DoWorker(s, t, WaitPop, unlucky)
    ensures Keeps(s, s', t)
  {
    AllExitedStays(s.threads, t, s'.threads[t]);
  }

  lemma FillingKeeps(s: State, s': State, t: nat, batch: seq<Event>, unlucky: bool)
    requires Before(s, t, Worker(Filling(batch))) && s' == DoWorker(s, t, Filling(batch), unlucky)
    ensures Keeps(s, s', t)
  {
    AllExitedStays(s.threads, t, s'.threads[t]);
  }

  lemma BroadcastingKeeps(s: State, s': State, t: nat, batch: seq<Event>, snapshot: seq<Subscriber>, at: nat, next: nat, unlucky: bool)
    requires Before(s, t, Worker(Broadcasting(batch, snapshot, at, next)))
    requires s' == DoWorker(s, t, Broadcasting(batch, snapshot, at, next), unlucky)
    ensures Keeps(s, s', t)
  {
    AllExitedStays(s.threads, t, s'.threads[t]);
  }

  lemma BeginKeeps(s: State, s': State, t: nat, policy: Policy)
    requires Before(s, t, Closer(Begin(policy))) && s' == DoCloser(s, t, Begin(policy))
    ensures Keeps(s, s', t)
  {
    AllExitedStays(s.threads, t, s'.threads[t]);
  }

  lemma CloseEventsKeeps(s: State, s': State, t: nat, policy: Policy)
    requires Before(s, t, Closer(CloseEvents(policy))) && s' == DoCloser(s, t, CloseEvents(policy))
    ensures Keeps(s, s', t)
  {
    AllExitedStays(s.threads, t, s'.threads[t]);
  }

  lemma LaterCloserKeeps(s: State, s': State, t: nat, c: CloserPoint)
    requires Before(s, t, Closer(c)) && MayAdvance(s, Closer(c)) && s' == DoCloser(s, t, c)
    requires c.Await? || c.AddDropped? || c.JoinWorkers? || c.SetStopped?
    ensures Keeps(s, s', t)
  {
    AllExitedStays(s.threads, t, s'.threads[t]);
  }

  // ------------------------------------------------ any step

  lemma AdvanceKeeps(s: State, s': State, t: nat, l: Local, unlucky: bool)
    requires Before(s, t, l) && MayAdvance(s, l) && s' == DoAdvance(s, t, l, unlucky)
    ensures Keeps(s, s', t)
  {
    if l.Producer? {
      ProducerKeeps(s, s', t, l.p, unlucky);
    } else if l.Worker? {
      match l.w
      case WaitPop => WaitPopKeeps(s, s', t, unlucky);
      case Filling(batch) => FillingKeeps(s, s', t, batch, unlucky);
      case Broadcasting(batch, snapshot, at, next) => BroadcastingKeeps(s, s', t, batch, snapshot, at, next, unlucky);
    } else {
      match l.c
      case Begin(policy) => BeginKeeps(s, s', t, policy);
      case CloseEvents(policy) => CloseEventsKeeps(s, s', t, policy);
      case Await => LaterCloserKeeps(s, s', t, l.c);
      case AddDropped(_) => LaterCloserKeeps(s, s', t, l.c);
      case JoinWorkers(_) => LaterCloserKeeps(s, s', t, l.c);
      case SetStopped(_) => LaterCloserKeeps(s, s', t, l.c);
    }
  }

  lemma BeforeStep(s: State, t: nat)
    requires Inv(s) && t < |s.threads|
    ensures Before(s, t, s.threads[t])
  {
    SumCovers(Leading, s.threads, t);
  }

  lemma CallKeeps(s: State, s': State, t: nat, l': Local)
    requires t < |s.threads| && Before(s, t, s.threads[t]) && s' == Goto(s, t, l')
    requires (s.threads[t].Producer? && BetweenCalls(s.threads[t].p) && l'.Producer? && l'.p.LoadLifecycle?)
             || (s.threads[t].Closer? && (s.threads[t].c.Away? || s.threads[t].c.Returned?) && l'.Closer? && l'.c.Begin?)
    ensures Keeps(s, s', t)
  {
    AllExitedStays(s.threads, t, l');
  }

  lemma StepKeeps(s: State, s': State, step: Step)
    requires Inv(s) && Enabled(s, step) && s' == Do(s, step) && !step.Subscribe?
    ensures Keeps(s, s', step.thread)
  {
    var t := step.thread;
    BeforeStep(s, t);
    match step
    case Publish(_, event) => CallKeeps(s, s', t, Producer(LoadLifecycle(event)));
    case Shutdown(_, policy) => CallKeeps(s, s', t, Closer(Begin(policy)));
    case Advance(_, unlucky) => AdvanceKeeps(s, s', t, s.threads[t], unlucky);
  }

  lemma KeepsCounted(s: State, s': State, t: nat)
    requires Counted(s) && Keeps(s, s', t)
    ensures Counted(s')
  {
    var l' := s'.threads[t];
    SumUpdate(ToCount, s.threads, t, l');
    SumUpdate(InBatch, s.threads, t, l');
    SumUpdate(ToDrop, s.threads, t, l');
    SumUpdate(Leading, s.threads, t, l');
  }

  /** Two threads never lead together. */
  lemma LeaderIsAlone(s: State, t: nat, u: nat)
    requires Counted(s) && t < |s.threads| && u < |s.threads| && t != u && Leading(s.threads[t]) == 1
    ensures Leading(s.threads[u]) == 0
  {
    if t < u {
      SumCoversTwo(Leading, s.threads, t, u);
    } else {
      SumCoversTwo(Leading, s.threads, u, t);
    }
  }

  lemma PhaseStays(s: State, s': State, l: Local)
    requires PhaseSound(s, l) && s'.batchSize == s.batchSize
    requires s.q.closed ==> s'.q.closed && (s.q.events == [] ==> s'.q.events == [])
    requires Rank(s.lifecycle) <= Rank(s'.lifecycle)
    requires Leading(l) == 1 ==> s'.lifecycle == s.lifecycle
    requires AllExited(s.threads) ==> AllExited(s'.threads)
    ensures PhaseSound(s', l)
  {
  }

  lemma KeepsPhases(s: State, s': State, t: nat, u: nat)
    requires Inv(s) && Keeps(s, s', t) && u < |s.threads| && u != t
    ensures PhaseSound(s', s.threads[u])
  {
    assert PhaseSound(s, s.threads[u]);
    AllExitedStays(s.threads, t, s'.threads[t]);
    SumCovers(Leading, s.threads, u);
    if Leading(s.threads[u]) == 1 {
      LeaderIsAlone(s, u, t);
    }
    PhaseStays(s, s', s.threads[u]);
  }

  lemma WorkerStays(threads: seq<Local>, t: nat, l: Local)
    requires HasWorker(threads) && t < |threads| && Exits(threads[t], l)
    ensures HasWorker(threads[t := l])
  {
    var w :| 0 <= w < |threads| && threads[w].Worker?;
    assert threads[t := l][w].Worker?;
  }

  lemma StepKeepsInv(s: State, s': State, step: Step)
    requires Inv(s) && Enabled(s, step) && s' == Do(s, step)
    ensures Inv(s')
  {
    if step.Subscribe? {
      forall t | 0 <= t < |s'.threads|
        ensures PhaseSound(s', s'.threads[t])
      {
        PhaseStays(s, s', s.threads[t]);
      }
    } else {
      StepKeeps(s, s', step);
      KeepsCounted(s, s', step.thread);
      WorkerStays(s.threads, step.thread, s'.threads[step.thread]);
      forall t | 0 <= t < |s'.threads|
        ensures PhaseSound(s', s'.threads[t])
      {
        if t != step.thread {
          KeepsPhases(s, s', step.thread, t);
        }
      }
    }
  }

  lemma InitInv(s: State)
    requires Init(s)
    ensures Inv(s)
  {
    SumZero(ToCount, s.threads);
    SumZero(InBatch, s.threads);
    SumZero(ToDrop, s.threads);
    SumZero(Leading, s.threads);
  }

  lemma NextKeepsInv(s: State, s': State)
    requires Inv(s) && Next(s, s')
    ensures Inv(s')
  {
    var step :| Enabled(s, step) && s' == Do(s, step);
    StepKeepsInv(s, s', step);
  }

  lemma StepAtKeepsInv(run: seq<State>, i: nat)
    requires IsRun(run) && 0 < i < |run| && Inv(run[i - 1])
    ensures Inv(run[i])
  {
    assert StepAt(run, i - 1);
    NextKeepsInv(run[i - 1], run[i]);
  }

  lemma {:induction false} RunKeepsInv(run: seq<State>, i: nat)
    requires IsRun(run) && i < |run|
    ensures Inv(run[i])
  {
    if i == 0 {
      InitInv(run[i]);
    } else {
      RunKeepsInv(run, i - 1);
      StepAtKeepsInv(run, i);
    }
  }
}
