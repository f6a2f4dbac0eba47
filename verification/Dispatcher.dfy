/** The dispatcher over a bounded closable queue: publishing threads, workers that take batches and
    broadcast them, and callers of `shutdown`.  A step is one critical section, one atomic operation
    or one offer to a subscriber, of one thread. */
module Dispatcher {
  import opened Wrappers
  import opened BoundedFifo

  type Event = nat
  type Subscriber = nat

  datatype Policy = Drain | DiscardPending

  datatype Lifecycle = Running | DrainStopping | DiscardStopping | Stopped

  /** `publish_with`; `Replied` is the answer of the last call. */
  datatype ProducerPoint =
    | Quiet
    | LoadLifecycle(event: Event)
    | Pushing(event: Event)
    | CountResult(reply: Reply<Event>)
    | Replied(reply: Reply<Event>)

  /** `run` and `broadcast_batch`: subscriber `next` of the snapshot is offered event `at` of the batch. */
  datatype WorkerPoint =
    | WaitPop
    | Filling(batch: seq<Event>)
    | Broadcasting(batch: seq<Event>, snapshot: seq<Subscriber>, at: nat, next: nat)
    | Exited

  datatype CloserPoint =
    | Away
    | Begin(policy: Policy)
    | Await
    | CloseEvents(policy: Policy)
    | AddDropped(count: nat)
    | JoinWorkers(policy: Policy)
    | SetStopped(policy: Policy)
    | Returned

  datatype Local = Producer(p: ProducerPoint) | Worker(w: WorkerPoint) | Closer(c: CloserPoint)

  datatype Metrics = Metrics(accepted: nat, rejected: nat, dropped: nat)

  datatype Offer = Offer(event: Event, subscriber: Subscriber)

  /** History: the events in the order of acceptance, those popped and those discarded, how many have
      been broadcast, all offers made, and the policy of the call that began the shutdown. */
  datatype Trace = Trace(
    enqueued: seq<Event>,
    taken: seq<Event>,
    discarded: seq<Event>,
    broadcast: nat,
    offers: seq<Offer>,
    policy: Option<Policy>)

  datatype State = State(
    q: Fifo<Event>,
    batchSize: nat,
    members: seq<Subscriber>,
    lifecycle: Lifecycle,
    threads: seq<Local>,
    metrics: Metrics,
    errors: nat,
    trace: Trace)

  datatype Step =
    | Publish(thread: nat, event: Event)
    | Shutdown(thread: nat, policy: Policy)
    /** Somebody subscribes or unsubscribes: the registry publishes another list. */
    | Subscribe(members: seq<Subscriber>)
    /** `unlucky`: the construction of the event or the callback throws. */
    | Advance(thread: nat, unlucky: bool)

  /** The constructor refuses a dispatcher without workers. */
  predicate HasWorker(threads: seq<Local>) {
    exists t :: 0 <= t < |threads| && threads[t].Worker?
  }

  predicate Init(s: State) {
    && s.q.capacity > 0 && s.q == Fifo(s.q.capacity, [], false) && s.batchSize > 0
    && s.lifecycle == Running && HasWorker(s.threads)
    && (forall t | 0 <= t < |s.threads| ::
          s.threads[t] == Producer(Quiet) || s.threads[t] == Worker(WaitPop) || s.threads[t] == Closer(Away))
    && s.metrics == Metrics(0, 0, 0) && s.errors == 0
    && s.trace == Trace([], [], [], 0, [], None)
  }

  predicate AllExited(threads: seq<Local>) {
    forall t | 0 <= t < |threads| && threads[t].Worker? :: threads[t].w.Exited?
  }

  predicate BetweenCalls(p: ProducerPoint) {
    p.Quiet? || p.Replied?
  }

  predicate MayAdvance(s: State, l: Local) {
    match l
    case Producer(p) => !BetweenCalls(p)
    case Worker(w) => if w.WaitPop? then s.q.events != [] || s.q.closed else !w.Exited?
    case Closer(c) =>
      && !c.Away? && !c.Returned?
      && (c.Await? ==> s.lifecycle == Stopped)
      && (c.JoinWorkers? ==> AllExited(s.threads))
  }

  predicate Enabled(s: State, step: Step) {
    match step
    case Publish(t, _) => t < |s.threads| && s.threads[t].Producer? && BetweenCalls(s.threads[t].p)
    case Shutdown(t, _) => t < |s.threads| && s.threads[t].Closer? && (s.threads[t].c.Away? || s.threads[t].c.Returned?)
    case Subscribe(_) => true
    case Advance(t, _) => t < |s.threads| && MayAdvance(s, s.threads[t])
  }

  function Goto(s: State, t: nat, l: Local): State
    requires t < |s.threads|
  {
    s.(threads := s.threads[t := l])
  }

  /** A push that cannot be accepted is rejected; one that waits for room simply does not step.  The
      answer full also stands for a wait that was stopped or has expired. */
  function DoProducer(s: State, t: nat, p: ProducerPoint, unlucky: bool): State
    requires t < |s.threads|
  {
    match p
    case Quiet => s
    case Replied(_) => s
    case LoadLifecycle(event) =>
      Goto(s, t, Producer(if s.lifecycle == Running then Pushing(event) else CountResult(Closed)))
    case Pushing(event) =>
      var reply := PushReply(s.q, unlucky);
      if reply == Threw then Goto(s, t, Producer(Replied(Threw)))
      else if reply == Success then
        Goto(s, t, Producer(CountResult(Success)))
        .(q := After(s.q, Push(event, unlucky)), trace := s.trace.(enqueued := s.trace.enqueued + [event]))
      else Goto(s, t, Producer(CountResult(reply)))
    case CountResult(reply) =>
      Goto(s, t, Producer(Replied(reply)))
      .(metrics := if reply == Success then s.metrics.(accepted := s.metrics.accepted + 1)
                   else s.metrics.(rejected := s.metrics.rejected + 1))
  }

  /** Takes the oldest event into the batch. */
  function TakeInto(s: State, t: nat, batch: seq<Event>): State
    requires t < |s.threads| && s.q.events != []
  {
    var event := s.q.events[0];
    Goto(s, t, Worker(Filling(batch + [event])))
    .(q := After(s.q, Pop), trace := s.trace.(taken := s.trace.taken + [event]))
  }

  function DoWorker(s: State, t: nat, w: WorkerPoint, unlucky: bool): State
    requires t < |s.threads|
  {
    match w
    case WaitPop => if s.q.events != [] then TakeInto(s, t, []) else Goto(s, t, Worker(Exited))
    case Filling(batch) =>
      if |batch| < s.batchSize && s.q.events != [] then TakeInto(s, t, batch)
      else Goto(s, t, Worker(Broadcasting(batch, s.members, 0, 0)))
    case Broadcasting(batch, snapshot, at, next) =>
      if at >= |batch| then Goto(s, t, Worker(WaitPop))
      else if next < |snapshot| then
        Goto(s, t, Worker(Broadcasting(batch, snapshot, at, next + 1)))
        .(errors := if unlucky then s.errors + 1 else s.errors,
          trace := s.trace.(offers := s.trace.offers + [Offer(batch[at], snapshot[next])]))
      else
        Goto(s, t, Worker(Broadcasting(batch, snapshot, at + 1, 0))).(trace := s.trace.(broadcast := s.trace.broadcast + 1))
    case Exited => s
  }

  function StoppingFor(policy: Policy): Lifecycle {
    if policy.Drain? then DrainStopping else DiscardStopping
  }

  function DoCloser(s: State, t: nat, c: CloserPoint): State
    requires t < |s.threads|
  {
    match c
    case Away => s
    case Returned => s
    case Begin(policy) =>
      if s.lifecycle == Stopped then Goto(s, t, Closer(Returned))
      else if s.lifecycle != Running then Goto(s, t, Closer(Await))
      else Goto(s, t, Closer(CloseEvents(policy))).(lifecycle := StoppingFor(policy), trace := s.trace.(policy := Some(policy)))
    case Await => Goto(s, t, Closer(Returned))
    case CloseEvents(policy) =>
      if policy.Drain? then Goto(s, t, Closer(JoinWorkers(policy))).(q := After(s.q, Close))
      else
        Goto(s, t, Closer(AddDropped(|s.q.events|)))
        .(q := After(s.q, Discard), trace := s.trace.(discarded := s.trace.discarded + s.q.events))
    case AddDropped(count) =>
      Goto(s, t, Closer(JoinWorkers(DiscardPending))).(metrics := s.metrics.(dropped := s.metrics.dropped + count))
    case JoinWorkers(policy) => Goto(s, t, Closer(SetStopped(policy)))
    case SetStopped(_) => Goto(s, t, Closer(Returned)).(lifecycle := Stopped)
  }

  function DoAdvance(s: State, t: nat, l: Local, unlucky: bool): State
    requires t < |s.threads|
  {
    match l
    case Producer(p) => DoProducer(s, t, p, unlucky)
    case Worker(w) => DoWorker(s, t, w, unlucky)
    case Closer(c) => DoCloser(s, t, c)
  }

  function Do(s: State, step: Step): State
    requires Enabled(s, step)
  {
    match step
    case Publish(t, event) => Goto(s, t, Producer(LoadLifecycle(event)))
    case Shutdown(t, policy) => Goto(s, t, Closer(Begin(policy)))
    case Subscribe(members) => s.(members := members)
    case Advance(t, unlucky) => DoAdvance(s, t, s.threads[t], unlucky)
  }

  ghost predicate Next(s: State, s': State) {
    exists step :: Enabled(s, step) && s' == Do(s, step)
  }

  ghost predicate StepAt(run: seq<State>, i: nat)
    requires i + 1 < |run|
  {
    Next(run[i], run[i + 1])
  }

  ghost predicate IsRun(run: seq<State>) {
    && run != []
    && Init(run[0])
    && forall i: nat | i + 1 < |run| :: StepAt(run, i)
  }
}
