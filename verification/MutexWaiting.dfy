/** The waiting side of the mutex queue: who is parked, who has been woken, and which notifications
    are still to come.  Every critical section is one step, and so is every notification, which
    comes after the lock has been released. */
module MutexWaiting {
  import opened BoundedFifo

  type Event = nat

  /** A parked thread waits in the condition variable; an awake one has left it and will take the
      lock to look again. */
  datatype Local =
    | Idle
    | ConsumerParked
    | ConsumerAwake
    | ProducerParked(event: Event)
    | ProducerAwake(event: Event)
    | NotifyNotEmpty
    | NotifyNotFull
    | NotifyAllNotEmpty
    | NotifyAllNotFull

  /** `absorbed` counts the copies that threw in a producer that had been woken; `calls` and
      `replies` are the history of the critical sections that completed a call. */
  datatype State = State(
    q: Fifo<Event>,
    threads: seq<Local>,
    absorbed: nat,
    calls: seq<Call<Event>>,
    replies: seq<Reply<Event>>)

  datatype Step =
    | TryPush(thread: nat, event: Event, throws: bool)
    | TryPop(thread: nat)
    /** `expired`: stop was requested or the deadline has passed. */
    | WaitPush(thread: nat, event: Event, throws: bool, expired: bool)
    | WaitPop(thread: nat, expired: bool)
    | CloseQueue(thread: nat, discard: bool)
    | NotifyOne(thread: nat, other: nat)
    | NotifyAll(thread: nat)
    /** A spurious wake-up, a stop request or a deadline. */
    | Wake(thread: nat)

  predicate Parked(l: Local) {
    l.ConsumerParked? || l.ProducerParked?
  }

  function Woken(l: Local): Local {
    match l
    case ConsumerParked => ConsumerAwake
    case ProducerParked(event) => ProducerAwake(event)
    case _ => l
  }

  /** The thread is parked where this notification goes. */
  predicate Hears(notification: Local, l: Local) {
    || ((notification.NotifyNotEmpty? || notification.NotifyAllNotEmpty?) && l.ConsumerParked?)
    || ((notification.NotifyNotFull? || notification.NotifyAllNotFull?) && l.ProducerParked?)
  }

  predicate Enabled(s: State, step: Step) {
    step.thread < |s.threads| &&
    var l := s.threads[step.thread];
    match step
    case TryPush(_, _, _) => l.Idle?
    case TryPop(_) => l.Idle?
    case WaitPush(_, event, _, _) => l.Idle? || l == ProducerAwake(event)
    case WaitPop(_, _) => l.Idle? || l.ConsumerAwake?
    case CloseQueue(_, _) => l.Idle?
    case NotifyOne(_, other) =>
      && (l.NotifyNotEmpty? || l.NotifyNotFull?)
      && ((other < |s.threads| && Hears(l, s.threads[other])) || NobodyHears(s.threads, l))
    case NotifyAll(_) => l.NotifyAllNotEmpty? || l.NotifyAllNotFull?
    case Wake(_) => Parked(l)
  }

  predicate NobodyHears(threads: seq<Local>, notification: Local) {
    forall u | 0 <= u < |threads| :: !Hears(notification, threads[u])
  }

  /** A critical section that completes a call. */
  function Complete(s: State, t: nat, call: Call<Event>, l: Local): State
    requires t < |s.threads|
  {
    s.(q := After(s.q, call), threads := s.threads[t := l],
       calls := s.calls + [call], replies := s.replies + [Answer(s.q, call)])
  }

  function DoPush(s: State, t: nat, event: Event, throws: bool): State
    requires t < |s.threads|
  {
    var call := Push(event, throws);
    var s' := Complete(s, t, call, if Answer(s.q, call) == Success then NotifyNotEmpty else Idle);
    if s.threads[t].ProducerAwake? && Answer(s.q, call) == Threw then s'.(absorbed := s.absorbed + 1) else s'
  }

  function DoPop(s: State, t: nat): State
    requires t < |s.threads|
  {
    Complete(s, t, Pop, if s.q.events != [] then NotifyNotFull else Idle)
  }

  function Goto(s: State, t: nat, l: Local): State
    requires t < |s.threads|
  {
    s.(threads := s.threads[t := l])
  }

  /** `notify_all`: everybody parked there is woken. */
  function WakeAll(threads: seq<Local>, notification: Local): (woken: seq<Local>)
    ensures |woken| == |threads|
  {
    if threads == [] then []
    else [if Hears(notification, threads[0]) then Woken(threads[0]) else threads[0]] + WakeAll(threads[1..], notification)
  }

  function DoNotify(s: State, t: nat, other: nat): State
    requires t < |s.threads|
  {
    if other < |s.threads| && Hears(s.threads[t], s.threads[other]) then
      s.(threads := s.threads[other := Woken(s.threads[other])][t := Idle])
    else Goto(s, t, Idle)
  }

  function DoNotifyAll(s: State, t: nat): State
    requires t < |s.threads|
  {
    s.(threads := WakeAll(s.threads, s.threads[t])[t := if s.threads[t].NotifyAllNotEmpty? then NotifyAllNotFull else Idle])
  }

  function Do(s: State, step: Step): State
    requires Enabled(s, step)
  {
    match step
    case TryPush(t, event, throws) => DoPush(s, t, event, throws)
    case TryPop(t) => DoPop(s, t)
    case WaitPush(t, event, throws, expired) =>
      if s.q.closed || |s.q.events| != s.q.capacity then DoPush(s, t, event, throws)
      else Goto(s, t, if expired then Idle else ProducerParked(event))
    case WaitPop(t, expired) =>
      if s.q.closed || s.q.events != [] then DoPop(s, t)
      else Goto(s, t, if expired then Idle else ConsumerParked)
    case CloseQueue(t, discard) => Complete(s, t, if discard then Discard else Close, NotifyAllNotEmpty)
    case NotifyOne(t, other) => DoNotify(s, t, other)
    case NotifyAll(t) => DoNotifyAll(s, t)
    case Wake(t) => Goto(s, t, Woken(s.threads[t]))
  }

  predicate Init(s: State) {
    && s.q.capacity > 0 && s.q == Fifo(s.q.capacity, [], false)
    && (forall t | 0 <= t < |s.threads| :: s.threads[t].Idle?)
    && s.absorbed == 0 && s.calls == [] && s.replies == []
  }

  ghost predicate Next(s: State, s': State) {
    exists step :: Enabled(s, step) && s' == Do(s, step)
  }

  ghost predicate StepAt(run: seq<State>, i: nat)
    requires i + 1 < |run|
  {
    Next(run[i], run[i + 1])
  }

  ghost predicate IsRun(run: seq<State>) {
    && run != []
    && Init(run[0])
    && forall i: nat | i + 1 < |run| :: StepAt(run, i)
  }
}
