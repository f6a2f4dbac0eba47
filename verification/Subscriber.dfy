/** One subscriber: callback entry against synchronous unsubscribe, the isolated mailbox and its
    executor, and the delivery metrics.  A step is one critical section, one atomic operation, one
    callback entry or exit, or one join, of one thread. */
module Subscriber {
  import opened Wrappers

  type Event = nat

  datatype Policy = Concurrent | Serialized | Isolated

  /** Inside `execute_callback`: admitted, in the callback, and in `finish_invocation`. */
  datatype InvocationPoint = Admitted(event: Event) | Running(event: Event) | Counting | Leaving | Unserial

  datatype ExecutorPoint = Loop | Taken(event: Event) | Dropping

  /** What follows `stop_delivery`: nothing, or the end of an unsubscribe, which was called from this
      subscriber's own callback (`self`) or not. */
  datatype Then = Return | Unsubscribed(self: bool)

  datatype ControlPoint =
    | Deactivate
    | Retire(self: bool)
    | StopMailbox(drain: bool, next: Then)
    | JoinLock(next: Then)
    | Join(next: Then)
    | Waiting(next: Then)

  datatype Frame =
    | Offering(event: Event)
    | Refusing
    | Invocation(i: InvocationPoint)
    | Executor(e: ExecutorPoint)
    | Control(c: ControlPoint)

  /** The calls of one thread into this subscriber, innermost first; a callback may call again. */
  datatype Stack = Nil | On(top: Frame, rest: Stack)

  datatype Metrics = Metrics(offered: nat, delivered: nat, dropped: nat, rejected: nat, errors: nat)

  /** The fields under `mailbox_mutex_`. */
  datatype Mailbox = Mailbox(events: seq<Event>, accepting: bool, stopping: bool, drain: bool)

  /** The mailbox entries accepted, taken by the executor and cleared by a stop, and the events given
      to the callback. */
  datatype History = History(accepted: seq<Event>, taken: seq<Event>, cleared: seq<Event>, invoked: seq<Event>)

  datatype State = State(
    policy: Policy,
    capacity: nat,
    lossless: bool,
    active: bool,
    inFlight: nat,
    retirementStarted: bool,
    retirements: nat,
    mailbox: Mailbox,
    serial: Option<nat>,
    joinLock: Option<nat>,
    exited: bool,
    threads: seq<Stack>,
    metrics: Metrics,
    history: History)

  datatype Step =
    | Offer(thread: nat, event: Event)
    | Unsubscribe(thread: nat)
    | Stop(thread: nat, drain: bool)
    /** `throws`: the copy into the mailbox or the callback throws. */
    | Advance(thread: nat, throws: bool)

  /** The executor of an isolated subscriber is thread 0. */
  predicate IsExecutor(s: State, t: nat) {
    s.policy.Isolated? && t == 0
  }

  predicate AtLoop(stack: Stack) {
    stack == On(Executor(Loop), Nil)
  }

  predicate Starts(s: State, t: nat)
    requires t < |s.threads|
  {
    if IsExecutor(s, t) then AtLoop(s.threads[t]) else s.threads[t].Nil?
  }

  predicate Init(s: State) {
    && s.capacity > 0 && s.active && s.inFlight == 0 && !s.retirementStarted && s.retirements == 0
    && s.mailbox == Mailbox([], true, false, true)
    && s.serial == None && s.joinLock == None && !s.exited
    && s.threads != []
    && (forall t | 0 <= t < |s.threads| :: Starts(s, t))
    && s.metrics == Metrics(0, 0, 0, 0, 0)
    && s.history == History([], [], [], [])
  }

  /** A thread may call from outside, or from inside the callback. */
  predicate MayCall(s: State, t: nat)
    requires t < |s.threads|
  {
    match s.threads[t]
    case Nil => !IsExecutor(s, t)
    case On(top, _) => top.Invocation? && top.i.Running?
  }

  predicate MayAdvance(s: State, t: nat, f: Frame) {
    match f
    case Offering(_) => s.policy.Isolated? && s.lossless ==> !s.mailbox.accepting || |s.mailbox.events| < s.capacity
    case Refusing => true
    case Invocation(i) => i.Admitted? && s.policy.Serialized? ==> s.serial == None
    case Executor(e) => e.Loop? ==> s.mailbox.stopping || s.mailbox.events != []
    case Control(c) => MayControl(s, t, c)
  }

  predicate MayControl(s: State, t: nat, c: ControlPoint) {
    && (c.JoinLock? ==> s.joinLock == None)
    && (c.Join? ==> IsExecutor(s, t) || s.exited)
    && (c.Waiting? && c.next == Unsubscribed(false) ==> s.inFlight == 0)
  }

  predicate Enabled(s: State, step: Step) {
    && step.thread < |s.threads|
    && if step.Advance? then s.threads[step.thread].On? && MayAdvance(s, step.thread, s.threads[step.thread].top)
       else MayCall(s, step.thread)
  }

  function Become(s: State, t: nat, stack: Stack): State
    requires t < |s.threads|
  {
    s.(threads := s.threads[t := stack])
  }

  predicate InCallback(stack: Stack) {
    stack.On? && ((stack.top.Invocation? && stack.top.i.Running?) || InCallback(stack.rest))
  }

  /** `enqueue_isolated` once it has the lock and does not wait, and `begin_invocation`. */
  function DoOffering(s: State, t: nat, event: Event, throws: bool, rest: Stack): State
    requires t < |s.threads|
  {
    var m := s.metrics;
    if !s.policy.Isolated? then
      if s.active then Become(s, t, On(Invocation(Admitted(event)), rest)).(inFlight := s.inFlight + 1)
      else Become(s, t, On(Refusing, rest))
    else if !s.lossless && |s.mailbox.events| == s.capacity then
      Become(s, t, rest).(metrics := m.(dropped := m.dropped + 1))
    else if !s.mailbox.accepting || throws then
      Become(s, t, rest).(metrics := m.(rejected := m.rejected + 1))
    else
      Become(s, t, rest).(mailbox := s.mailbox.(events := s.mailbox.events + [event]),
                          history := s.history.(accepted := s.history.accepted + [event]))
  }

  function DoInvocation(s: State, t: nat, i: InvocationPoint, throws: bool, rest: Stack): State
    requires t < |s.threads|
  {
    var m := s.metrics;
    match i
    case Admitted(event) =>
      Become(s, t, On(Invocation(Running(event)), rest))
      .(serial := if s.policy.Serialized? then Some(t) else s.serial,
        history := s.history.(invoked := s.history.invoked + [event]))
    case Running(_) =>
      Become(s, t, On(Invocation(Counting), rest)).(metrics := if throws then m.(errors := m.errors + 1) else m)
    case Counting =>
      Become(s, t, On(Invocation(Leaving), rest)).(metrics := m.(delivered := m.delivered + 1))
    case Leaving =>
      Become(s, t, if s.policy.Serialized? then On(Invocation(Unserial), rest) else rest)
      .(inFlight := if s.inFlight == 0 then 0 else s.inFlight - 1)
    case Unserial =>
      Become(s, t, rest).(serial := None)
  }

  function DoExecutor(s: State, t: nat, e: ExecutorPoint, rest: Stack): State
    requires t < |s.threads|
  {
    var m, box := s.metrics, s.mailbox;
    match e
    case Loop =>
      if box.stopping && (!box.drain || box.events == []) then Become(s, t, rest).(exited := true)
      else if box.events == [] then s
      else
        Become(s, t, On(Executor(Taken(box.events[0])), s.threads[t]))
        .(mailbox := box.(events := box.events[1..]),
          history := s.history.(taken := s.history.taken + [box.events[0]]))
    case Taken(event) =>
      if s.active then Become(s, t, On(Invocation(Admitted(event)), rest)).(inFlight := s.inFlight + 1)
      else Become(s, t, On(Executor(Dropping), rest))
    case Dropping =>
      Become(s, t, rest).(metrics := m.(dropped := m.dropped + 1))
  }

  function StoppedMailbox(box: Mailbox, drain: bool): Mailbox {
    Mailbox(if drain then box.events else [], false, true, box.drain && drain)
  }

  function DoControl(s: State, t: nat, c: ControlPoint, rest: Stack): State
    requires t < |s.threads|
  {
    match c
    case Deactivate =>
      var self := InCallback(rest);
      Become(s, t, On(Control(if s.retirementStarted then StopMailbox(false, Unsubscribed(self)) else Retire(self)), rest))
      .(active := false, retirementStarted := true)
    case Retire(self) =>
      Become(s, t, On(Control(StopMailbox(false, Unsubscribed(self))), rest)).(retirements := s.retirements + 1)
    case StopMailbox(drain, next) =>
      if !s.policy.Isolated? then Become(s, t, On(Control(Waiting(next)), rest))
      else
        var m, discarded := s.metrics, if drain then [] else s.mailbox.events;
        Become(s, t, On(Control(JoinLock(next)), rest))
        .(mailbox := StoppedMailbox(s.mailbox, drain), metrics := m.(dropped := m.dropped + |discarded|),
          history := s.history.(cleared := s.history.cleared + discarded))
    case JoinLock(next) =>
      Become(s, t, On(Control(Join(next)), rest)).(joinLock := Some(t))
    case Join(next) =>
      Become(s, t, On(Control(Waiting(next)), rest)).(joinLock := None)
    case Waiting(_) =>
      Become(s, t, rest)
  }

  function DoFrame(s: State, t: nat, top: Frame, throws: bool, rest: Stack): State
    requires t < |s.threads|
  {
    match top
    case Offering(event) => DoOffering(s, t, event, throws, rest)
    case Refusing => Become(s, t, rest).(metrics := s.metrics.(rejected := s.metrics.rejected + 1))
    case Invocation(i) => DoInvocation(s, t, i, throws, rest)
    case Executor(e) => DoExecutor(s, t, e, rest)
    case Control(c) => DoControl(s, t, c, rest)
  }

  function Do(s: State, step: Step): State
    requires Enabled(s, step)
  {
    var t, stack := step.thread, s.threads[step.thread];
    match step
    case Offer(_, event) => Become(s, t, On(Offering(event), stack)).(metrics := s.metrics.(offered := s.metrics.offered + 1))
    case Unsubscribe(_) => Become(s, t, On(Control(Deactivate), stack))
    case Stop(_, drain) => Become(s, t, On(Control(StopMailbox(drain, Return)), stack))
    case Advance(_, throws) => DoFrame(s, t, stack.top, throws, stack.rest)
  }

  ghost predicate Next(s: State, s': State) {
    exists step :: Enabled(s, step) && s' == Do(s, step)
  }

  ghost predicate StepAt(run: seq<State>, i: nat)
    requires i + 1 < |run|
  {
    Next(run[i], run[i + 1])
  }

  ghost predicate IsRun(run: seq<State>) {
    && run != []
    && Init(run[0])
    && forall i: nat | i + 1 < |run| :: StepAt(run, i)
  }
}
