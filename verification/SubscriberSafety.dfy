/** What every step of a subscriber keeps. */
module SubscriberSafety {
  import opened Wrappers
  import opened Tally
  import opened Subscriber

  // ---------------------------------------------------------------- what the frames of a thread weigh

  /** An admitted invocation that has not left. */
  function InFlightFrame(f: Frame): nat {
    if f.Invocation? && !f.i.Unserial? then 1 else 0
  }

  /** An offered event that is neither delivered, dropped, rejected nor in the mailbox. */
  function InTransitFrame(f: Frame): nat {
    match f
    case Offering(_) => 1
    case Refusing => 1
    case Invocation(i) => if i.Leaving? || i.Unserial? then 0 else 1
    case Executor(e) => if e.Loop? then 0 else 1
    case Control(_) => 0
  }

  /** The callback has been entered and, under the serialized policy, its lock is held. */
  function EnteredFrame(f: Frame): nat {
    if f.Invocation? && !f.i.Admitted? then 1 else 0
  }

  /** The callback has been entered and its delivery has not been counted. */
  function UnderWayFrame(f: Frame): nat {
    if f.Invocation? && (f.i.Running? || f.i.Counting?) then 1 else 0
  }

  function CountingFrame(f: Frame): nat {
    if f.Invocation? && f.i.Counting? then 1 else 0
  }

  function RetiringFrame(f: Frame): nat {
    if f.Control? && f.c.Retire? then 1 else 0
  }

  function NextOf(c: ControlPoint): Then {
    match c
    case Deactivate => Return
    case Retire(self) => Unsubscribed(self)
    case StopMailbox(_, next) => next
    case JoinLock(next) => next
    case Join(next) => next
    case Waiting(next) => next
  }

  function EndingFrame(f: Frame): nat {
    if f.Control? && NextOf(f.c).Unsubscribed? then 1 else 0
  }

  function InFlight(stack: Stack): nat {
    match stack case Nil => 0 case On(f, rest) => InFlightFrame(f) + InFlight(rest)
  }

  function InTransit(stack: Stack): nat {
    match stack case Nil => 0 case On(f, rest) => InTransitFrame(f) + InTransit(rest)
  }

  function Entered(stack: Stack): nat {
    match stack case Nil => 0 case On(f, rest) => EnteredFrame(f) + Entered(rest)
  }

  function UnderWay(stack: Stack): nat {
    match stack case Nil => 0 case On(f, rest) => UnderWayFrame(f) + UnderWay(rest)
  }

  function CountingIn(stack: Stack): nat {
    match stack case Nil => 0 case On(f, rest) => CountingFrame(f) + CountingIn(rest)
  }

  function Retiring(stack: Stack): nat {
    match stack case Nil => 0 case On(f, rest) => RetiringFrame(f) + Retiring(rest)
  }

  function Ending(stack: Stack): nat {
    match stack case Nil => 0 case On(f, rest) => EndingFrame(f) + Ending(rest)
  }

  // ---------------------------------------------------------------- the invariant

  ghost predicate Counted(s: State) {
    && s.inFlight == Sum(InFlight, s.threads)
    && s.metrics.offered == s.metrics.delivered + s.metrics.dropped + s.metrics.rejected
                            + |s.mailbox.events| + Sum(InTransit, s.threads)
    && |s.history.invoked| == s.metrics.delivered + Sum(UnderWay, s.threads)
    && s.metrics.errors <= s.metrics.delivered + Sum(CountingIn, s.threads)
    && s.retirements + Sum(Retiring, s.threads) == (if s.retirementStarted then 1 else 0)
    && (s.policy.Serialized? ==> Sum(Entered, s.threads) == (if s.serial.Some? then 1 else 0))
    && (s.active ==> Sum(Ending, s.threads) == 0)
    && (s.active <==> !s.retirementStarted)
  }

  ghost predicate BoxSound(s: State) {
    && s.capacity > 0 && |s.mailbox.events| <= s.capacity
    && s.history.accepted == s.history.taken + s.history.cleared + s.mailbox.events
    && (s.mailbox.stopping <==> !s.mailbox.accepting)
    && (if s.mailbox.drain then s.history.cleared == [] else s.mailbox.stopping && s.mailbox.events == [])
  }

  predicate Called(f: Frame) {
    f.Offering? || f.Control?
  }

  /** The executor is gone, in its loop, at one event, or at a call from inside the callback. */
  predicate ExecutorShape(stack: Stack) {
    || stack.Nil?
    || AtLoop(stack)
    || (AtLoop(stack.rest) && (if stack.top.Executor? then !stack.top.e.Loop? else stack.top.Invocation? && !stack.top.i.Unserial?))
    || (stack.rest.On? && AtLoop(stack.rest.rest) && Called(stack.top)
        && stack.rest.top.Invocation? && stack.rest.top.i.Running?)
  }

  predicate CallerShape(stack: Stack) {
    stack.Nil? || (stack.rest.Nil? && Called(stack.top))
  }

  predicate NoExecutor(stack: Stack) {
    stack.On? ==> !stack.top.Executor? && NoExecutor(stack.rest)
  }

  /** An unsubscribe knows whether it was called from inside the callback. */
  predicate KnowsSelf(stack: Stack) {
    stack.On? ==>
      && (stack.top.Control? && NextOf(stack.top.c).Unsubscribed? ==> NextOf(stack.top.c).self == InCallback(stack.rest))
      && KnowsSelf(stack.rest)
  }

  predicate ShapeOf(s: State, t: nat)
    requires t < |s.threads|
  {
    KnowsSelf(s.threads[t]) &&
    if IsExecutor(s, t) then ExecutorShape(s.threads[t])
    else if s.policy.Isolated? then CallerShape(s.threads[t])
    else NoExecutor(s.threads[t])
  }

  /** The event that the executor has taken and not yet given to the callback. */
  function Pending(stack: Stack): seq<Event> {
    if stack.Nil? then []
    else match stack.top
         case Executor(e) => if e.Taken? then [e.event] else []
         case Invocation(i) => if i.Admitted? then [i.event] else []
         case Offering(_) => []
         case Refusing => []
         case Control(_) => []
  }

  predicate AtAdmitted(stack: Stack) {
    stack.On? && stack.top.Invocation? && stack.top.i.Admitted?
  }

  /** The callback gets the taken events in order; none is left out while the subscription is active. */
  ghost predicate ExecutorSound(s: State, stack: Stack) {
    && (s.exited <==> stack.Nil?)
    && (s.exited ==> s.mailbox.stopping && s.mailbox.events == [])
    && s.history.invoked <= s.history.taken
    && (s.active || AtAdmitted(stack) ==> s.history.taken == s.history.invoked + Pending(stack))
  }

  predicate Joining(k: Stack) {
    k.On? && k.top.Control? && k.top.c.Join?
  }

  /** The join mutex is held by the one thread that is joining the executor. */
  ghost predicate LockSound(s: State) {
    && (s.joinLock.Some? ==> s.joinLock.value < |s.threads|)
    && (forall t | 0 <= t < |s.threads| :: Joining(s.threads[t]) <==> s.joinLock == Some(t))
  }

  ghost predicate Inv(s: State) {
    && Counted(s)
    && BoxSound(s)
    && s.threads != []
    && (forall t | 0 <= t < |s.threads| :: ShapeOf(s, t))
    && (s.policy.Isolated? ==> ExecutorSound(s, s.threads[0]) && LockSound(s))
  }

  // ---------------------------------------------------------------- the effect of a step

  ghost predicate CountsFollow(s: State, s': State, k: Stack, k': Stack) {
    && s'.inFlight + InFlight(k) == s.inFlight + InFlight(k')
    && s'.metrics.offered + s.metrics.delivered + s.metrics.dropped + s.metrics.rejected + |s.mailbox.events| + InTransit(k)
       == s.metrics.offered + s'.metrics.delivered + s'.metrics.dropped + s'.metrics.rejected + |s'.mailbox.events| + InTransit(k')
    && |s'.history.invoked| + s.metrics.delivered + UnderWay(k) == |s.history.invoked| + s'.metrics.delivered + UnderWay(k')
    && s'.metrics.errors + s.metrics.delivered + CountingIn(k) <= s.metrics.errors + s'.metrics.delivered + CountingIn(k')
    && s'.retirements + Retiring(k') + (if s.retirementStarted then 1 else 0)
       == s.retirements + Retiring(k) + (if s'.retirementStarted then 1 else 0)
    && (s.policy.Serialized? ==>
          (if s'.serial.Some? then 1 else 0) + Entered(k) == (if s.serial.Some? then 1 else 0) + Entered(k'))
    && (s'.active ==> s.active && Ending(k') == Ending(k))
    && (s'.active <==> !s'.retirementStarted)
  }

  /** Nothing is undone: a subscription stays inactive, and then no invocation begins. */
  ghost predicate Forward(s: State, s': State, k: Stack, k': Stack) {
    && (!s.active ==> !s'.active && s'.inFlight <= s.inFlight)
    && (!s.active && InFlight(k) == 0 ==> s'.history.invoked == s.history.invoked)
    && s.history.invoked <= s'.history.invoked
    && (s.exited ==> s'.exited) && (s.mailbox.stopping ==> s'.mailbox.stopping)
    && (s'.mailbox.drain ==> s.mailbox.drain)
    && s'.policy == s.policy && s'.capacity == s.capacity
  }

  predicate AtJoinLock(k: Stack) {
    k.On? && k.top.Control? && k.top.c.JoinLock?
  }

  /** The join mutex changes hands only at its own two points. */
  ghost predicate LockFollows(s: State, s': State, t: nat, k: Stack, k': Stack) {
    if Joining(k) then s'.joinLock == None && !Joining(k')
    else if AtJoinLock(k) then s.joinLock == None && s'.joinLock == Some(t) && Joining(k')
    else s'.joinLock == s.joinLock && !Joining(k')
  }

  ghost predicate Keeps(s: State, s': State, t: nat) {
    && t < |s.threads| == |s'.threads| && s'.threads == s.threads[t := s'.threads[t]]
    && CountsFollow(s, s', s.threads[t], s'.threads[t])
    && BoxSound(s')
    && Forward(s, s', s.threads[t], s'.threads[t])
    && (s.policy.Isolated? ==> LockFollows(s, s', t, s.threads[t], s'.threads[t]))
    && ShapeOf(s', t)
    && (IsExecutor(s, t) ==> ExecutorSound(s', s'.threads[t]))
    && (s.policy.Isolated? && !IsExecutor(s, t) ==>
          && s'.history.invoked == s.history.invoked && s'.history.taken == s.history.taken && s'.exited == s.exited
          && (s.exited ==> s'.mailbox.stopping && s'.mailbox.events == []))
  }

  /** What a step may rely on. */
  ghost predicate Before(s: State, t: nat, top: Frame, rest: Stack) {
    && t < |s.threads| && s.threads[t] == On(top, rest)
    && BoxSound(s) && ShapeOf(s, t)
    && (s.policy.Isolated? && s.exited ==> s.mailbox.stopping && s.mailbox.events == [])
    && (IsExecutor(s, t) ==> ExecutorSound(s, s.threads[t]))
    && (s.active <==> !s.retirementStarted)
  }

  lemma DirectOfferKeeps(s: State, s': State, t: nat, event: Event, throws: bool, rest: Stack)
    requires Before(s, t, Offering(event), rest) && s' == DoOffering(s, t, event, throws, rest)
    requires MayAdvance(s, t, Offering(event)) && !s.policy.Isolated?
    ensures Keeps(s, s', t)
  {
  }

  lemma DroppedOfferKeeps(s: State, s': State, t: nat, event: Event, throws: bool, rest: Stack)
    requires Before(s, t, Offering(event), rest) && s' == DoOffering(s, t, event, throws, rest)
    requires s.policy.Isolated? && !s.lossless && |s.mailbox.events| == s.capacity
    ensures Keeps(s, s', t)
  {
  }

  lemma RejectedOfferKeeps(s: State, s': State, t: nat, event: Event, throws: bool, rest: Stack)
    requires Before(s, t, Offering(event), rest) && s' == DoOffering(s, t, event, throws, rest)
    requires s.policy.Isolated? && (s.lossless || |s.mailbox.events| != s.capacity) && (!s.mailbox.accepting || throws)
    ensures Keeps(s, s', t)
  {
  }

  lemma AcceptedOfferKeeps(s: State, s': State, t: nat, event: Event, rest: Stack)
    requires Before(s, t, Offering(event), rest) && s' == DoOffering(s, t, event, false, rest)
    requires s.policy.Isolated? && s.mailbox.accepting && |s.mailbox.events| < s.capacity
    ensures Keeps(s, s', t)
  {
  }

  lemma RefusingKeeps(s: State, s': State, t: nat, rest: Stack)
    requires Before(s, t, Refusing, rest) && s' == Become(s, t, rest).(metrics := s.metrics.(rejected := s.metrics.rejected + 1))
    ensures Keeps(s, s', t)
  {
  }

  lemma AdmittedKeeps(s: State, s': State, t: nat, event: Event, rest: Stack)
    requires Before(s, t, Invocation(Admitted(event)), rest) && s' == DoInvocation(s, t, Admitted(event), false, rest)
    requires s.policy.Serialized? ==> s.serial == None
    ensures Keeps(s, s', t)
  {
  }

  lemma RunningKeeps(s: State, s': State, t: nat, event: Event, throws: bool, rest: Stack)
    requires Before(s, t, Invocation(Running(event)), rest) && s' == DoInvocation(s, t, Running(event), throws, rest)
    ensures Keeps(s, s', t)
  {
  }

  lemma CountingKeeps(s: State, s': State, t: nat, rest: Stack)
    requires Before(s, t, Invocation(Counting), rest) && s' == DoInvocation(s, t, Counting, false, rest)
    ensures Keeps(s, s', t)
  {
  }

  lemma LeavingFreelyKeeps(s: State, s': State, t: nat, rest: Stack)
    requires Before(s, t, Invocation(Leaving), rest) && s' == DoInvocation(s, t, Leaving, false, rest)
    requires s.inFlight > 0 && !s.policy.Serialized?
    ensures Keeps(s, s', t)
  {
  }

  lemma LeavingSeriallyKeeps(s: State, s': State, t: nat, rest: Stack)
    requires Before(s, t, Invocation(Leaving), rest) && s' == DoInvocation(s, t, Leaving, false, rest)
    requires s.inFlight > 0 && s.policy.Serialized?
    ensures Keeps(s, s', t)
  {
  }

  lemma UnserialKeeps(s: State, s': State, t: nat, rest: Stack)
    requires Before(s, t, Invocation(Unserial), rest) && s' == DoInvocation(s, t, Unserial, false, rest)
    requires s.policy.Serialized? ==> s.serial.Some?
    ensures Keeps(s, s', t)
  {
  }

  lemma ExitKeeps(s: State, s': State, t: nat, rest: Stack)
    requires Before(s, t, Executor(Loop), rest) && s' == DoExecutor(s, t, Loop, rest)
    requires s.mailbox.stopping && (!s.mailbox.drain || s.mailbox.events == [])
    ensures Keeps(s, s', t)
  {
  }

  lemma TakeKeeps(s: State, s': State, t: nat, rest: Stack)
    requires Before(s, t, Executor(Loop), rest) && s' == DoExecutor(s, t, Loop, rest)
    requires !(s.mailbox.stopping && (!s.mailbox.drain || s.mailbox.events == [])) && s.mailbox.events != []
    ensures Keeps(s, s', t)
  {
    var event, left := s.mailbox.events[0], s.mailbox.events[1..];
    assert s.mailbox.events == [event] + left;
  }

  lemma TakenKeeps(s: State, s': State, t: nat, event: Event, rest: Stack)
    requires Before(s, t, Executor(Taken(event)), rest) && s' == DoExecutor(s, t, Taken(event), rest)
    ensures Keeps(s, s', t)
  {
  }

  lemma DroppingKeeps(s: State, s': State, t: nat, rest: Stack)
    requires Before(s, t, Executor(Dropping), rest) && s' == DoExecutor(s, t, Dropping, rest)
    ensures Keeps(s, s', t)
  {
  }

  lemma DeactivateKeeps(s: State, s': State, t: nat, rest: Stack)
    requires Before(s, t, Control(Deactivate), rest) && s' == DoControl(s, t, Deactivate, rest)
    ensures Keeps(s, s', t)
  {
  }

  lemma RetireKeeps(s: State, s': State, t: nat, self: bool, rest: Stack)
    requires Before(s, t, Control(Retire(self)), rest) && s' == DoControl(s, t, Retire(self), rest)
    requires !s.active
    ensures Keeps(s, s', t)
  {
  }

  lemma StopDirectKeeps(s: State, s': State, t: nat, drain: bool, next: Then, rest: Stack)
    requires Before(s, t, Control(StopMailbox(drain, next)), rest) && s' == DoControl(s, t, StopMailbox(drain, next), rest)
    requires !s.policy.Isolated?
    ensures Keeps(s, s', t)
  {
  }

  lemma StopAndDrainKeeps(s: State, s': State, t: nat, next: Then, rest: Stack)
    requires Before(s, t, Control(StopMailbox(true, next)), rest) && s' == DoControl(s, t, StopMailbox(true, next), rest)
    requires s.policy.Isolated?
    ensures Keeps(s, s', t)
  {
  }

  lemma StopAndClearKeeps(s: State, s': State, t: nat, next: Then, rest: Stack)
    requires Before(s, t, Control(StopMailbox(false, next)), rest) && s' == DoControl(s, t, StopMailbox(false, next), rest)
    requires s.policy.Isolated?
    ensures Keeps(s, s', t)
  {
  }

  lemma JoinLockKeeps(s: State, s': State, t: nat, next: Then, rest: Stack)
    requires Before(s, t, Control(JoinLock(next)), rest) && s' == DoControl(s, t, JoinLock(next), rest)
    requires s.joinLock == None
    ensures Keeps(s, s', t)
  {
  }

  lemma JoinKeeps(s: State, s': State, t: nat, next: Then, rest: Stack)
    requires Before(s, t, Control(Join(next)), rest) && s' == DoControl(s, t, Join(next), rest)
    ensures Keeps(s, s', t)
  {
  }

  lemma WaitingKeeps(s: State, s': State, t: nat, next: Then, rest: Stack)
    requires Before(s, t, Control(Waiting(next)), rest) && s' == DoControl(s, t, Waiting(next), rest)
    requires next.Unsubscribed? ==> !s.active
    ensures Keeps(s, s', t)
  {
  }

  // ------------------------------------------------ new calls

  ghost predicate BeforeCall(s: State, t: nat) {
    && t < |s.threads| && MayCall(s, t)
    && BoxSound(s) && ShapeOf(s, t)
    && (s.policy.Isolated? && s.exited ==> s.mailbox.stopping && s.mailbox.events == [])
    && (IsExecutor(s, t) ==> ExecutorSound(s, s.threads[t]))
    && (s.active <==> !s.retirementStarted)
  }

  lemma OfferKeeps(s: State, s': State, t: nat, event: Event)
    requires BeforeCall(s, t)
    requires s' == Become(s, t, On(Offering(event), s.threads[t])).(metrics := s.metrics.(offered := s.metrics.offered + 1))
    ensures Keeps(s, s', t)
  {
  }

  lemma ControlCallKeeps(s: State, s': State, t: nat, c: ControlPoint)
    requires BeforeCall(s, t) && s' == Become(s, t, On(Control(c), s.threads[t]))
    requires c == Deactivate || (c.StopMailbox? && c.next == Return)
    ensures Keeps(s, s', t)
  {
  }

  lemma CallKeeps(s: State, s': State, step: Step)
    requires Inv(s) && Enabled(s, step) && !step.Advance? && s' == Do(s, step)
    ensures Keeps(s, s', step.thread)
  {
    var t := step.thread;
    assert ShapeOf(s, t);
    match step
    case Offer(_, event) => OfferKeeps(s, s', t, event);
    case Unsubscribe(_) => ControlCallKeeps(s, s', t, Deactivate);
    case Stop(_, drain) => ControlCallKeeps(s, s', t, StopMailbox(drain, Return));
  }

  // ------------------------------------------------ any step

  lemma InsideCounts(s: State, t: nat)
    requires Counted(s) && t < |s.threads|
    ensures InFlight(s.threads[t]) <= s.inFlight
    ensures s.policy.Serialized? && Entered(s.threads[t]) > 0 ==> s.serial.Some?
    ensures Ending(s.threads[t]) > 0 ==> !s.active
  {
    SumCovers(InFlight, s.threads, t);
    SumCovers(Entered, s.threads, t);
    SumCovers(Ending, s.threads, t);
  }

  lemma OfferingKeeps(s: State, s': State, t: nat, event: Event, throws: bool, rest: Stack)
    requires Before(s, t, Offering(event), rest) && s' == DoOffering(s, t, event, throws, rest)
    requires MayAdvance(s, t, Offering(event))
    ensures Keeps(s, s', t)
  {
    if !s.policy.Isolated? {
      DirectOfferKeeps(s, s', t, event, throws, rest);
    } else if !s.lossless && |s.mailbox.events| == s.capacity {
      DroppedOfferKeeps(s, s', t, event, throws, rest);
    } else if !s.mailbox.accepting || throws {
      RejectedOfferKeeps(s, s', t, event, throws, rest);
    } else {
      AcceptedOfferKeeps(s, s', t, event, rest);
    }
  }

  lemma InvocationKeeps(s: State, s': State, t: nat, i: InvocationPoint, throws: bool, rest: Stack)
    requires Before(s, t, Invocation(i), rest) && s' == DoInvocation(s, t, i, throws, rest)
    requires MayAdvance(s, t, Invocation(i)) && InFlight(s.threads[t]) <= s.inFlight
    requires s.policy.Serialized? && Entered(s.threads[t]) > 0 ==> s.serial.Some?
    ensures Keeps(s, s', t)
  {
    match i
    case Admitted(event) => AdmittedKeeps(s, s', t, event, rest);
    case Running(event) => RunningKeeps(s, s', t, event, throws, rest);
    case Counting => CountingKeeps(s, s', t, rest);
    case Leaving =>
      if s.policy.Serialized? {
        LeavingSeriallyKeeps(s, s', t, rest);
      } else {
        LeavingFreelyKeeps(s, s', t, rest);
      }
    case Unserial => UnserialKeeps(s, s', t, rest);
  }

  lemma ExecutorKeeps(s: State, s': State, t: nat, e: ExecutorPoint, rest: Stack)
    requires Before(s, t, Executor(e), rest) && s' == DoExecutor(s, t, e, rest)
    requires MayAdvance(s, t, Executor(e))
    ensures Keeps(s, s', t)
  {
    match e
    case Loop =>
      if s.mailbox.stopping && (!s.mailbox.drain || s.mailbox.events == []) {
        ExitKeeps(s, s', t, rest);
      } else {
        TakeKeeps(s, s', t, rest);
      }
    case Taken(event) => TakenKeeps(s, s', t, event, rest);
    case Dropping => DroppingKeeps(s, s', t, rest);
  }

  lemma ControlKeeps(s: State, s': State, t: nat, c: ControlPoint, rest: Stack)
    requires Before(s, t, Control(c), rest) && s' == DoControl(s, t, c, rest)
    requires MayControl(s, t, c)
    requires Ending(s.threads[t]) > 0 ==> !s.active
    ensures Keeps(s, s', t)
  {
    match c
    case Deactivate => DeactivateKeeps(s, s', t, rest);
    case Retire(self) => RetireKeeps(s, s', t, self, rest);
    case StopMailbox(drain, next) =>
      if !s.policy.Isolated? {
        StopDirectKeeps(s, s', t, drain, next, rest);
      } else if drain {
        StopAndDrainKeeps(s, s', t, next, rest);
      } else {
        StopAndClearKeeps(s, s', t, next, rest);
      }
    case JoinLock(next) => JoinLockKeeps(s, s', t, next, rest);
    case Join(next) => JoinKeeps(s, s', t, next, rest);
    case Waiting(next) => WaitingKeeps(s, s', t, next, rest);
  }

  lemma BeforeAdvance(s: State, t: nat)
    requires Inv(s) && t < |s.threads| && s.threads[t].On?
    ensures Before(s, t, s.threads[t].top, s.threads[t].rest)
    ensures InFlight(s.threads[t]) <= s.inFlight
    ensures s.policy.Serialized? && Entered(s.threads[t]) > 0 ==> s.serial.Some?
    ensures Ending(s.threads[t]) > 0 ==> !s.active
  {
    InsideCounts(s, t);
    assert ShapeOf(s, t);
  }

  lemma AdvanceKeeps(s: State, s': State, t: nat, top: Frame, throws: bool, rest: Stack)
    requires Before(s, t, top, rest) && MayAdvance(s, t, top) && s' == DoFrame(s, t, top, throws, rest)
    requires InFlight(s.threads[t]) <= s.inFlight
    requires s.policy.Serialized? && Entered(s.threads[t]) > 0 ==> s.serial.Some?
    requires Ending(s.threads[t]) > 0 ==> !s.active
    ensures Keeps(s, s', t)
  {
    match top
    case Offering(event) => OfferingKeeps(s, s', t, event, throws, rest);
    case Refusing => RefusingKeeps(s, s', t, rest);
    case Invocation(i) => InvocationKeeps(s, s', t, i, throws, rest);
    case Executor(e) => ExecutorKeeps(s, s', t, e, rest);
    case Control(c) => ControlKeeps(s, s', t, c, rest);
  }

  lemma StepKeeps(s: State, s': State, step: Step)
    requires Inv(s) && Enabled(s, step) && s' == Do(s, step)
    ensures Keeps(s, s', step.thread)
  {
    if step.Advance? {
      var t := step.thread;
      BeforeAdvance(s, t);
      AdvanceKeeps(s, s', t, s.threads[t].top, step.throws, s.threads[t].rest);
    } else {
      CallKeeps(s, s', step);
    }
  }

  lemma Weigh(threads: seq<Stack>, t: nat, k': Stack)
    requires t < |threads|
    ensures Sum(InFlight, threads[t := k']) + InFlight(threads[t]) == Sum(InFlight, threads) + InFlight(k')
    ensures Sum(InTransit, threads[t := k']) + InTransit(threads[t]) == Sum(InTransit, threads) + InTransit(k')
    ensures Sum(UnderWay, threads[t := k']) + UnderWay(threads[t]) == Sum(UnderWay, threads) + UnderWay(k')
    ensures Sum(CountingIn, threads[t := k']) + CountingIn(threads[t]) == Sum(CountingIn, threads) + CountingIn(k')
    ensures Sum(Retiring, threads[t := k']) + Retiring(threads[t]) == Sum(Retiring, threads) + Retiring(k')
    ensures Sum(Entered, threads[t := k']) + Entered(threads[t]) == Sum(Entered, threads) + Entered(k')
    ensures Sum(Ending, threads[t := k']) + Ending(threads[t]) == Sum(Ending, threads) + Ending(k')
  {
    SumUpdate(InFlight, threads, t, k');
    SumUpdate(InTransit, threads, t, k');
    SumUpdate(UnderWay, threads, t, k');
    SumUpdate(CountingIn, threads, t, k');
    SumUpdate(Retiring, threads, t, k');
    SumUpdate(Entered, threads, t, k');
    SumUpdate(Ending, threads, t, k');
  }

  lemma KeepsCounted(s: State, s': State, t: nat)
    requires Counted(s) && Keeps(s, s', t)
    ensures Counted(s')
  {
    Weigh(s.threads, t, s'.threads[t]);
    CountsAdd(s, s', t);
  }

  lemma CountsAdd(s: State, s': State, t: nat)
    requires Counted(s) && t < |s.threads| == |s'.threads| && s'.policy == s.policy
    requires CountsFollow(s, s', s.threads[t], s'.threads[t])
    requires Sum(InFlight, s'.threads) + InFlight(s.threads[t]) == Sum(InFlight, s.threads) + InFlight(s'.threads[t])
    requires Sum(InTransit, s'.threads) + InTransit(s.threads[t]) == Sum(InTransit, s.threads) + InTransit(s'.threads[t])
    requires Sum(UnderWay, s'.threads) + UnderWay(s.threads[t]) == Sum(UnderWay, s.threads) + UnderWay(s'.threads[t])
    requires Sum(CountingIn, s'.threads) + CountingIn(s.threads[t]) == Sum(CountingIn, s.threads) + CountingIn(s'.threads[t])
    requires Sum(Retiring, s'.threads) + Retiring(s.threads[t]) == Sum(Retiring, s.threads) + Retiring(s'.threads[t])
    requires Sum(Entered, s'.threads) + Entered(s.threads[t]) == Sum(Entered, s.threads) + Entered(s'.threads[t])
    requires Sum(Ending, s'.threads) + Ending(s.threads[t]) == Sum(Ending, s.threads) + Ending(s'.threads[t])
    ensures Counted(s')
  {
  }

  lemma KeepsShapes(s: State, s': State, t: nat)
    requires Inv(s) && Keeps(s, s', t)
    ensures forall u | 0 <= u < |s'.threads| :: ShapeOf(s', u)
  {
    forall u | 0 <= u < |s'.threads| && u != t
      ensures ShapeOf(s', u)
    {
      assert ShapeOf(s, u);
    }
  }

  lemma KeepsExecutor(s: State, s': State, t: nat)
    requires Inv(s) && Keeps(s, s', t) && s.policy.Isolated?
    ensures ExecutorSound(s', s'.threads[0])
  {
  }

  lemma KeepsLock(s: State, s': State, t: nat)
    requires t < |s.threads| == |s'.threads| && s'.threads == s.threads[t := s'.threads[t]]
    requires LockSound(s) && LockFollows(s, s', t, s.threads[t], s'.threads[t])
    ensures LockSound(s')
  {
    assert Joining(s.threads[t]) <==> s.joinLock == Some(t);
  }

  lemma StepKeepsInv(s: State, s': State, step: Step)
    requires Inv(s) && Enabled(s, step) && s' == Do(s, step)
    ensures Inv(s')
  {
    StepKeeps(s, s', step);
    KeepsCounted(s, s', step.thread);
    KeepsShapes(s, s', step.thread);
    if s.policy.Isolated? {
      KeepsExecutor(s, s', step.thread);
      KeepsLock(s, s', step.thread);
    }
  }

  lemma StartWeighsNothing(k: Stack)
    requires k.Nil? || AtLoop(k)
    ensures InFlight(k) == InTransit(k) == Retiring(k) == Entered(k) == Ending(k) == 0
    ensures UnderWay(k) == CountingIn(k) == 0
  {
  }

  lemma StartCounts(threads: seq<Stack>)
    requires forall t | 0 <= t < |threads| :: threads[t].Nil? || AtLoop(threads[t])
    ensures Sum(InFlight, threads) == Sum(InTransit, threads) == Sum(Retiring, threads) == 0
    ensures Sum(Entered, threads) == Sum(Ending, threads) == Sum(UnderWay, threads) == Sum(CountingIn, threads) == 0
  {
    forall t | 0 <= t < |threads|
      ensures InFlight(threads[t]) == InTransit(threads[t]) == Retiring(threads[t]) == 0
      ensures Entered(threads[t]) == Ending(threads[t]) == UnderWay(threads[t]) == CountingIn(threads[t]) == 0
    {
      StartWeighsNothing(threads[t]);
    }
    SumZero(InFlight, threads);
    SumZero(InTransit, threads);
    SumZero(Retiring, threads);
    SumZero(Entered, threads);
    SumZero(UnderWay, threads);
    SumZero(CountingIn, threads);
    SumZero(Ending, threads);
  }

  lemma StartShape(s: State, t: nat)
    requires t < |s.threads| && Starts(s, t)
    ensures ShapeOf(s, t) && (s.threads[t].Nil? || AtLoop(s.threads[t])) && !Joining(s.threads[t])
  {
  }

  lemma InitCounted(s: State)
    requires Init(s)
    ensures Counted(s)
  {
    forall t | 0 <= t < |s.threads|
      ensures s.threads[t].Nil? || AtLoop(s.threads[t])
    {
      assert Starts(s, t);
      StartShape(s, t);
    }
    StartCounts(s.threads);
  }

  lemma InitShapes(s: State)
    requires Init(s)
    ensures forall t | 0 <= t < |s.threads| :: ShapeOf(s, t)
    ensures BoxSound(s) && (s.policy.Isolated? ==> ExecutorSound(s, s.threads[0]) && LockSound(s))
  {
    forall t | 0 <= t < |s.threads|
      ensures ShapeOf(s, t) && !Joining(s.threads[t])
    {
      assert Starts(s, t);
      StartShape(s, t);
    }
    assert Starts(s, 0);
  }

  lemma InitInv(s: State)
    requires Init(s)
    ensures Inv(s)
  {
    InitCounted(s);
    InitShapes(s);
  }

  lemma NextKeepsInv(s: State, s': State)
    requires Inv(s) && Next(s, s')
    ensures Inv(s')
  {
    var step :| Enabled(s, step) && s' == Do(s, step);
    StepKeepsInv(s, s', step);
  }

  lemma StepAtKeepsInv(run: seq<State>, i: nat)
    requires IsRun(run) && 0 < i < |run| && Inv(run[i - 1])
    ensures Inv(run[i])
  {
    assert StepAt(run, i - 1);
    NextKeepsInv(run[i - 1], run[i]);
  }

  lemma {:induction false} RunKeepsInv(run: seq<State>, i: nat)
    requires IsRun(run) && i < |run|
    ensures Inv(run[i])
  {
    if i == 0 {
      InitInv(run[i]);
    } else {
      RunKeepsInv(run, i - 1);
      StepAtKeepsInv(run, i);
    }
  }
}
