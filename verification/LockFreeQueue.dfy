/** The lock-free queue as a concurrent state machine over two abstract index rings.

    A ring is a FIFO sequence of indices whose operations are atomic; its dequeue may answer empty
    although the ring is not, because the SCQ ring may do so.  It may not if no operation that could
    be in the middle of an enqueue on that ring is under way, and there never were more than 2n
    dequeuers on it at once: this is what ScqAlone.ThresholdAnswerIsJustified and
    ScqTheorems.EmptyAnswerIsJustified prove of the SCQ ring, and the runs of ScqStranding show that
    some such bound is needed.  One step of one thread is one atomic operation, one ring operation, or
    one action on an event slot. */
module LockFreeQueue {
  import opened Wrappers
  import opened Tally

  /** Events are told apart by number. */
  type Event = nat

  /** A gate word: the closed bit and the number of operations inside. */
  datatype Gate = Gate(closed: bool, active: nat)

  /** What a call answers.  The ticket of a popped event is history, as in the control points. */
  datatype Outcome =
    | Success | Full | Threw | Closed | Empty
    | Popped(event: Event, ticket: nat)
    | Discarded(count: nat)

  datatype Operation = Push(event: Event) | Pop

  /** Inside the producer gate. */
  datatype ProducerPoint =
    | Reserve(event: Event)
    | Construct(event: Event, slot: nat)
    | PutBack(slot: nat)
    | CountUp(slot: nat)
    | Publish(slot: nat)
    | LeaveProducer(outcome: Outcome)

  /** Inside the consumer gate.  `ticket` is the position of an event in the order of acceptance. */
  datatype ConsumerPoint =
    | Claim
    | CheckQuiesced
    | MoveOut(slot: nat, ticket: nat)
    | Destroy(slot: nat, ticket: nat, event: Event)
    | CountDown(slot: nat, ticket: nat, event: Event)
    | Release(slot: nat, ticket: nat, event: Event)
    | LeaveConsumer(outcome: Outcome)

  /** Under `close_mutex_`. */
  datatype CloserPoint =
    | CloseProducers(discard: bool)
    | WaitProducers(discard: bool)
    | Quiesce(discard: bool)
    | CloseConsumers
    | WaitConsumers
    | Sweep(count: nat)
    | SweepDestroy(slot: nat, ticket: nat, count: nat)
    | SweepCountDown(slot: nat, count: nat)
    | SweepRelease(slot: nat, count: nat)
    | Unlock(outcome: Outcome)

  /** The control point of a thread with its local variables. */
  datatype Local =
    | Idle
    | Done(outcome: Outcome)
    | GateLoad(op: Operation)
    | GateSwap(op: Operation, seen: Gate)
    | Producer(p: ProducerPoint)
    | Consumer(c: ConsumerPoint)
    | Lock(discard: bool)
    | Closer(k: CloserPoint)

  /** What became of an accepted event that has left the published ring. */
  datatype Fate = InHand | Delivered | Dropped

  /** The queue, its threads, and the history: the events in the order of acceptance, the fate of
      those that left the published ring, the pops and discards, the discards that finished calls have
      reported, the most consumers and the most producers that were ever inside at once, and whether a
      slot or the occupied count was ever misused or a discard has finished. */
  datatype State = State(
    capacity: nat,
    available: seq<nat>,
    published: seq<nat>,
    slots: seq<Option<Event>>,
    occupied: nat,
    producers: Gate,
    consumers: Gate,
    quiesced: bool,
    lock: Option<nat>,
    threads: seq<Local>,
    accepted: seq<Event>,
    fate: seq<Fate>,
    pops: nat,
    discards: nat,
    reported: nat,
    mostConsumers: nat,
    mostProducers: nat,
    fault: bool,
    swept: bool)

  datatype Step =
    | StartPush(thread: nat, event: Event)
    | StartPop(thread: nat)
    | StartClose(thread: nat, discard: bool)
    /** `unlucky`: the exchange fails spuriously, the ring answers empty, or the constructor throws. */
    | Advance(thread: nat, unlucky: bool)

  predicate Init(s: State) {
    && s.available == Count(s.capacity) && s.published == []
    && s.slots == seq(s.capacity, _ => None)
    && s.occupied == 0
    && s.producers == Gate(false, 0) && s.consumers == Gate(false, 0)
    && !s.quiesced && s.lock == None
    && (forall t | 0 <= t < |s.threads| :: s.threads[t] == Idle)
    && s.accepted == [] && s.fate == [] && s.pops == 0 && s.discards == 0 && s.reported == 0 && s.mostConsumers == 0 && s.mostProducers == 0
    && !s.fault && !s.swept
  }

  function Goto(s: State, t: nat, l: Local): State
    requires t < |s.threads|
  {
    s.(threads := s.threads[t := l])
  }

  predicate Resting(l: Local) {
    l.Idle? || l.Done?
  }

  /** When the step of a thread may be unlucky: a ring answers empty without reason only while
      something is being put into it, or after too many dequeuers. */
  predicate MayBeUnlucky(s: State, l: Local) {
    match l
    case Producer(p) =>
      p.Reserve? ==> s.producers.active > 1 || s.consumers.active > 0 || s.mostProducers > 2 * s.capacity
    case Consumer(c) => c.Claim? ==> s.producers.active > 0 || s.mostConsumers > 2 * s.capacity
    case Closer(k) => k.Sweep? ==> s.mostConsumers > 2 * s.capacity
    case _ => true
  }

  predicate Enabled(s: State, step: Step) {
    && step.thread < |s.threads|
    && var l := s.threads[step.thread];
       if step.Advance? then
         && !Resting(l)
         && (l.Lock? ==> s.lock == None)
         && (step.unlucky ==> MayBeUnlucky(s, l))
         && (l.Closer? && l.k.WaitProducers? ==> s.producers.active == 0)
         && (l.Closer? && l.k.WaitConsumers? ==> s.consumers.active == 0)
       else
         Resting(l)
  }

  /** The constructor of `operation_guard`: load the gate, then swap until in or closed. */
  function GateOf(s: State, op: Operation): Gate {
    if op.Push? then s.producers else s.consumers
  }

  function DoGate(s: State, t: nat, unlucky: bool): State
    requires t < |s.threads| && (s.threads[t].GateLoad? || s.threads[t].GateSwap?)
  {
    var l := s.threads[t];
    var gate := GateOf(s, l.op);
    if l.GateLoad? || gate != l.seen || unlucky then
      Goto(s, t, if gate.closed then Done(Closed) else GateSwap(l.op, gate))
    else
      match l.op
      case Push(event) =>
        Goto(s, t, Producer(Reserve(event)))
        .(producers := gate.(active := gate.active + 1), mostProducers := Most(s.mostProducers, gate.active + 1))
      case Pop =>
        Goto(s, t, Consumer(Claim))
        .(consumers := gate.(active := gate.active + 1), mostConsumers := Most(s.mostConsumers, gate.active + 1))
  }

  function Most(a: nat, b: nat): nat {
    if a < b then b else a
  }

  predicate Live(s: State, slot: nat) {
    slot < |s.slots| && s.slots[slot].Some?
  }

  function Contents(s: State, slot: nat): Event {
    if Live(s, slot) then s.slots[slot].value else 0
  }

  function WithSlot(slots: seq<Option<Event>>, slot: nat, value: Option<Event>): seq<Option<Event>> {
    if slot < |slots| then slots[slot := value] else slots
  }

  /** An accepted event leaves the queue, once. */
  predicate Unsettled(fate: seq<Fate>, ticket: nat) {
    ticket < |fate| && fate[ticket] == InHand
  }

  function Settle(fate: seq<Fate>, ticket: nat, end: Fate): seq<Fate> {
    if ticket < |fate| then fate[ticket := end] else fate
  }

  function CountDownOne(occupied: nat): nat {
    if occupied == 0 then 0 else occupied - 1
  }

  function LeaveGate(gate: Gate): Gate {
    if gate.active == 0 then gate else gate.(active := gate.active - 1)
  }

  function DoProducer(s: State, t: nat, unlucky: bool): State
    requires t < |s.threads| && s.threads[t].Producer?
  {
    match s.threads[t].p
    case Reserve(event) =>
      if s.available == [] || unlucky then Goto(s, t, Producer(LeaveProducer(Full)))
      else Goto(s, t, Producer(Construct(event, s.available[0]))).(available := s.available[1..])
    case Construct(event, slot) =>
      if unlucky then Goto(s, t, Producer(PutBack(slot)))
      else
        Goto(s, t, Producer(CountUp(slot)))
        .(slots := WithSlot(s.slots, slot, Some(event)), fault := s.fault || slot >= |s.slots| || Live(s, slot))
    case PutBack(slot) =>
      Goto(s, t, Producer(LeaveProducer(Threw))).(available := s.available + [slot])
    case CountUp(slot) =>
      Goto(s, t, Producer(Publish(slot))).(occupied := s.occupied + 1)
    case Publish(slot) =>
      Goto(s, t, Producer(LeaveProducer(Success)))
      .(published := s.published + [slot], accepted := s.accepted + [Contents(s, slot)],
        fault := s.fault || !Live(s, slot))
    case LeaveProducer(outcome) =>
      Goto(s, t, Done(outcome)).(producers := LeaveGate(s.producers))
  }

  function DoConsumer(s: State, t: nat, unlucky: bool): State
    requires t < |s.threads| && s.threads[t].Consumer?
  {
    match s.threads[t].c
    case Claim =>
      if s.published == [] || unlucky then Goto(s, t, Consumer(CheckQuiesced))
      else Goto(s, t, Consumer(MoveOut(s.published[0], |s.fate|))).(published := s.published[1..], fate := s.fate + [InHand])
    case CheckQuiesced =>
      Goto(s, t, Consumer(LeaveConsumer(if s.quiesced then Closed else Empty)))
    case MoveOut(slot, ticket) =>
      Goto(s, t, Consumer(Destroy(slot, ticket, Contents(s, slot)))).(fault := s.fault || !Live(s, slot))
    case Destroy(slot, ticket, event) =>
      Goto(s, t, Consumer(CountDown(slot, ticket, event)))
      .(slots := WithSlot(s.slots, slot, None), fate := Settle(s.fate, ticket, Delivered), pops := s.pops + 1,
        fault := s.fault || !Live(s, slot) || !Unsettled(s.fate, ticket))
    case CountDown(slot, ticket, event) =>
      Goto(s, t, Consumer(Release(slot, ticket, event))).(occupied := CountDownOne(s.occupied), fault := s.fault || s.occupied == 0)
    case Release(slot, ticket, event) =>
      Goto(s, t, Consumer(LeaveConsumer(Popped(event, ticket)))).(available := s.available + [slot])
    case LeaveConsumer(outcome) =>
      Goto(s, t, Done(outcome)).(consumers := LeaveGate(s.consumers))
  }

  /** `close` and `close_and_discard`, under `close_mutex_`. */
  function DoCloser(s: State, t: nat, unlucky: bool): State
    requires t < |s.threads| && s.threads[t].Closer?
  {
    match s.threads[t].k
    case CloseProducers(discard) =>
      Goto(s, t, Closer(WaitProducers(discard))).(producers := s.producers.(closed := true))
    case WaitProducers(discard) =>
      Goto(s, t, Closer(Quiesce(discard)))
    case Quiesce(discard) =>
      Goto(s, t, Closer(if discard then CloseConsumers else Unlock(Success))).(quiesced := true)
    case CloseConsumers =>
      Goto(s, t, Closer(WaitConsumers)).(consumers := s.consumers.(closed := true))
    case WaitConsumers =>
      Goto(s, t, Closer(Sweep(0)))
    case Sweep(count) =>
      if s.published == [] || unlucky then Goto(s, t, Closer(Unlock(Discarded(count))))
      else
        Goto(s, t, Closer(SweepDestroy(s.published[0], |s.fate|, count)))
        .(published := s.published[1..], fate := s.fate + [InHand])
    case SweepDestroy(slot, ticket, count) =>
      Goto(s, t, Closer(SweepCountDown(slot, count)))
      .(slots := WithSlot(s.slots, slot, None), fate := Settle(s.fate, ticket, Dropped), discards := s.discards + 1,
        fault := s.fault || !Live(s, slot) || !Unsettled(s.fate, ticket))
    case SweepCountDown(slot, count) =>
      Goto(s, t, Closer(SweepRelease(slot, count))).(occupied := CountDownOne(s.occupied), fault := s.fault || s.occupied == 0)
    case SweepRelease(slot, count) =>
      Goto(s, t, Closer(Sweep(count + 1))).(available := s.available + [slot])
    case Unlock(outcome) =>
      Goto(s, t, Done(outcome))
      .(lock := None, swept := s.swept || outcome.Discarded?,
        reported := if outcome.Discarded? then s.reported + outcome.count else s.reported)
  }

  function Do(s: State, step: Step): State
    requires Enabled(s, step)
  {
    match step
    case StartPush(t, event) => Goto(s, t, GateLoad(Push(event)))
    case StartPop(t) => Goto(s, t, GateLoad(Pop))
    case StartClose(t, discard) => Goto(s, t, Lock(discard))
    case Advance(t, unlucky) =>
      match s.threads[t]
      case Producer(_) => DoProducer(s, t, unlucky)
      case Consumer(_) => DoConsumer(s, t, unlucky)
      case Closer(_) => DoCloser(s, t, unlucky)
      case Lock(discard) => Goto(s, t, Closer(CloseProducers(discard))).(lock := Some(t))
      case GateLoad(_) => DoGate(s, t, unlucky)
      case GateSwap(_, _) => DoGate(s, t, unlucky)
  }

  ghost predicate Next(s: State, s': State) {
    exists step :: Enabled(s, step) && s' == Do(s, step)
  }

  ghost predicate StepAt(run: seq<State>, i: nat)
    requires i + 1 < |run|
  {
    Next(run[i], run[i + 1])
  }

  ghost predicate IsRun(run: seq<State>) {
    && run != []
    && Init(run[0])
    && forall i: nat | i + 1 < |run| :: StepAt(run, i)
  }
}
