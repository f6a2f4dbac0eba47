/** What every step of the lock-free queue keeps. */
module LockFreeSafety {
  import opened Wrappers
  import opened Tally
  import opened LockFreeQueue

  // ---------------------------------------------------------------- what a thread holds

  /** The index in the hands of a thread. */
  function SlotOf(l: Local): Option<nat> {
    match l
    case Producer(p) =>
      if p.Construct? || p.PutBack? || p.CountUp? || p.Publish? then Some(p.slot) else None
    case Consumer(c) =>
      if c.MoveOut? || c.Destroy? || c.CountDown? || c.Release? then Some(c.slot) else None
    case Closer(k) =>
      if k.SweepDestroy? || k.SweepCountDown? || k.SweepRelease? then Some(k.slot) else None
    case _ => None
  }

  function Hand(l: Local): multiset<nat> {
    match SlotOf(l)
    case Some(slot) => multiset{slot}
    case None => multiset{}
  }

  function Producing(l: Local): nat {
    if l.Producer? then 1 else 0
  }

  function Consuming(l: Local): nat {
    if l.Consumer? then 1 else 0
  }

  /** The position of the event in the hands of a thread, in the order of acceptance. */
  function TicketOf(l: Local): Option<nat> {
    match l
    case Consumer(c) => if c.MoveOut? || c.Destroy? then Some(c.ticket) else None
    case Closer(k) => if k.SweepDestroy? then Some(k.ticket) else None
    case _ => None
  }

  function Carrying(l: Local): nat {
    if TicketOf(l).Some? then 1 else 0
  }

  /** A thread has counted its own slot as occupied. */
  function Occupying(l: Local): nat {
    match l
    case Producer(p) => if p.Publish? then 1 else 0
    case Consumer(c) => if c.MoveOut? || c.Destroy? || c.CountDown? then 1 else 0
    case Closer(k) => if k.SweepDestroy? || k.SweepCountDown? then 1 else 0
    case _ => 0
  }

  datatype Answer = Answer(event: Event, ticket: nat)

  function AnswerIn(outcome: Outcome): Option<Answer> {
    if outcome.Popped? then Some(Answer(outcome.event, outcome.ticket)) else None
  }

  /** The event that a pop has taken out and will answer, or has answered. */
  function AnswerOf(l: Local): Option<Answer> {
    match l
    case Producer(p) => if p.LeaveProducer? then AnswerIn(p.outcome) else None
    case Consumer(c) =>
      if c.CountDown? || c.Release? then Some(Answer(c.event, c.ticket))
      else if c.LeaveConsumer? then AnswerIn(c.outcome)
      else None
    case Closer(k) => if k.Unlock? then AnswerIn(k.outcome) else None
    case Done(outcome) => AnswerIn(outcome)
    case _ => None
  }

  /** The slot in the hands of a thread holds an event. */
  predicate HasEvent(l: Local) {
    TicketOf(l).Some? || (l.Producer? && (l.p.CountUp? || l.p.Publish?))
  }

  // ---------------------------------------------------------------- the invariant

  /** Each index is in exactly one place: a ring, or the hands of one thread. */
  ghost predicate Conserved(s: State) {
    multiset(s.available) + multiset(s.published) + Bag(Hand, s.threads) == Range(s.capacity)
  }

  ghost predicate Counted(s: State) {
    && s.occupied == |s.published| + Sum(Occupying, s.threads)
    && s.producers.active == Sum(Producing, s.threads)
    && s.consumers.active == Sum(Consuming, s.threads)
    && |s.fate| == s.pops + s.discards + Sum(Carrying, s.threads)
  }

  /** The slots in the published ring hold the accepted events that have not left it, in order;
      the slots in the available ring hold none. */
  ghost predicate RingsSound(s: State) {
    && |s.slots| == s.capacity
    && (forall j | 0 <= j < |s.available| :: s.available[j] < s.capacity && s.slots[s.available[j]] == None)
    && |s.accepted| == |s.fate| + |s.published|
    && (forall j | 0 <= j < |s.published| ::
          s.published[j] < s.capacity && s.slots[s.published[j]] == Some(s.accepted[|s.fate| + j]))
  }

  ghost predicate HandSound(s: State, l: Local) {
    && (SlotOf(l).Some? ==>
          && SlotOf(l).value < |s.slots|
          && (s.slots[SlotOf(l).value].Some? <==> HasEvent(l)))
    && (TicketOf(l).Some? ==>
          && var k := TicketOf(l).value;
          && k < |s.fate| <= |s.accepted| && s.fate[k] == InHand
          && SlotOf(l).Some? && s.slots[SlotOf(l).value] == Some(s.accepted[k])
          && (l.Consumer? && l.c.Destroy? ==> l.c.event == s.accepted[k]))
    && (AnswerOf(l).Some? ==> Answered(s, AnswerOf(l).value))
  }

  ghost predicate Answered(s: State, a: Answer) {
    a.ticket < |s.fate| <= |s.accepted| && s.fate[a.ticket] == Delivered && s.accepted[a.ticket] == a.event
  }

  ghost predicate HandsSound(s: State) {
    && (forall t | 0 <= t < |s.threads| :: HandSound(s, s.threads[t]))
    && (forall t, u | 0 <= t < u < |s.threads| && TicketOf(s.threads[t]).Some? ::
          TicketOf(s.threads[t]) != TicketOf(s.threads[u]))
    && (forall t, u | 0 <= t < u < |s.threads| && AnswerOf(s.threads[t]).Some? && AnswerOf(s.threads[u]).Some? ::
          AnswerOf(s.threads[t]).value.ticket != AnswerOf(s.threads[u]).value.ticket)
  }

  ghost predicate Shut(g: Gate) {
    g == Gate(true, 0)
  }

  ghost predicate CloserSound(s: State, k: CloserPoint) {
    match k
    case CloseProducers(_) => AllReported(s)
    case WaitProducers(_) => s.producers.closed && AllReported(s)
    case Quiesce(_) => Shut(s.producers) && AllReported(s)
    case CloseConsumers => s.quiesced && AllReported(s)
    case WaitConsumers => s.quiesced && s.consumers.closed && AllReported(s)
    case Sweep(count) => Sweepable(s) && s.discards == s.reported + count && (s.swept ==> count == 0 || Crowded(s))
    case SweepDestroy(_, _, count) => Sweepable(s) && s.discards == s.reported + count && (s.swept ==> Crowded(s))
    case SweepCountDown(_, count) => Sweepable(s) && s.discards == s.reported + count + 1 && (s.swept ==> Crowded(s))
    case SweepRelease(_, count) => Sweepable(s) && s.discards == s.reported + count + 1 && (s.swept ==> Crowded(s))
    case Unlock(outcome) =>
      if outcome.Discarded? then
        && Sweepable(s) && SweptClean(s) && s.discards == s.reported + outcome.count
        && (s.swept ==> outcome.count == 0 || Crowded(s))
      else AllReported(s)
  }

  ghost predicate Sweepable(s: State) {
    s.quiesced && Shut(s.consumers)
  }

  /** There were once more consumers inside than the ring allows for. */
  ghost predicate Crowded(s: State) {
    s.mostConsumers > 2 * s.capacity
  }

  /** Every discard is in the answer of a call that has finished. */
  ghost predicate AllReported(s: State) {
    s.discards == s.reported
  }

  /** A sweep leaves nothing, unless there were too many consumers. */
  ghost predicate SweptClean(s: State) {
    s.published == [] || Crowded(s)
  }

  ghost predicate PhaseSound(s: State, l: Local) {
    match l
    case GateSwap(_, seen) => !seen.closed
    case Closer(k) => CloserSound(s, k)
    case _ => true
  }

  /** What holds once quiesced, once swept, and while nobody is closing. */
  ghost predicate Lasting(s: State) {
    && (s.quiesced ==> Shut(s.producers))
    && (s.swept ==> s.quiesced && Shut(s.consumers) && SweptClean(s))
    && (s.consumers.closed ==> s.quiesced)
    && (s.lock == None ==> AllReported(s))
  }

  /** Between closing the producer gate and declaring quiescence. */
  predicate Quiescing(l: Local) {
    l.Closer? && (l.k.WaitProducers? || l.k.Quiesce?)
  }

  /** A closed gate that is not quiesced yet has somebody who will see to it. */
  ghost predicate CloserAtWork(s: State) {
    s.producers.closed && !s.quiesced ==>
      s.lock.Some? && s.lock.value < |s.threads| && Quiescing(s.threads[s.lock.value])
  }

  ghost predicate Closing(s: State) {
    && CloserAtWork(s)
    && (forall t | 0 <= t < |s.threads| :: s.threads[t].Closer? <==> s.lock == Some(t))
    && Lasting(s)
    && (forall t | 0 <= t < |s.threads| :: PhaseSound(s, s.threads[t]))
  }

  ghost predicate Inv(s: State) {
    && !s.fault
    && Conserved(s)
    && Counted(s)
    && RingsSound(s)
    && HandsSound(s)
    && Closing(s)
  }

  lemma InitConserved(s: State)
    requires Init(s)
    ensures Conserved(s)
  {
    CountIsRange(s.capacity);
    BagEmpty(Hand, s.threads);
  }

  lemma IdleCounts(threads: seq<Local>)
    requires forall t | 0 <= t < |threads| :: threads[t] == Idle
    ensures Sum(Occupying, threads) == Sum(Producing, threads) == Sum(Consuming, threads) == Sum(Carrying, threads) == 0
  {
    SumZero(Occupying, threads);
    SumZero(Producing, threads);
    SumZero(Consuming, threads);
    SumZero(Carrying, threads);
  }

  lemma InitInv(s: State)
    requires Init(s)
    ensures Inv(s)
  {
    InitConserved(s);
    IdleCounts(s.threads);
    assert HandsSound(s) && Closing(s);
  }

  // ---------------------------------------------------------------- consequences of conservation

  lemma HandsApart(s: State, t: nat, u: nat)
    requires Conserved(s) && t < |s.threads| && u < |s.threads| && t != u
    requires SlotOf(s.threads[t]).Some?
    ensures SlotOf(s.threads[t]) != SlotOf(s.threads[u])
  {
    if t < u {
      BagCoversTwo(Hand, s.threads, t, u);
    } else {
      BagCoversTwo(Hand, s.threads, u, t);
    }
    var x := SlotOf(s.threads[t]).value;
    assert Bag(Hand, s.threads)[x] <= Range(s.capacity)[x] <= 1;
    assert (Hand(s.threads[t]) + Hand(s.threads[u]))[x] <= 1;
  }

  lemma HandOutsideRings(s: State, t: nat)
    requires Conserved(s) && t < |s.threads| && SlotOf(s.threads[t]).Some?
    ensures var x := SlotOf(s.threads[t]).value; x < s.capacity && x !in s.available && x !in s.published
  {
    BagCovers(Hand, s.threads, t);
    var x := SlotOf(s.threads[t]).value;
    assert Range(s.capacity)[x] == multiset(s.available)[x] + multiset(s.published)[x] + Bag(Hand, s.threads)[x];
    assert Bag(Hand, s.threads)[x] >= 1;
    assert x in s.available ==> multiset(s.available)[x] >= 1;
    assert x in s.published ==> multiset(s.published)[x] >= 1;
  }

  /** Neither ring ever holds more than all the indices, and none of them twice. */
  lemma RingsFit(s: State)
    requires Conserved(s)
    ensures |s.available| + |s.published| <= s.capacity
  {
    assert |Range(s.capacity)| == |multiset(s.available)| + |multiset(s.published)| + |Bag(Hand, s.threads)|;
  }

  // ---------------------------------------------------------------- one step

  lemma Tallies(s: State, s': State, t: nat)
    requires t < |s.threads| == |s'.threads| && s'.threads == s.threads[t := s'.threads[t]]
    ensures Sum(Occupying, s'.threads) + Occupying(s.threads[t]) == Sum(Occupying, s.threads) + Occupying(s'.threads[t])
    ensures Sum(Producing, s'.threads) + Producing(s.threads[t]) == Sum(Producing, s.threads) + Producing(s'.threads[t])
    ensures Sum(Consuming, s'.threads) + Consuming(s.threads[t]) == Sum(Consuming, s.threads) + Consuming(s'.threads[t])
    ensures Sum(Carrying, s'.threads) + Carrying(s.threads[t]) == Sum(Carrying, s.threads) + Carrying(s'.threads[t])
  {
    var l := s'.threads[t];
    SumUpdate(Occupying, s.threads, t, l);
    SumUpdate(Producing, s.threads, t, l);
    SumUpdate(Consuming, s.threads, t, l);
    SumUpdate(Carrying, s.threads, t, l);
  }

  /** The slot in the hands of thread t may be written without touching anybody else's. */
  lemma OwnSlot(s: State, t: nat)
    requires Conserved(s) && t < |s.threads| && SlotOf(s.threads[t]).Some?
    ensures var x := SlotOf(s.threads[t]).value;
            && x < s.capacity
            && (forall j | 0 <= j < |s.available| :: s.available[j] != x)
            && (forall j | 0 <= j < |s.published| :: s.published[j] != x)
            && (forall u | 0 <= u < |s.threads| && u != t :: SlotOf(s.threads[u]) != Some(x))
  {
    HandOutsideRings(s, t);
    forall u | 0 <= u < |s.threads| && u != t
      ensures SlotOf(s.threads[u]) != SlotOf(s.threads[t])
    {
      HandsApart(s, t, u);
    }
  }

  lemma InsideCounts(s: State, t: nat)
    requires Counted(s) && t < |s.threads|
    ensures s.threads[t].Producer? ==> s.producers.active > 0
    ensures s.threads[t].Consumer? ==> s.consumers.active > 0
    ensures Occupying(s.threads[t]) == 1 ==> s.occupied > 0
  {
    SumCovers(Producing, s.threads, t);
    SumCovers(Consuming, s.threads, t);
    SumCovers(Occupying, s.threads, t);
  }

  // ------------------------------------------------ conservation

  /** How an index moves in a step: not at all, or between a ring and the hands of the thread. */
  datatype Move = Stay | Reserved | Claimed | Returned | Published

  ghost predicate Moves(s: State, s': State, t: nat, move: Move) {
    && t < |s.threads| == |s'.threads| && s'.threads == s.threads[t := s'.threads[t]] && s'.capacity == s.capacity
    && Shifts(s.available, s.published, SlotOf(s.threads[t]), s'.available, s'.published, SlotOf(s'.threads[t]), move)
  }

  ghost predicate Shifts(a: seq<nat>, p: seq<nat>, x: Option<nat>, a': seq<nat>, p': seq<nat>, x': Option<nat>, move: Move)
  {
    match move
    case Stay => x' == x && a' == a && p' == p
    case Reserved => x == None && a != [] && x' == Some(a[0]) && a' == a[1..] && p' == p
    case Claimed => x == None && p != [] && x' == Some(p[0]) && a' == a && p' == p[1..]
    case Returned => x.Some? && x' == None && a' == a + [x.value] && p' == p
    case Published => x.Some? && x' == None && a' == a && p' == p + [x.value]
  }

  function Singleton(x: Option<nat>): multiset<nat> {
    match x case Some(v) => multiset{v} case None => multiset{}
  }

  /** What is in two rings and one hand does not change in a move. */
  lemma ShiftsConserve(a: seq<nat>, p: seq<nat>, x: Option<nat>, a': seq<nat>, p': seq<nat>, x': Option<nat>, move: Move)
    requires Shifts(a, p, x, a', p', x', move)
    ensures multiset(a') + multiset(p') + Singleton(x') == multiset(a) + multiset(p) + Singleton(x)
  {
    match move
    case Stay =>
    case Reserved => assert a == [a[0]] + a';
    case Claimed => assert p == [p[0]] + p';
    case Returned => assert multiset(a') == multiset(a) + multiset{x.value};
    case Published => assert multiset(p') == multiset(p) + multiset{x.value};
  }

  lemma Cancel(m: multiset<nat>, bag: multiset<nat>, h: multiset<nat>, m': multiset<nat>, bag': multiset<nat>, h': multiset<nat>)
    requires m' + h' == m + h && bag' + h == bag + h'
    ensures m' + bag' == m + bag
  {
    forall v: nat
      ensures m'[v] + bag'[v] == m[v] + bag[v]
    {
      assert (m' + h')[v] == (m + h)[v] && (bag' + h)[v] == (bag + h')[v];
    }
    assert forall v: nat :: (m' + bag')[v] == (m + bag)[v];
  }

  lemma MovesConserve(s: State, s': State, t: nat, move: Move)
    requires Conserved(s) && Moves(s, s', t, move)
    ensures Conserved(s')
  {
    BagUpdate(Hand, s.threads, t, s'.threads[t]);
    ShiftsConserve(s.available, s.published, SlotOf(s.threads[t]), s'.available, s'.published, SlotOf(s'.threads[t]), move);
    Cancel(multiset(s.available) + multiset(s.published), Bag(Hand, s.threads), Hand(s.threads[t]),
           multiset(s'.available) + multiset(s'.published), Bag(Hand, s'.threads), Hand(s'.threads[t]));
  }

  // ------------------------------------------------ the effect of a step

  ghost predicate At(s: State, t: nat, l: Local) {
    t < |s.threads| && s.threads[t] == l
  }

  /** The tallies follow the thread that moved. */
  ghost predicate CountsFollow(s: State, s': State, l: Local, l': Local) {
    && s'.occupied + |s.published| + Occupying(l) == s.occupied + |s'.published| + Occupying(l')
    && s'.producers.active + Producing(l) == s.producers.active + Producing(l')
    && s'.consumers.active + Consuming(l) == s.consumers.active + Consuming(l')
  }

  /** Only the thread's own slot is written. */
  ghost predicate SlotsFollow(s: State, s': State, l: Local) {
    && |s'.slots| == |s.slots|
    && forall x: nat | x < |s.slots| && Some(x) != SlotOf(l) :: s'.slots[x] == s.slots[x]
  }

  /** Only the thread's own event is settled, as popped or discarded; claiming one opens a new entry. */
  ghost predicate FateFollows(s: State, s': State, l: Local, l': Local, move: Move) {
    if TicketOf(l).Some? && TicketOf(l').None? then
      && move != Claimed && TicketOf(l).value < |s.fate|
      && s'.fate == s.fate[TicketOf(l).value := if l.Consumer? then Delivered else Dropped]
      && s'.pops == (if l.Consumer? then s.pops + 1 else s.pops)
      && s'.discards == (if l.Consumer? then s.discards else s.discards + 1)
    else
      && s'.pops == s.pops && s'.discards == s.discards
      && if move == Claimed then s'.fate == s.fate + [InHand] && TicketOf(l') == Some(|s.fate|) && TicketOf(l).None?
         else s'.fate == s.fate && TicketOf(l') == TicketOf(l)
  }

  ghost predicate AcceptedFollow(s: State, s': State, l: Local, move: Move) {
    match SlotOf(l)
    case Some(slot) => s'.accepted == if move == Published then s.accepted + [Contents(s, slot)] else s.accepted
    case None => s'.accepted == s.accepted
  }

  /** What is released to a ring is left alone: empty if it becomes available, live if published. */
  ghost predicate ReleaseFollows(s: State, s': State, l: Local, move: Move) {
    && (move == Returned ==> !HasEvent(l) && s'.slots == s.slots)
    && (move == Published ==> HasEvent(l) && s'.slots == s.slots)
  }

  /** An answer is kept, given up, or the event that the thread had in hand. */
  ghost predicate AnswerFollows(l: Local, l': Local) {
    AnswerOf(l').Some? ==> AnswerOf(l') == AnswerOf(l) || TicketOf(l) == Some(AnswerOf(l').value.ticket)
  }

  ghost predicate Effect(s: State, s': State, t: nat, move: Move) {
    && Moves(s, s', t, move)
    && CountsFollow(s, s', s.threads[t], s'.threads[t])
    && SlotsFollow(s, s', s.threads[t])
    && FateFollows(s, s', s.threads[t], s'.threads[t], move)
    && AcceptedFollow(s, s', s.threads[t], move)
    && ReleaseFollows(s, s', s.threads[t], move)
    && AnswerFollows(s.threads[t], s'.threads[t])
    && !s'.fault
  }

  lemma EffectCounts(s: State, s': State, t: nat, move: Move)
    requires Counted(s) && Effect(s, s', t, move)
    ensures Counted(s')
  {
    Tallies(s, s', t);
  }

  ghost predicate OutsideRings(s: State, l: Local) {
    SlotOf(l).Some? ==>
      && (forall j | 0 <= j < |s.available| :: s.available[j] != SlotOf(l).value)
      && (forall j | 0 <= j < |s.published| :: s.published[j] != SlotOf(l).value)
  }

  lemma EffectAvailable(s: State, s': State, t: nat, move: Move)
    requires Effect(s, s', t, move) && RingsSound(s) && OutsideRings(s, s.threads[t]) && HandSound(s, s.threads[t])
    ensures forall j | 0 <= j < |s'.available| :: s'.available[j] < s'.capacity && s'.slots[s'.available[j]] == None
  {
  }

  lemma EffectPublished(s: State, s': State, t: nat, move: Move)
    requires Effect(s, s', t, move) && RingsSound(s) && OutsideRings(s, s.threads[t]) && HandSound(s, s.threads[t])
    ensures |s'.accepted| == |s'.fate| + |s'.published|
    ensures forall j | 0 <= j < |s'.published| ::
              s'.published[j] < s'.capacity && s'.slots[s'.published[j]] == Some(s'.accepted[|s'.fate| + j])
  {
  }

  /** The event or the answer of another thread is not disturbed. */
  lemma HandStays(s: State, s': State, t: nat, move: Move, l: Local)
    requires Effect(s, s', t, move) && HandSound(s, s.threads[t]) && HandSound(s, l) && RingsSound(s) && RingsSound(s')
    requires SlotOf(s.threads[t]).Some? ==> SlotOf(l) != SlotOf(s.threads[t])
    requires TicketOf(s.threads[t]).Some? ==> TicketOf(l) != TicketOf(s.threads[t])
    ensures HandSound(s', l)
    ensures TicketOf(l).Some? ==> TicketOf(l) != TicketOf(s'.threads[t])
  {
  }

  lemma AnswersStayApart(s: State, s': State, t: nat, move: Move, l: Local)
    requires Effect(s, s', t, move) && HandSound(s, s.threads[t]) && HandSound(s, l)
    requires AnswerOf(l).Some? && AnswerOf(s.threads[t]).Some? ==> AnswerOf(l).value.ticket != AnswerOf(s.threads[t]).value.ticket
    ensures AnswerOf(l).Some? && AnswerOf(s'.threads[t]).Some? ==> AnswerOf(l).value.ticket != AnswerOf(s'.threads[t]).value.ticket
  {
  }

  lemma EffectHands(s: State, s': State, t: nat, move: Move)
    requires Effect(s, s', t, move) && HandsSound(s) && RingsSound(s) && RingsSound(s') && HandSound(s', s'.threads[t])
    requires forall u | 0 <= u < |s.threads| && u != t && SlotOf(s.threads[t]).Some? :: SlotOf(s.threads[u]) != SlotOf(s.threads[t])
    ensures HandsSound(s')
  {
    forall u | 0 <= u < |s.threads| && u != t
      ensures HandSound(s', s.threads[u])
      ensures TicketOf(s.threads[u]).Some? ==> TicketOf(s.threads[u]) != TicketOf(s'.threads[t])
      ensures AnswerOf(s.threads[u]).Some? && AnswerOf(s'.threads[t]).Some? ==>
                AnswerOf(s.threads[u]).value.ticket != AnswerOf(s'.threads[t]).value.ticket
    {
      assert HandSound(s, s.threads[t]) && HandSound(s, s.threads[u]);
      HandStays(s, s', t, move, s.threads[u]);
      AnswersStayApart(s, s', t, move, s.threads[u]);
    }
  }

  // ------------------------------------------------ the closing protocol

  /** What the closing protocol relies on never goes back. */
  ghost predicate Forward(s: State, s': State, l: Local) {
    && (s.producers.closed ==> s'.producers.closed)
    && (Shut(s.producers) ==> Shut(s'.producers))
    && (s.consumers.closed ==> s'.consumers.closed)
    && (Shut(s.consumers) ==> Shut(s'.consumers))
    && (s.quiesced ==> s'.quiesced)
    && (s.producers.closed ==> s'.producers.active <= s.producers.active)
    && (s.consumers.closed ==> s'.consumers.active <= s.consumers.active)
    && (Shut(s.producers) ==> s'.accepted == s.accepted && |s'.published| <= |s.published|)
    && (!l.Closer? ==> s'.swept == s.swept && s'.discards == s.discards && s'.reported == s.reported)
    && s'.capacity == s.capacity
    && (s.swept ==> s'.swept)
  }

  ghost predicate LockFollows(s: State, s': State, t: nat, l: Local, l': Local) {
    if l.Closer? then s'.lock == if l'.Closer? then s.lock else None
    else if l'.Closer? then s.lock == None && s'.lock == Some(t)
    else s'.lock == s.lock
  }

  ghost predicate QuiescingFollows(s: State, s': State, l: Local, l': Local) {
    && (Quiescing(l) && !s'.quiesced ==> Quiescing(l'))
    && (!s.producers.closed && s'.producers.closed ==> Quiescing(l'))
  }

  /** Whoever enters a gate counts for the most that were ever inside. */
  ghost predicate MostFollows(s: State, s': State, l: Local, l': Local) {
    && s'.mostConsumers == (if l'.Consumer? && !l.Consumer? then Most(s.mostConsumers, s'.consumers.active) else s.mostConsumers)
    && s'.mostProducers == (if l'.Producer? && !l.Producer? then Most(s.mostProducers, s'.producers.active) else s.mostProducers)
  }

  ghost predicate Doors(s: State, s': State, t: nat) {
    && t < |s.threads| == |s'.threads|
    && Forward(s, s', s.threads[t])
    && LockFollows(s, s', t, s.threads[t], s'.threads[t])
    && QuiescingFollows(s, s', s.threads[t], s'.threads[t])
    && MostFollows(s, s', s.threads[t], s'.threads[t])
    && PhaseSound(s', s'.threads[t])
    && Lasting(s')
  }

  /** All that is proved of a step, control point by control point. */
  ghost predicate Keeps(s: State, s': State, t: nat, move: Move) {
    && Effect(s, s', t, move)
    && HandSound(s', s'.threads[t])
    && Doors(s, s', t)
  }

  lemma DoorsKeepClosing(s: State, s': State, t: nat)
    requires Closing(s) && Doors(s, s', t) && s'.threads == s.threads[t := s'.threads[t]]
    ensures Closing(s')
  {
    assert s.threads[t].Closer? <==> s.lock == Some(t);
    forall u | 0 <= u < |s'.threads| && u != t
      ensures PhaseSound(s', s'.threads[u])
    {
      assert s'.threads[u] == s.threads[u];
      assert PhaseSound(s, s.threads[u]);
      assert s.threads[u].Closer? <==> s.lock == Some(u);
    }
  }

  // ------------------------------------------------ producers

  lemma ReserveKeeps(s: State, s': State, t: nat, event: Event, unlucky: bool) returns (move: Move)
    requires At(s, t, Producer(Reserve(event))) && s' == DoProducer(s, t, unlucky) && !s.fault
    requires Lasting(s) && s.producers.active > 0
    requires RingsSound(s)
    ensures Keeps(s, s', t, move)
  {
    move := if s.available == [] || unlucky then Stay else Reserved;
  }

  lemma ConstructKeeps(s: State, s': State, t: nat, event: Event, slot: nat, unlucky: bool)
    requires At(s, t, Producer(Construct(event, slot))) && s' == DoProducer(s, t, unlucky) && !s.fault
    requires Lasting(s) && s.producers.active > 0
    requires HandSound(s, s.threads[t])
    ensures Keeps(s, s', t, Stay)
  {
  }

  lemma PutBackKeeps(s: State, s': State, t: nat, slot: nat)
    requires At(s, t, Producer(PutBack(slot))) && s' == DoProducer(s, t, false) && !s.fault
    requires Lasting(s) && s.producers.active > 0
    ensures Keeps(s, s', t, Returned)
  {
  }

  lemma CountUpKeeps(s: State, s': State, t: nat, slot: nat)
    requires At(s, t, Producer(CountUp(slot))) && s' == DoProducer(s, t, false) && !s.fault
    requires Lasting(s) && s.producers.active > 0
    requires HandSound(s, s.threads[t])
    ensures Keeps(s, s', t, Stay)
  {
  }

  lemma PublishKeeps(s: State, s': State, t: nat, slot: nat)
    requires At(s, t, Producer(Publish(slot))) && s' == DoProducer(s, t, false) && !s.fault
    requires Lasting(s) && s.producers.active > 0
    requires HandSound(s, s.threads[t])
    ensures Keeps(s, s', t, Published)
  {
  }

  lemma LeaveProducerKeeps(s: State, s': State, t: nat, outcome: Outcome)
    requires At(s, t, Producer(LeaveProducer(outcome))) && s' == DoProducer(s, t, false) && !s.fault
    requires Lasting(s) && s.producers.active > 0
    requires HandSound(s, s.threads[t])
    ensures Keeps(s, s', t, Stay)
  {
  }

  lemma ProducerKeeps(s: State, s': State, t: nat, unlucky: bool) returns (move: Move)
    requires t < |s.threads| && s.threads[t].Producer? && s' == DoProducer(s, t, unlucky) && !s.fault
    requires Lasting(s) && s.producers.active > 0
    requires RingsSound(s) && HandSound(s, s.threads[t])
    ensures Keeps(s, s', t, move)
  {
    match s.threads[t].p
    case Reserve(event) => move := ReserveKeeps(s, s', t, event, unlucky);
    case Construct(event, slot) => move := Stay; ConstructKeeps(s, s', t, event, slot, unlucky);
    case PutBack(slot) => move := Returned; PutBackKeeps(s, s', t, slot);
    case CountUp(slot) => move := Stay; CountUpKeeps(s, s', t, slot);
    case Publish(slot) => move := Published; PublishKeeps(s, s', t, slot);
    case LeaveProducer(outcome) => move := Stay; LeaveProducerKeeps(s, s', t, outcome);
  }

  // ------------------------------------------------ consumers

  lemma ClaimKeeps(s: State, s': State, t: nat, unlucky: bool) returns (move: Move)
    requires At(s, t, Consumer(Claim)) && s' == DoConsumer(s, t, unlucky) && !s.fault
    requires Lasting(s) && s.consumers.active > 0
    requires RingsSound(s)
    ensures Keeps(s, s', t, move)
  {
    move := if s.published == [] || unlucky then Stay else Claimed;
  }

  lemma CheckKeeps(s: State, s': State, t: nat)
    requires At(s, t, Consumer(CheckQuiesced)) && s' == DoConsumer(s, t, false) && !s.fault
    requires Lasting(s) && s.consumers.active > 0
    ensures Keeps(s, s', t, Stay)
  {
  }

  lemma MoveOutKeeps(s: State, s': State, t: nat, slot: nat, ticket: nat)
    requires At(s, t, Consumer(MoveOut(slot, ticket))) && s' == DoConsumer(s, t, false) && !s.fault
    requires Lasting(s) && s.consumers.active > 0
    requires HandSound(s, s.threads[t])
    ensures Keeps(s, s', t, Stay)
  {
  }

  lemma DestroyKeeps(s: State, s': State, t: nat, slot: nat, ticket: nat, event: Event)
    requires At(s, t, Consumer(Destroy(slot, ticket, event))) && s' == DoConsumer(s, t, false) && !s.fault
    requires Lasting(s) && s.consumers.active > 0
    requires HandSound(s, s.threads[t])
    ensures Keeps(s, s', t, Stay)
  {
  }

  lemma CountDownKeeps(s: State, s': State, t: nat, slot: nat, ticket: nat, event: Event)
    requires At(s, t, Consumer(CountDown(slot, ticket, event))) && s' == DoConsumer(s, t, false) && !s.fault
    requires Lasting(s) && s.consumers.active > 0
    requires HandSound(s, s.threads[t])
    requires s.occupied > 0
    ensures Keeps(s, s', t, Stay)
  {
  }

  lemma ReleaseKeeps(s: State, s': State, t: nat, slot: nat, ticket: nat, event: Event)
    requires At(s, t, Consumer(Release(slot, ticket, event))) && s' == DoConsumer(s, t, false) && !s.fault
    requires Lasting(s) && s.consumers.active > 0
    requires HandSound(s, s.threads[t])
    ensures Keeps(s, s', t, Returned)
  {
  }

  lemma LeaveConsumerKeeps(s: State, s': State, t: nat, outcome: Outcome)
    requires At(s, t, Consumer(LeaveConsumer(outcome))) && s' == DoConsumer(s, t, false) && !s.fault
    requires Lasting(s) && s.consumers.active > 0
    requires HandSound(s, s.threads[t])
    ensures Keeps(s, s', t, Stay)
  {
  }

  lemma ConsumerKeeps(s: State, s': State, t: nat, unlucky: bool) returns (move: Move)
    requires t < |s.threads| && s.threads[t].Consumer? && s' == DoConsumer(s, t, unlucky) && !s.fault
    requires Lasting(s) && s.consumers.active > 0
    requires RingsSound(s) && HandSound(s, s.threads[t])
    requires Occupying(s.threads[t]) == 1 ==> s.occupied > 0
    ensures Keeps(s, s', t, move)
  {
    match s.threads[t].c
    case Claim => move := ClaimKeeps(s, s', t, unlucky);
    case CheckQuiesced => move := Stay; CheckKeeps(s, s', t);
    case MoveOut(slot, ticket) => move := Stay; MoveOutKeeps(s, s', t, slot, ticket);
    case Destroy(slot, ticket, event) => move := Stay; DestroyKeeps(s, s', t, slot, ticket, event);
    case CountDown(slot, ticket, event) => move := Stay; CountDownKeeps(s, s', t, slot, ticket, event);
    case Release(slot, ticket, event) => move := Returned; ReleaseKeeps(s, s', t, slot, ticket, event);
    case LeaveConsumer(outcome) => move := Stay; LeaveConsumerKeeps(s, s', t, outcome);
  }

  // ------------------------------------------------ closers and entries

  /** A step that touches neither rings nor slots nor the history of events. */
  ghost predicate Quiet(s: State, s': State, t: nat, l': Local) {
    && t < |s.threads|
    && SlotOf(s.threads[t]) == SlotOf(l') == None && TicketOf(s.threads[t]) == TicketOf(l') == None
    && s' == s.(threads := s.threads[t := l'], producers := s'.producers, consumers := s'.consumers,
                quiesced := s'.quiesced, lock := s'.lock, swept := s'.swept, reported := s'.reported, mostConsumers := s'.mostConsumers,
                mostProducers := s'.mostProducers)
    && s'.producers.active + Producing(s.threads[t]) == s.producers.active + Producing(l')
    && s'.consumers.active + Consuming(s.threads[t]) == s.consumers.active + Consuming(l')
  }

  lemma QuietEffect(s: State, s': State, t: nat, l': Local)
    requires Quiet(s, s', t, l') && Occupying(s.threads[t]) == Occupying(l') == 0 && !s.fault
    requires AnswerOf(l').Some? ==> AnswerOf(l') == AnswerOf(s.threads[t]) && Answered(s, AnswerOf(l').value)
    ensures Effect(s, s', t, Stay) && HandSound(s', s'.threads[t])
  {
  }

  lemma CloseProducersKeeps(s: State, s': State, t: nat, unlucky: bool, discard: bool)
    requires At(s, t, Closer(CloseProducers(discard))) && s' == DoCloser(s, t, unlucky) && !s.fault
    requires PhaseSound(s, s.threads[t]) && Lasting(s)
    ensures Keeps(s, s', t, Stay)
  {
    QuietEffect(s, s', t, s'.threads[t]);
  }

  lemma WaitProducersKeeps(s: State, s': State, t: nat, unlucky: bool, discard: bool)
    requires At(s, t, Closer(WaitProducers(discard))) && s' == DoCloser(s, t, unlucky) && !s.fault
    requires PhaseSound(s, s.threads[t]) && Lasting(s)
    requires s.producers.active == 0
    ensures Keeps(s, s', t, Stay)
  {
    QuietEffect(s, s', t, s'.threads[t]);
  }

  lemma QuiesceKeeps(s: State, s': State, t: nat, unlucky: bool, discard: bool)
    requires At(s, t, Closer(Quiesce(discard))) && s' == DoCloser(s, t, unlucky) && !s.fault
    requires PhaseSound(s, s.threads[t]) && Lasting(s)
    ensures Keeps(s, s', t, Stay)
  {
    QuietEffect(s, s', t, s'.threads[t]);
  }

  lemma CloseConsumersKeeps(s: State, s': State, t: nat, unlucky: bool)
    requires At(s, t, Closer(CloseConsumers)) && s' == DoCloser(s, t, unlucky) && !s.fault
    requires PhaseSound(s, s.threads[t]) && Lasting(s)
    ensures Keeps(s, s', t, Stay)
  {
    QuietEffect(s, s', t, s'.threads[t]);
  }

  lemma WaitConsumersKeeps(s: State, s': State, t: nat, unlucky: bool)
    requires At(s, t, Closer(WaitConsumers)) && s' == DoCloser(s, t, unlucky) && !s.fault
    requires PhaseSound(s, s.threads[t]) && Lasting(s)
    requires s.consumers.active == 0
    ensures Keeps(s, s', t, Stay)
  {
    QuietEffect(s, s', t, s'.threads[t]);
  }

  lemma SweepKeeps(s: State, s': State, t: nat, unlucky: bool, count: nat) returns (move: Move)
    requires At(s, t, Closer(Sweep(count))) && s' == DoCloser(s, t, unlucky) && !s.fault
    requires PhaseSound(s, s.threads[t]) && Lasting(s)
    requires RingsSound(s) && (unlucky ==> s.mostConsumers > 2 * s.capacity)
    ensures Keeps(s, s', t, move)
  {
    move := if s.published == [] || unlucky then Stay else Claimed;
  }

  lemma SweepDestroyKeeps(s: State, s': State, t: nat, unlucky: bool, slot: nat, ticket: nat, count: nat)
    requires At(s, t, Closer(SweepDestroy(slot, ticket, count))) && s' == DoCloser(s, t, unlucky) && !s.fault
    requires PhaseSound(s, s.threads[t]) && Lasting(s) && s.lock == Some(t)
    requires HandSound(s, s.threads[t])
    ensures Keeps(s, s', t, Stay)
  {
  }

  lemma SweepCountDownKeeps(s: State, s': State, t: nat, unlucky: bool, slot: nat, count: nat)
    requires At(s, t, Closer(SweepCountDown(slot, count))) && s' == DoCloser(s, t, unlucky) && !s.fault
    requires PhaseSound(s, s.threads[t]) && Lasting(s)
    requires HandSound(s, s.threads[t])
    requires s.occupied > 0
    ensures Keeps(s, s', t, Stay)
  {
  }

  lemma SweepReleaseKeeps(s: State, s': State, t: nat, unlucky: bool, slot: nat, count: nat)
    requires At(s, t, Closer(SweepRelease(slot, count))) && s' == DoCloser(s, t, unlucky) && !s.fault
    requires PhaseSound(s, s.threads[t]) && Lasting(s)
    ensures Keeps(s, s', t, Returned)
  {
  }

  lemma UnlockKeeps(s: State, s': State, t: nat, unlucky: bool, outcome: Outcome)
    requires At(s, t, Closer(Unlock(outcome))) && s' == DoCloser(s, t, unlucky) && !s.fault
    requires PhaseSound(s, s.threads[t]) && Lasting(s)
    requires HandSound(s, s.threads[t])
    ensures Keeps(s, s', t, Stay)
  {
    QuietEffect(s, s', t, s'.threads[t]);
  }

  lemma CloserKeeps(s: State, s': State, t: nat, unlucky: bool) returns (move: Move)
    requires t < |s.threads| && s.threads[t].Closer? && s' == DoCloser(s, t, unlucky) && !s.fault
    requires PhaseSound(s, s.threads[t]) && Lasting(s) && s.lock == Some(t) && Enabled(s, Advance(t, unlucky))
    requires RingsSound(s) && HandSound(s, s.threads[t])
    requires Occupying(s.threads[t]) == 1 ==> s.occupied > 0
    ensures Keeps(s, s', t, move)
  {
    move := Stay;
    match s.threads[t].k
    case CloseProducers(discard) => CloseProducersKeeps(s, s', t, unlucky, discard);
    case WaitProducers(discard) => WaitProducersKeeps(s, s', t, unlucky, discard);
    case Quiesce(discard) => QuiesceKeeps(s, s', t, unlucky, discard);
    case CloseConsumers => CloseConsumersKeeps(s, s', t, unlucky);
    case WaitConsumers => WaitConsumersKeeps(s, s', t, unlucky);
    case Sweep(count) => move := SweepKeeps(s, s', t, unlucky, count);
    case SweepDestroy(slot, ticket, count) => SweepDestroyKeeps(s, s', t, unlucky, slot, ticket, count);
    case SweepCountDown(slot, count) => SweepCountDownKeeps(s, s', t, unlucky, slot, count);
    case SweepRelease(slot, count) => move := Returned; SweepReleaseKeeps(s, s', t, unlucky, slot, count);
    case Unlock(outcome) => UnlockKeeps(s, s', t, unlucky, outcome);
  }

  lemma GateKeeps(s: State, s': State, t: nat, unlucky: bool)
    requires t < |s.threads| && (s.threads[t].GateLoad? || s.threads[t].GateSwap?) && s' == DoGate(s, t, unlucky)
    requires !s.fault && PhaseSound(s, s.threads[t]) && Lasting(s)
    ensures Keeps(s, s', t, Stay)
  {
    QuietEffect(s, s', t, s'.threads[t]);
  }

  lemma EntryKeeps(s: State, s': State, step: Step)
    requires Enabled(s, step) && s' == Do(s, step) && !s.fault && Lasting(s)
    requires var l := s.threads[step.thread]; Resting(l) || l.Lock?
    ensures Keeps(s, s', step.thread, Stay)
  {
    QuietEffect(s, s', step.thread, s'.threads[step.thread]);
  }

  lemma StepKeeps(s: State, s': State, step: Step) returns (move: Move)
    requires Inv(s) && Enabled(s, step) && s' == Do(s, step)
    ensures Keeps(s, s', step.thread, move)
  {
    var t := step.thread;
    InsideCounts(s, t);
    assert HandSound(s, s.threads[t]) && PhaseSound(s, s.threads[t]) && Lasting(s);
    assert s.threads[t].Closer? <==> s.lock == Some(t);
    move := Stay;
    match s.threads[t]
    case Producer(_) =>
      move := ProducerKeeps(s, s', t, step.unlucky);
    case Consumer(_) =>
      move := ConsumerKeeps(s, s', t, step.unlucky);
    case Closer(_) => move := CloserKeeps(s, s', t, step.unlucky);
    case GateLoad(_) => GateKeeps(s, s', t, step.unlucky);
    case GateSwap(_, _) => GateKeeps(s, s', t, step.unlucky);
    case Lock(_) => EntryKeeps(s, s', step);
    case Idle => EntryKeeps(s, s', step);
    case Done(_) => EntryKeeps(s, s', step);
  }

  lemma EffectKeeps(s: State, s': State, t: nat, move: Move)
    requires Conserved(s) && Counted(s) && RingsSound(s) && HandsSound(s)
    requires Effect(s, s', t, move) && HandSound(s', s'.threads[t])
    ensures Conserved(s') && Counted(s') && RingsSound(s') && HandsSound(s')
  {
    MovesConserve(s, s', t, move);
    EffectCounts(s, s', t, move);
    if SlotOf(s.threads[t]).Some? {
      OwnSlot(s, t);
    }
    EffectAvailable(s, s', t, move);
    EffectPublished(s, s', t, move);
    EffectHands(s, s', t, move);
  }

  lemma StepKeepsInv(s: State, s': State, step: Step)
    requires Inv(s) && Enabled(s, step) && s' == Do(s, step)
    ensures Inv(s')
  {
    var move := StepKeeps(s, s', step);
    EffectKeeps(s, s', step.thread, move);
    DoorsKeepClosing(s, s', step.thread);
  }

  lemma NextKeepsInv(s: State, s': State)
    requires Inv(s) && Next(s, s')
    ensures Inv(s')
  {
    var step :| Enabled(s, step) && s' == Do(s, step);
    StepKeepsInv(s, s', step);
  }

  lemma StepAtKeepsInv(run: seq<State>, i: nat)
    requires IsRun(run) && 0 < i < |run| && Inv(run[i - 1])
    ensures Inv(run[i])
  {
    assert StepAt(run, i - 1);
    NextKeepsInv(run[i - 1], run[i]);
  }

  lemma {:induction false} RunKeepsInv(run: seq<State>, i: nat)
    requires IsRun(run) && i < |run|
    ensures Inv(run[i])
  {
    if i == 0 {
      InitInv(run[i]);
    } else {
      RunKeepsInv(run, i - 1);
      StepAtKeepsInv(run, i);
    }
  }
}
