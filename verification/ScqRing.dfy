/** The SCQ index ring as a concurrent state machine.

    Any number of threads call `enqueue` and `try_dequeue`; one step of one thread is one
    atomic operation of the program (a load, a store, a fetch-and-add, a fetch-or or a
    compare-exchange) together with the local computation up to the next one.  Atomics are
    sequentially consistent and tickets are unbounded, so the signed comparisons of the
    program are comparisons of integers here; module ScqSequential treats wrapping words. */
module ScqRing {
  import opened Wrappers

  /** The index field of a ring word: all ones, or an index below the capacity. */
  datatype Cell = Vacant | Holds(index: nat)

  /** A ring word unpacked.  The initial words carry cycle -1. */
  datatype Word = Word(cycle: int, safe: bool, cell: Cell)

  /** The control point of a thread with the values of its local variables.  In the dequeue
      points `spent` counts the tickets this call has drawn so far. */
  datatype Local =
    | Idle
    | Done(result: Option<nat>)
    | EnqTicket(index: nat, known: bool)
    | EnqLoad(index: nat, known: bool, ticket: nat)
    | EnqHead(index: nat, known: bool, ticket: nat, entry: Word)
    | EnqSwap(index: nat, known: bool, ticket: nat, entry: Word)
    | EnqThreshold
    | EnqReset
    | DeqGate
    | DeqTicket(known: bool, spent: nat)
    | DeqLoad(known: bool, spent: nat, ticket: nat, attempts: nat)
    | DeqSwap(known: bool, spent: nat, ticket: nat, attempts: nat, entry: Word, replacement: Word)
    | DeqTake(ticket: nat, entry: Word)
    | DeqTail(spent: nat, ticket: nat)
    | CatchSwap(seenTail: nat, target: nat)
    | CatchHead
    | CatchTail(target: nat)
    | DeqGiveUp
    | DeqSpend(spent: nat)

  /** The shared words and counters, the threads, and the history of the run: which index each
      tail ticket stored, which index each head ticket took, which head tickets were abandoned,
      how often either happened, and which thread drew each ticket. */
  datatype State = State(
    n: nat,
    words: seq<Word>,
    head: nat,
    tail: nat,
    threshold: int,
    threads: seq<Local>,
    stored: map<nat, nat>,
    taken: map<nat, nat>,
    abandoned: set<nat>,
    stores: nat,
    deliveries: nat,
    headOwner: seq<nat>,
    tailOwner: map<nat, nat>)

  datatype Step =
    | StartEnqueue(thread: nat, index: nat, known: bool)
    | StartDequeue(thread: nat, known: bool)
    | Advance(thread: nat)
    | SpuriousFailure(thread: nat)

  const CATCHUP_ATTEMPTS: nat := 10000

  /** The lap a ticket belongs to, ticket / 2n, counted by subtraction to keep proofs linear
      (see ScqWords.CycleAndSlotDivide). */
  function Cycle(n: nat, ticket: nat): nat
    requires n > 0
  {
    if ticket < 2 * n then 0 else 1 + Cycle(n, ticket - 2 * n)
  }

  /** The ring position of a ticket, ticket % 2n. */
  function Slot(n: nat, ticket: nat): (slot: nat)
    requires n > 0
    ensures slot < 2 * n
  {
    if ticket < 2 * n then ticket else Slot(n, ticket - 2 * n)
  }

  function InitialThreshold(n: nat): int {
    3 * n - 1
  }

  predicate Shape(s: State) {
    s.n > 0 && |s.words| == 2 * s.n
  }

  /** The word a ticket is mapped to. */
  function WordAt(s: State, ticket: nat): Word
    requires Shape(s)
  {
    s.words[Slot(s.n, ticket)]
  }

  function WithWord(s: State, ticket: nat, w: Word): State
    requires Shape(s)
  {
    s.(words := s.words[Slot(s.n, ticket) := w])
  }

  function Goto(s: State, t: nat, l: Local): State
    requires t < |s.threads|
  {
    s.(threads := s.threads[t := l])
  }

  /** A step of thread t leaves the other threads where they are. */
  ghost predicate OnlyMoves(s: State, s': State, t: nat) {
    && s'.n == s.n && |s'.words| == |s.words|
    && t < |s.threads| == |s'.threads|
    && forall u | 0 <= u < |s.threads| && u != t :: s'.threads[u] == s.threads[u]
  }

  const UNUSED := Word(-1, true, Vacant)

  predicate InitEmpty(s: State) {
    && Shape(s)
    && s.words == seq(2 * s.n, _ => UNUSED)
    && s.head == 0 && s.tail == 0 && s.threshold == -1
    && (forall t | 0 <= t < |s.threads| :: s.threads[t] == Idle)
    && s.stored == map[] && s.taken == map[] && s.abandoned == {}
    && s.stores == 0 && s.deliveries == 0
    && s.headOwner == [] && s.tailOwner == map[]
  }

  /** Ticket i has stored index i, for every i below n. */
  function Identity(n: nat): (m: map<nat, nat>)
    ensures |m| == n
    ensures forall i: nat :: i in m <==> i < n
    ensures forall i | i in m :: m[i] == i
  {
    if n == 0 then map[] else Identity(n - 1)[n - 1 := n - 1]
  }

  predicate InitFull(s: State) {
    && Shape(s)
    && s.words == seq(2 * s.n, i requires 0 <= i => if i < s.n then Word(0, true, Holds(i)) else UNUSED)
    && s.head == 0 && s.tail == s.n && s.threshold == InitialThreshold(s.n)
    && (forall t | 0 <= t < |s.threads| :: s.threads[t] == Idle)
    && s.stored == Identity(s.n) && s.taken == map[] && s.abandoned == {}
    && s.stores == s.n && s.deliveries == 0
    && s.headOwner == [] && s.tailOwner == map[]
  }

  predicate Init(s: State) {
    InitEmpty(s) || InitFull(s)
  }

  /** The test of `enqueue` on a loaded word: give up the ticket, swap at once, or look at head first. */
  function EnqueueDecision(n: nat, index: nat, known: bool, ticket: nat, entry: Word): Local
    requires n > 0
  {
    if entry.cycle < Cycle(n, ticket) && entry.cell.Vacant? then
      if entry.safe then EnqSwap(index, known, ticket, entry) else EnqHead(index, known, ticket, entry)
    else
      EnqTicket(index, known)
  }

  datatype Verdict = Take | Reload | Swap(replacement: Word, attempts: nat) | Abandon

  /** The inner loop of `try_dequeue` on a loaded word. */
  function Judge(n: nat, ticket: nat, attempts: nat, entry: Word): Verdict
    requires n > 0
  {
    var cycle := Cycle(n, ticket);
    if entry.cycle == cycle then
      Take
    else if entry.cell.Holds? then
      if !entry.safe then Abandon
      else if entry.cycle < cycle then Swap(entry.(safe := false), attempts)
      else Abandon
    else if attempts + 1 <= CATCHUP_ATTEMPTS then
      Reload
    else if entry.cycle < cycle then
      Swap(Word(cycle, entry.safe, Vacant), attempts + 1)
    else
      Abandon
  }

  function AfterInnerLoop(known: bool, spent: nat, ticket: nat): Local {
    if known then DeqTicket(known, spent) else DeqTail(spent, ticket)
  }

  /** Leaving the inner loop of `try_dequeue` without an index. */
  function AbandonTicket(s: State, t: nat, known: bool, spent: nat, ticket: nat): State
    requires t < |s.threads|
  {
    Goto(s, t, AfterInnerLoop(known, spent, ticket)).(abandoned := s.abandoned + {ticket})
  }

  function Follow(s: State, t: nat, known: bool, spent: nat, ticket: nat, attempts: nat, entry: Word): (s': State)
    requires Shape(s) && t < |s.threads|
    ensures OnlyMoves(s, s', t) && s'.threshold == s.threshold
  {
    match Judge(s.n, ticket, attempts, entry)
    case Take => Goto(s, t, DeqTake(ticket, entry))
    case Reload => Goto(s, t, DeqLoad(known, spent, ticket, attempts + 1))
    case Swap(replacement, attempts') => Goto(s, t, DeqSwap(known, spent, ticket, attempts', entry, replacement))
    case Abandon => AbandonTicket(s, t, known, spent, ticket)
  }

  /** The swap of an enqueuer succeeds. */
  function StoreIndex(s: State, t: nat, index: nat, known: bool, ticket: nat): State
    requires Shape(s) && t < |s.threads|
  {
    Goto(WithWord(s, ticket, Word(Cycle(s.n, ticket), true, Holds(index))), t,
         if known then Done(None) else EnqThreshold)
    .(stored := s.stored[ticket := index], stores := s.stores + 1)
  }

  /** The fetch-or sets the index field of the current word; the call returns the index it
      loaded before, all ones if that word was vacant. */
  function TakeIndex(s: State, t: nat, ticket: nat, entry: Word): State
    requires Shape(s) && t < |s.threads|
  {
    var index := if entry.cell.Holds? then entry.cell.index else 2 * s.n - 1;
    Goto(WithWord(s, ticket, WordAt(s, ticket).(cell := Vacant)), t, Done(Some(index)))
    .(taken := s.taken[ticket := index], deliveries := s.deliveries + 1)
  }

  /** `enqueue` loads the word of its ticket, first or again after a failed swap. */
  function Examine(s: State, t: nat, index: nat, known: bool, ticket: nat): State
    requires Shape(s) && t < |s.threads|
  {
    Goto(s, t, EnqueueDecision(s.n, index, known, ticket, WordAt(s, ticket)))
  }

  predicate Enabled(s: State, step: Step) {
    && step.thread < |s.threads|
    && var l := s.threads[step.thread];
       match step
       case StartEnqueue(_, index, _) => (l.Idle? || l.Done?) && index < s.n
       case StartDequeue(_, _) => l.Idle? || l.Done?
       case Advance(_) => !l.Idle? && !l.Done?
       case SpuriousFailure(_) => l.EnqSwap? || l.DeqSwap? || l.CatchSwap?
  }

  function Do(s: State, step: Step): (s': State)
    requires Shape(s) && Enabled(s, step)
    ensures OnlyMoves(s, s', step.thread)
  {
    match step
    case StartEnqueue(t, index, known) => Goto(s, t, EnqTicket(index, known))
    case StartDequeue(t, known) => Goto(s, t, if known then DeqTicket(known, 0) else DeqGate)
    case Advance(t) => DoAdvance(s, t)
    case SpuriousFailure(t) => FailSwap(s, t)
  }

  /** A failing compare-exchange reloads the word and goes round the loop. */
  function FailSwap(s: State, t: nat): (s': State)
    requires Shape(s) && t < |s.threads|
    requires s.threads[t].EnqSwap? || s.threads[t].DeqSwap? || s.threads[t].CatchSwap?
    ensures OnlyMoves(s, s', t) && s'.threshold == s.threshold
  {
    match s.threads[t]
    case EnqSwap(index, known, ticket, _) =>
      Examine(s, t, index, known, ticket)
    case DeqSwap(known, spent, ticket, attempts, _, _) =>
      Follow(s, t, known, spent, ticket, attempts, WordAt(s, ticket))
    case CatchSwap(_, _) =>
      Goto(s, t, CatchHead)
  }

  function DoEnqueue(s: State, t: nat): (s': State)
    requires Shape(s) && t < |s.threads| && IsEnqueue(s.threads[t])
    ensures OnlyMoves(s, s', t) && s'.threshold == s.threshold
  {
    match s.threads[t]
    case EnqTicket(index, known) =>
      Goto(s, t, EnqLoad(index, known, s.tail)).(tail := s.tail + 1, tailOwner := s.tailOwner[s.tail := t])
    case EnqLoad(index, known, ticket) =>
      Examine(s, t, index, known, ticket)
    case EnqHead(index, known, ticket, entry) =>
      Goto(s, t, if s.head <= ticket then EnqSwap(index, known, ticket, entry) else EnqTicket(index, known))
    case EnqSwap(index, known, ticket, entry) =>
      if WordAt(s, ticket) == entry then StoreIndex(s, t, index, known, ticket)
      else Examine(s, t, index, known, ticket)
  }

  function DoDequeue(s: State, t: nat): (s': State)
    requires Shape(s) && t < |s.threads| && IsDequeue(s.threads[t])
    ensures OnlyMoves(s, s', t) && s'.threshold == s.threshold
  {
    match s.threads[t]
    case DeqTicket(known, spent) =>
      Goto(s, t, DeqLoad(known, spent + 1, s.head, 0)).(head := s.head + 1, headOwner := s.headOwner + [t])
    case DeqLoad(known, spent, ticket, attempts) =>
      Follow(s, t, known, spent, ticket, attempts, WordAt(s, ticket))
    case DeqSwap(known, spent, ticket, attempts, entry, replacement) =>
      if WordAt(s, ticket) == entry then
        AbandonTicket(WithWord(s, ticket, replacement), t, known, spent, ticket)
      else
        Follow(s, t, known, spent, ticket, attempts, WordAt(s, ticket))
    case DeqTake(ticket, entry) =>
      TakeIndex(s, t, ticket, entry)
  }

  /** The tail check of `try_dequeue` and `catch_up`. */
  function DoCatchUp(s: State, t: nat): (s': State)
    requires Shape(s) && t < |s.threads| && IsCatchUp(s.threads[t])
    ensures OnlyMoves(s, s', t) && s'.threshold == s.threshold
  {
    match s.threads[t]
    case DeqTail(spent, ticket) =>
      Goto(s, t, if s.tail <= ticket + 1 then CatchSwap(s.tail, ticket + 1) else DeqSpend(spent))
    case CatchSwap(seenTail, target) =>
      if s.tail == seenTail then Goto(s, t, DeqGiveUp).(tail := target) else Goto(s, t, CatchHead)
    case CatchHead =>
      Goto(s, t, CatchTail(s.head))
    case CatchTail(target) =>
      Goto(s, t, if s.tail < target then CatchSwap(s.tail, target) else DeqGiveUp)
  }

  /** The points that read or write the threshold. */
  function DoThreshold(s: State, t: nat): (s': State)
    requires Shape(s) && t < |s.threads| && IsThreshold(s.threads[t])
    ensures OnlyMoves(s, s', t)
  {
    match s.threads[t]
    case EnqThreshold =>
      Goto(s, t, if s.threshold != InitialThreshold(s.n) then EnqReset else Done(None))
    case EnqReset =>
      Goto(s, t, Done(None)).(threshold := InitialThreshold(s.n))
    case DeqGate =>
      Goto(s, t, if s.threshold < 0 then Done(None) else DeqTicket(false, 0))
    case DeqGiveUp =>
      Goto(s, t, Done(None)).(threshold := s.threshold - 1)
    case DeqSpend(spent) =>
      Goto(s, t, if s.threshold <= 0 then Done(None) else DeqTicket(false, spent)).(threshold := s.threshold - 1)
  }

  predicate IsEnqueue(l: Local) {
    l.EnqTicket? || l.EnqLoad? || l.EnqHead? || l.EnqSwap?
  }

  predicate IsDequeue(l: Local) {
    l.DeqTicket? || l.DeqLoad? || l.DeqSwap? || l.DeqTake?
  }

  predicate IsCatchUp(l: Local) {
    l.DeqTail? || l.CatchSwap? || l.CatchHead? || l.CatchTail?
  }

  predicate IsThreshold(l: Local) {
    l.EnqThreshold? || l.EnqReset? || l.DeqGate? || l.DeqGiveUp? || l.DeqSpend?
  }

  function DoAdvance(s: State, t: nat): (s': State)
    requires Shape(s) && t < |s.threads| && !s.threads[t].Idle? && !s.threads[t].Done?
    ensures OnlyMoves(s, s', t)
  {
    var l := s.threads[t];
    if IsEnqueue(l) then DoEnqueue(s, t)
    else if IsDequeue(l) then DoDequeue(s, t)
    else if IsCatchUp(l) then DoCatchUp(s, t)
    else DoThreshold(s, t)
  }

  ghost predicate Next(s: State, s': State) {
    && Shape(s)
    && exists step :: Enabled(s, step) && s' == Do(s, step)
  }

  ghost predicate StepAt(run: seq<State>, i: nat)
    requires i + 1 < |run|
  {
    Next(run[i], run[i + 1])
  }

  ghost predicate IsRun(run: seq<State>) {
    && run != []
    && Init(run[0])
    && forall i: nat | i + 1 < |run| :: StepAt(run, i)
  }
}
