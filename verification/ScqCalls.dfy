/** What the calls of the SCQ ring do, over every interleaving: an enqueue stores the index it was
    handed, once, a dequeue answers what it took, and together they account for the ring's contents. */
module ScqCalls {
  import opened Wrappers
  import opened ScqRing
  import opened ScqSafety
  import opened ScqTheorems
  import opened ScqProgress

  // ---------------------------------------------------------------- runs with their steps

  ghost predicate Steps(run: seq<State>, steps: seq<Step>, i: nat)
    requires |run| == |steps| + 1 && i < |steps|
  {
    Shape(run[i]) && Enabled(run[i], steps[i]) && run[i + 1] == Do(run[i], steps[i])
  }

  ghost predicate IsTrace(run: seq<State>, steps: seq<Step>) {
    && |run| == |steps| + 1 && Init(run[0])
    && forall i | 0 <= i < |steps| :: Steps(run, steps, i)
  }

  lemma TraceIsRun(run: seq<State>, steps: seq<Step>)
    requires IsTrace(run, steps)
    ensures IsRun(run)
  {
    forall i: nat | i + 1 < |run|
      ensures StepAt(run, i)
    {
      assert Steps(run, steps, i);
    }
  }

  /** Every run is the run of some steps. */
  lemma {:induction false} RunHasTrace(run: seq<State>) returns (steps: seq<Step>)
    requires IsRun(run)
    ensures IsTrace(run, steps)
    decreases |run|
  {
    if |run| == 1 {
      steps := [];
    } else {
      var front := run[..|run| - 1];
      forall i: nat | i + 1 < |front|
        ensures StepAt(front, i)
      {
        assert StepAt(run, i);
      }
      var before := RunHasTrace(front);
      var step := StepTaken(run);
      steps := before + [step];
      forall i | 0 <= i < |steps|
        ensures Steps(run, steps, i)
      {
        if i < |before| {
          assert Steps(front, before, i);
        }
      }
    }
  }

  lemma StepTaken(run: seq<State>) returns (step: Step)
    requires IsRun(run) && |run| > 1
    ensures Shape(run[|run| - 2]) && Enabled(run[|run| - 2], step) && run[|run| - 1] == Do(run[|run| - 2], step)
  {
    assert StepAt(run, |run| - 2);
    step :| Enabled(run[|run| - 2], step) && run[|run| - 1] == Do(run[|run| - 2], step);
  }

  predicate Starts(step: Step, t: nat) {
    (step.StartEnqueue? || step.StartDequeue?) && step.thread == t
  }

  /** The latest call of thread t. */
  function CallOf(steps: seq<Step>, n: nat, t: nat): Option<Step>
    requires n <= |steps|
  {
    if n == 0 then None
    else if Starts(steps[n - 1], t) then Some(steps[n - 1])
    else CallOf(steps, n - 1, t)
  }

  // ---------------------------------------------------------------- a thread and its call

  predicate AfterStore(l: Local) {
    l.EnqThreshold? || l.EnqReset?
  }

  predicate AtTicket(l: Local) {
    l.DeqTicket? || l.DeqLoad? || l.DeqSwap?
  }

  /** Where a thread can be in a call, and what it carries of the arguments. */
  predicate Fits(l: Local, call: Step) {
    if HasIndex(l) then call.StartEnqueue? && call.index == l.index && call.known == l.known
    else if AfterStore(l) then call.StartEnqueue? && !call.known
    else if AtTicket(l) then call.StartDequeue? && call.known == l.known
    else match l
         case Idle => false
         case Done(result) => if call.StartEnqueue? then result == None else call.StartDequeue? && (result == None ==> !call.known)
         case DeqTake(_, _) => call.StartDequeue?
         case _ => call.StartDequeue? && !call.known
  }

  /** What one step of a thread inside a call does to the history. */
  ghost predicate Effect(s: State, s': State, l: Local, l': Local) {
    if HasIndex(l) && !HasIndex(l') then
      && l.EnqSwap? && l.ticket !in s.stored && s'.stored == s.stored[l.ticket := l.index] && s'.taken == s.taken
      && (if l.known then l'.Done? else AfterStore(l'))
    else if l.DeqTake? then
      && l.ticket in s.stored && l.ticket !in s.taken
      && s'.stored == s.stored && s'.taken == s.taken[l.ticket := s.stored[l.ticket]] && l' == Done(Some(s.stored[l.ticket]))
    else
      && s'.stored == s.stored && s'.taken == s.taken && (l'.Done? ==> l'.result == None)
      && (HasIndex(l') ==> HasIndex(l))
  }

  /** A returning `enqueue(index, false)` leaves the threshold full. */
  predicate Resets(s': State, l: Local, l': Local) {
    AfterStore(l) && l'.Done? ==> s'.threshold == InitialThreshold(s'.n)
  }

  ghost predicate Goes(s: State, s': State, t: nat, call: Step) {
    && t < |s.threads| == |s'.threads| && s'.threads == s.threads[t := s'.threads[t]] && s'.n == s.n
    && (Fits(s.threads[t], call) ==> Fits(s'.threads[t], call))
    && Effect(s, s', s.threads[t], s'.threads[t])
    && Resets(s', s.threads[t], s'.threads[t])
  }

  // ------------------------------------------------ step by step

  lemma ExamineGoes(s: State, s': State, t: nat, call: Step)
    requires Shape(s) && t < |s.threads| && (s.threads[t].EnqLoad? || s.threads[t].EnqSwap?)
    requires var l := s.threads[t]; s' == Examine(s, t, l.index, l.known, l.ticket)
    ensures Goes(s, s', t, call)
  {
    var l := s.threads[t];
    assert s'.threads[t] == EnqueueDecision(s.n, l.index, l.known, l.ticket, WordAt(s, l.ticket));
  }

  lemma StoreGoes(s: State, s': State, t: nat, call: Step)
    requires Shape(s) && TicketsOwned(s) && t < |s.threads| && s.threads[t].EnqSwap?
    requires var l := s.threads[t]; s' == StoreIndex(s, t, l.index, l.known, l.ticket)
    ensures Goes(s, s', t, call)
  {
    var l := s.threads[t];
    assert s'.threads[t] == if l.known then Done(None) else EnqThreshold;
    assert l.ticket !in s.stored;
  }

  lemma EnqueueGoes(s: State, s': State, t: nat, call: Step)
    requires Shape(s) && TicketsOwned(s) && t < |s.threads| && IsEnqueue(s.threads[t]) && s' == DoEnqueue(s, t)
    ensures Goes(s, s', t, call)
  {
    match s.threads[t]
    case EnqTicket(index, known) => assert s'.threads[t] == EnqLoad(index, known, s.tail);
    case EnqLoad(_, _, _) => ExamineGoes(s, s', t, call);
    case EnqHead(index, known, ticket, entry) =>
      assert s'.threads[t] == if s.head <= ticket then EnqSwap(index, known, ticket, entry) else EnqTicket(index, known);
    case EnqSwap(_, _, ticket, entry) =>
      if WordAt(s, ticket) == entry {
        StoreGoes(s, s', t, call);
      } else {
        ExamineGoes(s, s', t, call);
      }
  }

  /** A step of a dequeuer that changes no history and only goes on with its call. */
  ghost predicate GoesOn(s: State, s': State, t: nat) {
    && t < |s.threads| == |s'.threads| && s'.threads == s.threads[t := s'.threads[t]] && s'.n == s.n
    && s'.stored == s.stored && s'.taken == s.taken
    && AtTicket(s.threads[t])
    && var l, l' := s.threads[t], s'.threads[t];
       (AtTicket(l') && l'.known == l.known) || l'.DeqTake? || (l'.DeqTail? && !l.known)
  }

  lemma GoingOnGoes(s: State, s': State, t: nat, call: Step)
    requires GoesOn(s, s', t)
    ensures Goes(s, s', t, call)
  {
  }

  lemma FollowGoes(s: State, s': State, t: nat)
    requires Shape(s) && t < |s.threads| && (s.threads[t].DeqLoad? || s.threads[t].DeqSwap?)
    requires var l := s.threads[t]; s' == Follow(s, t, l.known, l.spent, l.ticket, l.attempts, WordAt(s, l.ticket))
    ensures GoesOn(s, s', t)
  {
    var l := s.threads[t];
    var entry := WordAt(s, l.ticket);
    FollowFrame(s, s', t);
    match Judge(s.n, l.ticket, l.attempts, entry)
    case Take => assert s'.threads[t] == DeqTake(l.ticket, entry);
    case Reload => assert s'.threads[t] == DeqLoad(l.known, l.spent, l.ticket, l.attempts + 1);
    case Swap(replacement, attempts) =>
      assert s'.threads[t] == DeqSwap(l.known, l.spent, l.ticket, attempts, entry, replacement);
    case Abandon => assert s'.threads[t] == AfterInnerLoop(l.known, l.spent, l.ticket);
  }

  lemma FollowFrame(s: State, s': State, t: nat)
    requires Shape(s) && t < |s.threads| && (s.threads[t].DeqLoad? || s.threads[t].DeqSwap?)
    requires var l := s.threads[t]; s' == Follow(s, t, l.known, l.spent, l.ticket, l.attempts, WordAt(s, l.ticket))
    ensures |s'.threads| == |s.threads| && s'.threads == s.threads[t := s'.threads[t]] && s'.n == s.n
    ensures s'.stored == s.stored && s'.taken == s.taken
  {
  }

  lemma TakeGoes(s: State, s': State, t: nat, call: Step)
    requires Inv(s) && t < |s.threads| && s.threads[t].DeqTake?
    requires s' == TakeIndex(s, t, s.threads[t].ticket, s.threads[t].entry)
    ensures Goes(s, s', t, call)
  {
    assert LocalSound(s, s.threads[t]);
    assert s'.threads[t] == Done(Some(s.stored[s.threads[t].ticket]));
  }

  lemma DequeueGoes(s: State, s': State, t: nat, call: Step)
    requires Inv(s) && t < |s.threads| && IsDequeue(s.threads[t]) && s' == DoDequeue(s, t)
    ensures Goes(s, s', t, call)
  {
    if s.threads[t].DeqTake? {
      TakeGoes(s, s', t, call);
    } else {
      TicketGoes(s, s', t);
      GoingOnGoes(s, s', t, call);
    }
  }

  lemma TicketGoes(s: State, s': State, t: nat)
    requires Shape(s) && t < |s.threads| && AtTicket(s.threads[t]) && s' == DoDequeue(s, t)
    ensures GoesOn(s, s', t)
  {
    match s.threads[t]
    case DeqTicket(known, spent) => assert s'.threads[t] == DeqLoad(known, spent + 1, s.head, 0);
    case DeqLoad(_, _, _, _) => FollowGoes(s, s', t);
    case DeqSwap(known, spent, ticket, _, entry, _) =>
      if WordAt(s, ticket) == entry {
        assert s'.threads[t] == AfterInnerLoop(known, spent, ticket);
      } else {
        FollowGoes(s, s', t);
      }
  }

  lemma CatchUpGoes(s: State, s': State, t: nat, call: Step)
    requires Shape(s) && t < |s.threads| && IsCatchUp(s.threads[t]) && s' == DoCatchUp(s, t)
    ensures Goes(s, s', t, call)
  {
  }

  lemma EnqueueThresholdGoes(s: State, s': State, t: nat, call: Step)
    requires Shape(s) && t < |s.threads| && AfterStore(s.threads[t]) && s' == DoThreshold(s, t)
    ensures Goes(s, s', t, call)
  {
  }

  lemma DequeueThresholdGoes(s: State, s': State, t: nat, call: Step)
    requires Shape(s) && t < |s.threads| && IsThreshold(s.threads[t]) && !AfterStore(s.threads[t]) && s' == DoThreshold(s, t)
    ensures Goes(s, s', t, call)
  {
  }

  lemma FailureGoes(s: State, s': State, t: nat, call: Step)
    requires Shape(s) && Enabled(s, SpuriousFailure(t)) && s' == FailSwap(s, t)
    ensures Goes(s, s', t, call)
  {
    match s.threads[t]
    case EnqSwap(_, _, _, _) => ExamineGoes(s, s', t, call);
    case DeqSwap(_, _, _, _, _, _) => FollowGoes(s, s', t); GoingOnGoes(s, s', t, call);
    case CatchSwap(_, _) => assert s'.threads[t] == CatchHead;
  }

  lemma StepGoes(s: State, s': State, step: Step, call: Step)
    requires Inv(s) && Enabled(s, step) && s' == Do(s, step) && !Starts(step, step.thread)
    ensures Goes(s, s', step.thread, call)
  {
    var t := step.thread;
    if step.SpuriousFailure? {
      FailureGoes(s, s', t, call);
    } else if IsEnqueue(s.threads[t]) {
      EnqueueGoes(s, s', t, call);
    } else if IsDequeue(s.threads[t]) {
      DequeueGoes(s, s', t, call);
    } else if IsCatchUp(s.threads[t]) {
      CatchUpGoes(s, s', t, call);
    } else if AfterStore(s.threads[t]) {
      EnqueueThresholdGoes(s, s', t, call);
    } else {
      DequeueThresholdGoes(s, s', t, call);
    }
  }

  /** A call begins with its arguments and changes nothing else. */
  lemma StartGoes(s: State, s': State, step: Step)
    requires Shape(s) && Enabled(s, step) && s' == Do(s, step) && Starts(step, step.thread)
    ensures step.thread < |s'.threads| && Fits(s'.threads[step.thread], step) && !s'.threads[step.thread].Done?
    ensures s' == s.(threads := s.threads[step.thread := s'.threads[step.thread]])
  {
  }

  // ---------------------------------------------------------------- over whole runs

  /** Every thread that has called is in its latest call. */
  lemma {:induction false} ThreadsFit(run: seq<State>, steps: seq<Step>, n: nat, t: nat)
    requires IsTrace(run, steps) && n <= |steps| && t < |run[n].threads|
    ensures FitsLatest(run[n].threads[t], CallOf(steps, n, t))
  {
    if n == 0 {
    } else {
      assert Steps(run, steps, n - 1);
      SameThreads(run[n - 1], run[n], steps[n - 1]);
      ThreadsFit(run, steps, n - 1, t);
      FitsAt(run, steps, n - 1, t);
    }
  }

  lemma FitsAt(run: seq<State>, steps: seq<Step>, m: nat, t: nat)
    requires IsTrace(run, steps) && m < |steps| && t < |run[m].threads| && FitsLatest(run[m].threads[t], CallOf(steps, m, t))
    ensures t < |run[m + 1].threads| && FitsLatest(run[m + 1].threads[t], CallOf(steps, m + 1, t))
  {
    StepFacts(run, steps, m);
    StepFits(run[m], run[m + 1], steps[m], t, CallOf(steps, m, t));
  }

  lemma StepFacts(run: seq<State>, steps: seq<Step>, m: nat)
    requires IsTrace(run, steps) && m < |steps|
    ensures Inv(run[m]) && Enabled(run[m], steps[m]) && run[m + 1] == Do(run[m], steps[m]) && |run[m + 1].threads| == |run[m].threads|
  {
    TraceIsRun(run, steps);
    RunKeepsInv(run, m);
    assert Steps(run, steps, m);
    SameThreads(run[m], run[m + 1], steps[m]);
  }

  lemma SameThreads(s: State, s': State, step: Step)
    requires Shape(s) && Enabled(s, step) && s' == Do(s, step)
    ensures |s'.threads| == |s.threads|
  {
  }

  predicate FitsLatest(l: Local, call: Option<Step>) {
    if call.None? then l.Idle? else Fits(l, call.value)
  }

  lemma StepFits(s: State, s': State, step: Step, t: nat, call: Option<Step>)
    requires Inv(s) && Enabled(s, step) && s' == Do(s, step) && t < |s.threads| == |s'.threads| && FitsLatest(s.threads[t], call)
    ensures FitsLatest(s'.threads[t], if Starts(step, t) then Some(step) else call)
  {
    if Starts(step, step.thread) {
      StartGoes(s, s', step);
    } else if step.thread == t {
      StepGoes(s, s', step, call.value);
    }
  }

  /** The index that step m stores is the one that its thread was handed by its latest call, whatever
      happened since, spurious failures included; and nothing else is ever stored. */
  lemma StoresWhatItWasHanded(run: seq<State>, steps: seq<Step>, m: nat)
    requires IsTrace(run, steps) && m < |steps| && run[m + 1].stored != run[m].stored
    ensures steps[m].thread < |run[m].threads| && run[m].threads[steps[m].thread].EnqSwap?
    ensures var t, call := steps[m].thread, CallOf(steps, m, steps[m].thread);
            var ticket := run[m].threads[t].ticket;
            && call.Some? && call.value.StartEnqueue? && ticket !in run[m].stored
            && run[m + 1].stored == run[m].stored[ticket := call.value.index]
  {
    TraceIsRun(run, steps);
    RunKeepsInv(run, m);
    assert Steps(run, steps, m);
    ThreadsFit(run, steps, m, steps[m].thread);
    if Starts(steps[m], steps[m].thread) {
      StartGoes(run[m], run[m + 1], steps[m]);
    } else {
      StepGoes(run[m], run[m + 1], steps[m], CallOf(steps, m, steps[m].thread).value);
    }
  }

  // ---------------------------------------------------------------- one enqueue

  /** Thread t makes this call in step i and has its answer at j. */
  ghost predicate Call(run: seq<State>, steps: seq<Step>, i: nat, j: nat, t: nat) {
    && IsTrace(run, steps) && i + 1 < j <= |steps|
    && Starts(steps[i], t)
    && (forall m | i <= m <= j :: t < |run[m].threads|)
    && (forall m | i < m < j :: !run[m].threads[t].Done?)
    && run[j].threads[t].Done?
  }

  lemma {:induction false} CallStands(run: seq<State>, steps: seq<Step>, i: nat, m: nat, j: nat, t: nat)
    requires Call(run, steps, i, j, t) && i < m <= j
    ensures CallOf(steps, m, t) == Some(steps[i]) && Fits(run[m].threads[t], steps[i])
  {
    ThreadsFit(run, steps, m, t);
    if m > i + 1 {
      CallStands(run, steps, i, m - 1, j, t);
      assert Steps(run, steps, m - 1);
    }
  }

  /** The steps of thread t between i and m that store. */
  ghost predicate StoresAt(run: seq<State>, steps: seq<Step>, m: nat, t: nat)
    requires |run| == |steps| + 1 && m < |steps|
  {
    steps[m].thread == t && run[m + 1].stored != run[m].stored
  }

  /** An enqueuer that still has its index has not stored; afterwards it has, once. */
  lemma {:induction false} StoredOnce(run: seq<State>, steps: seq<Step>, i: nat, n: nat, j: nat, t: nat) returns (m: nat)
    requires Call(run, steps, i, j, t) && steps[i].StartEnqueue? && i < n <= j
    ensures HasIndex(run[n].threads[t]) ==> forall k | i <= k < n :: !StoresAt(run, steps, k, t)
    ensures !HasIndex(run[n].threads[t]) ==>
              && i < m < n && StoresAt(run, steps, m, t)
              && forall k | i <= k < n && StoresAt(run, steps, k, t) :: k == m
  {
    m := i;
    CallStands(run, steps, i, n, j, t);
    if n == i + 1 {
      assert Steps(run, steps, i);
      StartGoes(run[i], run[n], steps[i]);
    } else {
      m := StoredOnce(run, steps, i, n - 1, j, t);
      CallStands(run, steps, i, n - 1, j, t);
      var had, has := HasIndex(run[n - 1].threads[t]), HasIndex(run[n].threads[t]);
      StoreStep(run, steps, n - 1, t);
      if had && !has {
        m := n - 1;
      }
    }
  }

  /** A step inside an enqueue stores exactly if the thread lets go of its index. */
  lemma StoreStep(run: seq<State>, steps: seq<Step>, k: nat, t: nat)
    requires IsTrace(run, steps) && k < |steps| && t < |run[k].threads| && t < |run[k + 1].threads|
    requires HasIndex(run[k].threads[t]) || AfterStore(run[k].threads[t])
    ensures StoresAt(run, steps, k, t) <==> HasIndex(run[k].threads[t]) && !HasIndex(run[k + 1].threads[t])
    ensures HasIndex(run[k + 1].threads[t]) ==> HasIndex(run[k].threads[t])
  {
    TraceIsRun(run, steps);
    RunKeepsInv(run, k);
    assert Steps(run, steps, k);
    if steps[k].thread == t {
      StepGoes(run[k], run[k + 1], steps[k], steps[k]);
      OwnStoreStep(run[k], run[k + 1], t, steps[k]);
    }
  }

  lemma OwnStoreStep(s: State, s': State, t: nat, call: Step)
    requires Goes(s, s', t, call) && (HasIndex(s.threads[t]) || AfterStore(s.threads[t]))
    ensures s'.stored != s.stored <==> HasIndex(s.threads[t]) && !HasIndex(s'.threads[t])
    ensures HasIndex(s'.threads[t]) ==> HasIndex(s.threads[t])
  {
    var l := s.threads[t];
    if HasIndex(l) && !HasIndex(s'.threads[t]) {
      assert l.ticket in s'.stored && l.ticket !in s.stored;
    }
  }

  /** An `enqueue(x, known)` that has returned stored exactly x, exactly once, at a ticket nothing had
      been stored at, whatever the other threads did meanwhile; and if it was not told that the ring is
      not empty, the threshold was full when it returned. */
  lemma EnqueueStoresItsIndex(run: seq<State>, steps: seq<Step>, i: nat, j: nat, t: nat) returns (m: nat, ticket: nat)
    requires Call(run, steps, i, j, t) && steps[i].StartEnqueue?
    ensures i < m < j && steps[m].thread == t && ticket !in run[m].stored
    ensures run[m + 1].stored == run[m].stored[ticket := steps[i].index]
    ensures forall k | i <= k < j && steps[k].thread == t && k != m :: run[k + 1].stored == run[k].stored
    ensures run[j].threads[t] == Done(None)
    ensures !steps[i].known ==> run[j].threshold == InitialThreshold(run[j].n)
  {
    m := StoredOnce(run, steps, i, j, j, t);
    CallStands(run, steps, i, j, j, t);
    CallStands(run, steps, i, m, j, t);
    StoresWhatItWasHanded(run, steps, m);
    ticket := run[m].threads[t].ticket;
    ReturnResets(run, steps, i, j, t);
    forall k | i <= k < j && steps[k].thread == t && k != m
      ensures run[k + 1].stored == run[k].stored
    {
      assert !StoresAt(run, steps, k, t);
    }
  }

  lemma ReturnResets(run: seq<State>, steps: seq<Step>, i: nat, j: nat, t: nat)
    requires Call(run, steps, i, j, t) && steps[i].StartEnqueue?
    ensures !steps[i].known ==> run[j].threshold == InitialThreshold(run[j].n)
  {
    CallStands(run, steps, i, j - 1, j, t);
    assert Steps(run, steps, j - 1);
    MoverReturns(run, steps, j - 1, t);
    OwnStepGoes(run, steps, j - 1, t, steps[i]);
    LastResets(run[j - 1], run[j], t, steps[i]);
  }

  /** Whoever comes to its answer has made the step. */
  lemma MoverReturns(run: seq<State>, steps: seq<Step>, k: nat, t: nat)
    requires IsTrace(run, steps) && k < |steps| && t < |run[k].threads| && t < |run[k + 1].threads|
    requires run[k + 1].threads[t] != run[k].threads[t]
    ensures steps[k].thread == t
  {
    assert Steps(run, steps, k);
  }

  lemma OwnStepGoes(run: seq<State>, steps: seq<Step>, k: nat, t: nat, call: Step)
    requires IsTrace(run, steps) && k < |steps| && steps[k].thread == t && !Starts(steps[k], t)
    ensures Goes(run[k], run[k + 1], t, call)
  {
    TraceIsRun(run, steps);
    RunKeepsInv(run, k);
    assert Steps(run, steps, k);
    StepGoes(run[k], run[k + 1], steps[k], call);
  }

  /** Only an enqueue that was told the ring is not empty returns right after its store. */
  lemma LastResets(s: State, s': State, t: nat, call: Step)
    requires Goes(s, s', t, call) && Fits(s.threads[t], call) && call.StartEnqueue? && !s.threads[t].Done? && s'.threads[t].Done?
    ensures !call.known ==> s'.threshold == InitialThreshold(s'.n)
  {
  }

  /** With fewer than n indices in the ring, a whole call `enqueue(x, known)` that runs alone, begun in
      any reachable state, stores x within a bounded number of steps. */
  lemma EnqueueCallAlone(run: seq<State>, t: nat, x: nat, known: bool) returns (k: nat, ticket: nat, e: State)
    requires IsRun(run) && Shape(run[|run| - 1]) && Enabled(run[|run| - 1], StartEnqueue(t, x, known))
    requires run[|run| - 1].stores - run[|run| - 1].deliveries < run[|run| - 1].n
    ensures Inv(Do(run[|run| - 1], StartEnqueue(t, x, known))) && e == Solo(Do(run[|run| - 1], StartEnqueue(t, x, known)), t, k)
    ensures StoredAt(run[|run| - 1], e, x, ticket) && (e.threads[t].Done? || e.threads[t].EnqThreshold?)
    ensures k <= 6 * (Max(run[|run| - 1].head - run[|run| - 1].tail, 0) + run[|run| - 1].n + 1)
  {
    var s := run[|run| - 1];
    var s' := Do(s, StartEnqueue(t, x, known));
    StartGoes(s, s', StartEnqueue(t, x, known));
    var longer := run + [s'];
    forall i: nat | i + 1 < |longer|
      ensures StepAt(longer, i)
    {
      if i + 1 < |run| {
        assert StepAt(run, i);
      } else {
        assert Next(s, s');
      }
    }
    assert HasIndex(s'.threads[t]);
    k, ticket, e := EnqueueAlone(longer, |run|, t);
  }

  // ---------------------------------------------------------------- one dequeue

  /** A step inside a dequeue takes something only if it is the last, and it answers what it took. */
  lemma DequeueStep(run: seq<State>, steps: seq<Step>, k: nat, t: nat)
    requires IsTrace(run, steps) && k < |steps| && t < |run[k].threads| && t < |run[k + 1].threads| && steps[k].thread == t
    requires !HasIndex(run[k].threads[t]) && !AfterStore(run[k].threads[t]) && !Starts(steps[k], t)
    ensures var s, s', l' := run[k], run[k + 1], run[k + 1].threads[t];
            && s'.stored == s.stored
            && (!l'.Done? || l'.result == None ==> s'.taken == s.taken)
            && (l'.Done? && l'.result.Some? ==>
                  && s.threads[t].DeqTake?
                  && var ticket := s.threads[t].ticket;
                     && ticket in s.stored && ticket !in s.taken
                     && s.stored[ticket] == l'.result.value && s'.taken == s.taken[ticket := l'.result.value])
  {
    TraceIsRun(run, steps);
    RunKeepsInv(run, k);
    assert Steps(run, steps, k);
    StepGoes(run[k], run[k + 1], steps[k], steps[k]);
  }

  lemma TakesLast(run: seq<State>, steps: seq<Step>, i: nat, k: nat, j: nat, t: nat)
    requires Call(run, steps, i, j, t) && steps[i].StartDequeue? && i <= k < j && steps[k].thread == t
    requires k + 1 < j || run[j].threads[t].result == None
    ensures run[k + 1].taken == run[k].taken
  {
    assert Steps(run, steps, k);
    if k == i {
      StartGoes(run[i], run[i + 1], steps[i]);
    } else {
      CallStands(run, steps, i, k, j, t);
      DequeueStep(run, steps, k, t);
    }
  }

  /** A `try_dequeue` that answers an index took it in its last step, from a ticket at which it was
      stored and nobody had taken it, and took nothing else; one that answers nullopt took nothing and
      was not told that the ring is not empty. */
  lemma DequeueAnswersWhatItTook(run: seq<State>, steps: seq<Step>, i: nat, j: nat, t: nat) returns (ticket: nat)
    requires Call(run, steps, i, j, t) && steps[i].StartDequeue?
    ensures forall k | i <= k < j && steps[k].thread == t && (k + 1 < j || run[j].threads[t].result == None) ::
              run[k + 1].taken == run[k].taken
    ensures run[j].threads[t].result.Some? ==>
              && ticket in run[j - 1].stored && ticket !in run[j - 1].taken
              && run[j - 1].stored[ticket] == run[j].threads[t].result.value
              && run[j].taken == run[j - 1].taken[ticket := run[j].threads[t].result.value]
    ensures steps[i].known ==> run[j].threads[t].result.Some?
  {
    forall k | i <= k < j && steps[k].thread == t && (k + 1 < j || run[j].threads[t].result == None)
      ensures run[k + 1].taken == run[k].taken
    {
      TakesLast(run, steps, i, k, j, t);
    }
    CallStands(run, steps, i, j, j, t);
    ticket := 0;
    if run[j].threads[t].result.Some? {
      ticket := LastTakes(run, steps, i, j, t);
    }
  }

  lemma LastTakes(run: seq<State>, steps: seq<Step>, i: nat, j: nat, t: nat) returns (ticket: nat)
    requires Call(run, steps, i, j, t) && steps[i].StartDequeue? && run[j].threads[t].result.Some?
    ensures ticket in run[j - 1].stored && ticket !in run[j - 1].taken
    ensures run[j - 1].stored[ticket] == run[j].threads[t].result.value
    ensures run[j].taken == run[j - 1].taken[ticket := run[j].threads[t].result.value]
  {
    CallStands(run, steps, i, j - 1, j, t);
    assert Steps(run, steps, j - 1);
    MoverReturns(run, steps, j - 1, t);
    DequeueStep(run, steps, j - 1, t);
    ticket := run[j - 1].threads[t].ticket;
  }

  // ---------------------------------------------------------------- what is in the ring

  function Once(yes: bool): nat {
    if yes then 1 else 0
  }

  /** How often an index is stored below a ticket and not taken. */
  ghost function Resting(stored: map<nat, nat>, taken: map<nat, nat>, below: nat, index: nat): nat {
    if below == 0 then 0
    else Resting(stored, taken, below - 1, index) + Once(RestsAt(stored, taken, below - 1, index))
  }

  predicate RestsAt(stored: map<nat, nat>, taken: map<nat, nat>, ticket: nat, index: nat) {
    ticket in stored && ticket !in taken && stored[ticket] == index
  }

  /** How often an index is in the ring. */
  ghost function InRing(s: State, index: nat): nat {
    Resting(s.stored, s.taken, s.tail, index)
  }

  /** How often enqueue calls were handed an index and have stored, in the first n steps. */
  ghost function HandedIn(run: seq<State>, steps: seq<Step>, n: nat, index: nat): nat
    requires |run| == |steps| + 1 && n <= |steps|
  {
    if n == 0 then 0
    else HandedIn(run, steps, n - 1, index)
         + Once(HandsIn(run[n - 1], run[n], CallOf(steps, n - 1, steps[n - 1].thread), index))
  }

  ghost predicate HandsIn(s: State, s': State, call: Option<Step>, index: nat) {
    s'.stored != s.stored && call.Some? && call.value.StartEnqueue? && call.value.index == index
  }

  /** How often dequeue calls have answered an index. */
  ghost function Answered(run: seq<State>, steps: seq<Step>, n: nat, index: nat): nat
    requires |run| == |steps| + 1 && n <= |steps|
  {
    if n == 0 then 0
    else Answered(run, steps, n - 1, index) + Once(Answers(run[n - 1], run[n], steps[n - 1].thread, index))
  }

  predicate Answers(s: State, s': State, t: nat, index: nat) {
    && t < |s.threads| && t < |s'.threads| && !s.threads[t].Done?
    && s'.threads[t] == Done(Some(index))
  }

  lemma {:induction false} RestingGrows(stored: map<nat, nat>, taken: map<nat, nat>, below: nat, more: nat, index: nat)
    requires below <= more && forall k | k in stored :: k < below
    ensures Resting(stored, taken, more, index) == Resting(stored, taken, below, index)
  {
    if more == below {
    } else {
      RestingGrows(stored, taken, below, more - 1, index);
    }
  }

  lemma {:induction false} RestingStores(stored: map<nat, nat>, taken: map<nat, nat>, below: nat, ticket: nat, x: nat, index: nat)
    requires ticket !in stored && ticket !in taken
    ensures Resting(stored[ticket := x], taken, below, index)
         == Resting(stored, taken, below, index) + Once(ticket < below && x == index)
  {
    if below == 0 {
    } else {
      RestingStores(stored, taken, below - 1, ticket, x, index);
    }
  }

  lemma {:induction false} RestingTakes(stored: map<nat, nat>, taken: map<nat, nat>, below: nat, ticket: nat, x: nat, index: nat)
    requires ticket in stored && ticket !in taken
    ensures Resting(stored, taken, below, index)
         == Resting(stored, taken[ticket := x], below, index) + Once(ticket < below && stored[ticket] == index)
  {
    if below == 0 {
    } else {
      RestingTakes(stored, taken, below - 1, ticket, x, index);
    }
  }

  lemma TailGrows(s: State, s': State, step: Step)
    requires Inv(s) && Enabled(s, step) && s' == Do(s, step)
    ensures s.tail <= s'.tail
  {
    ScqSafety.StepKeepsInv(s, step);
  }

  lemma MovesIndices(s: State, s': State, t: nat, call: Step, index: nat)
    requires HistorySound(s) && HistorySound(s') && s.tail <= s'.tail
    requires Goes(s, s', t, call) && Fits(s.threads[t], call) && !s.threads[t].Done?
    ensures InRing(s, index) + Once(HandsIn(s, s', Some(call), index)) == Once(Answers(s, s', t, index)) + InRing(s', index)
  {
    var l, l' := s.threads[t], s'.threads[t];
    RestingGrows(s.stored, s.taken, s.tail, s'.tail, index);
    if HasIndex(l) && !HasIndex(l') {
      assert l.ticket in s'.stored && l.ticket !in s.taken;
      RestingStores(s.stored, s.taken, s'.tail, l.ticket, l.index, index);
    } else if l.DeqTake? {
      RestingTakes(s.stored, s.taken, s'.tail, l.ticket, s.stored[l.ticket], index);
    }
  }

  /** What one step does to the contents of the ring. */
  lemma StepMovesIndices(s: State, s': State, step: Step, call: Option<Step>, index: nat)
    requires Inv(s) && Inv(s') && Enabled(s, step) && s' == Do(s, step) && FitsLatest(s.threads[step.thread], call)
    ensures InRing(s, index) + Once(HandsIn(s, s', call, index)) == Once(Answers(s, s', step.thread, index)) + InRing(s', index)
  {
    var t := step.thread;
    if Starts(step, t) {
      StartGoes(s, s', step);
    } else {
      StepGoes(s, s', step, call.value);
      TailGrows(s, s', step);
      MovesIndices(s, s', t, call.value, index);
    }
  }

  lemma StepAtBalances(run: seq<State>, steps: seq<Step>, m: nat, index: nat)
    requires IsTrace(run, steps) && m < |steps|
    ensures InRing(run[m], index) + Once(HandsIn(run[m], run[m + 1], CallOf(steps, m, steps[m].thread), index))
         == Once(Answers(run[m], run[m + 1], steps[m].thread, index)) + InRing(run[m + 1], index)
  {
    TraceIsRun(run, steps);
    RunKeepsInv(run, m);
    RunKeepsInv(run, m + 1);
    assert Steps(run, steps, m);
    ThreadsFit(run, steps, m, steps[m].thread);
    StepMovesIndices(run[m], run[m + 1], steps[m], CallOf(steps, m, steps[m].thread), index);
  }

  /** For every index: as often as it was in the ring at first, and enqueue calls were handed it and
      have stored, dequeue calls have answered it or it is in the ring.  So none is lost, doubled or
      changed on its way. */
  lemma {:induction false} IndicesBalance(run: seq<State>, steps: seq<Step>, n: nat, index: nat)
    requires IsTrace(run, steps) && n <= |steps|
    ensures InRing(run[0], index) + HandedIn(run, steps, n, index) == Answered(run, steps, n, index) + InRing(run[n], index)
  {
    if n == 0 {
    } else {
      IndicesBalance(run, steps, n - 1, index);
      StepAtBalances(run, steps, n - 1, index);
    }
  }
}
