/** One round of a worker, with any number of workers and any changes of membership: what it takes is
    what it offers, to the members of one moment. */
module DispatcherRounds {
  import opened Wrappers
  import opened Sequences
  import opened BoundedFifo
  import opened Dispatcher
  import opened DispatcherSafety
  import opened DispatcherTheorems
  import opened DispatcherOrder
  import opened DispatcherCalls

  // ---------------------------------------------------------------- membership

  /** The list that the registry published last. */
  function Latest(first: seq<Subscriber>, steps: seq<Step>, n: nat): seq<Subscriber>
    requires n <= |steps|
  {
    if n == 0 then first
    else if steps[n - 1].Subscribe? then steps[n - 1].members
    else Latest(first, steps, n - 1)
  }

  lemma AdvanceLeavesMembers(s: State, s': State, step: Step)
    requires Enabled(s, step) && s' == Do(s, step)
    ensures s'.members == if step.Subscribe? then step.members else s.members
  {
  }

  lemma {:induction false} MembersAreLatest(run: seq<State>, steps: seq<Step>, n: nat)
    requires IsTrace(run, steps) && n <= |steps|
    ensures run[n].members == Latest(run[0].members, steps, n)
  {
    if n > 0 {
      MembersAreLatest(run, steps, n - 1);
      StepFacts(run, steps, n - 1);
      AdvanceLeavesMembers(run[n - 1], run[n], steps[n - 1]);
    }
  }

  // ---------------------------------------------------------------- what a worker adds

  function More<T(==)>(before: seq<T>, after: seq<T>): seq<T> {
    if before <= after then after[|before|..] else []
  }

  /** What a worker has taken from the queue and offered, and how many events it has counted as
      broadcast. */
  datatype Share = Share(taken: seq<Event>, offered: seq<Offer>, counted: int)

  /** What one more step adds. */
  function AddStep(share: Share, s: State, s': State): Share {
    Share(if s'.trace.taken == s.trace.taken then share.taken else share.taken + More(s.trace.taken, s'.trace.taken),
          if s'.trace.offers == s.trace.offers then share.offered else share.offered + More(s.trace.offers, s'.trace.offers),
          share.counted + s'.trace.broadcast - s.trace.broadcast)
  }

  /** The share of worker t in the steps from i to n. */
  ghost function ShareOf(run: seq<State>, steps: seq<Step>, i: nat, n: nat, t: nat): Share
    requires |run| == |steps| + 1 && i <= n <= |steps|
    decreases n
  {
    if n == i then Share([], [], 0)
    else if StepOf(steps[n - 1], t) then AddStep(ShareOf(run, steps, i, n - 1, t), run[n - 1], run[n])
    else ShareOf(run, steps, i, n - 1, t)
  }

  /** Errors are counted exactly where a callback throws. */
  predicate ErrorsCounted(s: State, s': State, step: Step) {
    s'.errors == s.errors + (if step.Advance? && step.unlucky && s'.trace.offers != s.trace.offers then 1 else 0)
  }

  /** The events of a batch that have been offered, and the offers of the one in progress. */
  function OfferedSoFar(w: WorkerPoint): seq<Offer> {
    match w
    case Broadcasting(batch, snapshot, at, next) =>
      if at > |batch| then []
      else if at == |batch| || next == 0 || next > |snapshot| then Rows(batch[..at], snapshot)
      else Rows(batch[..at], snapshot) + Row(batch[at], snapshot[..next])
    case _ => []
  }

  // ---------------------------------------------------------------- one step of a worker

  lemma TakingStep(s: State, s': State, t: nat, w: WorkerPoint, unlucky: bool)
    requires t < |s.threads| && s.threads[t] == Worker(w) && s' == DoWorker(s, t, w, unlucky)
    requires s.q.events != [] && (w.WaitPop? || (w.Filling? && |w.batch| < s.batchSize))
    ensures var batch := if w.Filling? then w.batch else [];
            && t < |s'.threads| && s'.threads[t] == Worker(Filling(batch + [s.q.events[0]]))
            && s'.trace.taken == s.trace.taken + [s.q.events[0]] && s'.trace.taken != s.trace.taken
            && s'.trace.offers == s.trace.offers && s'.trace.broadcast == s.trace.broadcast
  {
    assert |s'.trace.taken| == |s.trace.taken| + 1;
  }

  lemma StartingStep(s: State, s': State, t: nat, batch: seq<Event>, unlucky: bool)
    requires t < |s.threads| && s.threads[t] == Worker(Filling(batch)) && s' == DoWorker(s, t, Filling(batch), unlucky)
    requires !(|batch| < s.batchSize && s.q.events != []) && batch != []
    ensures t < |s'.threads| && s'.threads[t] == Worker(Broadcasting(batch, s.members, 0, 0)) && s'.trace == s.trace
    ensures OfferedSoFar(Broadcasting(batch, s.members, 0, 0)) == []
  {
  }

  lemma OfferingStep(s: State, s': State, t: nat, batch: seq<Event>, snapshot: seq<Subscriber>, at: nat, next: nat, unlucky: bool)
    requires t < |s.threads| && s.threads[t] == Worker(Broadcasting(batch, snapshot, at, next)) && at < |batch| && next < |snapshot|
    requires s' == DoWorker(s, t, Broadcasting(batch, snapshot, at, next), unlucky)
    ensures t < |s'.threads| && s'.threads[t] == Worker(Broadcasting(batch, snapshot, at, next + 1))
    ensures s'.trace.taken == s.trace.taken && s'.trace.broadcast == s.trace.broadcast
    ensures s'.trace.offers == s.trace.offers + [Offer(batch[at], snapshot[next])] && s'.trace.offers != s.trace.offers
    ensures OfferedSoFar(Broadcasting(batch, snapshot, at, next + 1))
         == OfferedSoFar(Broadcasting(batch, snapshot, at, next)) + [Offer(batch[at], snapshot[next])]
  {
    assert |s'.trace.offers| == |s.trace.offers| + 1;
    RowSnoc(batch[at], snapshot, next);
    if next == 0 {
      assert Row(batch[at], snapshot[..1]) == [Offer(batch[at], snapshot[0])];
    } else {
      Associate(Rows(batch[..at], snapshot), Row(batch[at], snapshot[..next]), [Offer(batch[at], snapshot[next])]);
    }
  }

  lemma FinishingStep(s: State, s': State, t: nat, batch: seq<Event>, snapshot: seq<Subscriber>, at: nat, unlucky: bool)
    requires t < |s.threads| && s.threads[t] == Worker(Broadcasting(batch, snapshot, at, |snapshot|)) && at < |batch|
    requires s' == DoWorker(s, t, Broadcasting(batch, snapshot, at, |snapshot|), unlucky)
    ensures t < |s'.threads| && s'.threads[t] == Worker(Broadcasting(batch, snapshot, at + 1, 0))
    ensures s'.trace.taken == s.trace.taken && s'.trace.offers == s.trace.offers && s'.trace.broadcast == s.trace.broadcast + 1
    ensures OfferedSoFar(Broadcasting(batch, snapshot, at + 1, 0)) == OfferedSoFar(Broadcasting(batch, snapshot, at, |snapshot|))
  {
    assert snapshot[..|snapshot|] == snapshot && batch[..at + 1] == batch[..at] + [batch[at]];
    RowsSnoc(batch[..at], batch[at], snapshot);
    if snapshot == [] {
      assert Rows(batch[..at], snapshot) + Row(batch[at], snapshot) == Rows(batch[..at], snapshot);
    }
  }

  // ---------------------------------------------------------------- a whole round

  /** Worker t takes its first event in step i and waits for the next at j. */
  ghost predicate Round(run: seq<State>, steps: seq<Step>, i: nat, j: nat, t: nat) {
    && IsTrace(run, steps) && i + 1 < j <= |steps|
    && (forall m | i <= m <= j :: t < |run[m].threads|)
    && run[i].threads[t] == Worker(WaitPop) && StepOf(steps[i], t)
    && (forall m | i < m < j :: run[m].threads[t].Worker? && (run[m].threads[t].w.Filling? || run[m].threads[t].w.Broadcasting?))
    && run[j].threads[t] == Worker(WaitPop)
  }

  /** A batch is complete if it is full or there is nothing more to take. */
  predicate Complete(s: State, batch: seq<Event>) {
    |batch| == s.batchSize || s.q.events == []
  }

  /** What a worker that has come to this point of its round has done with its batch. */
  predicate Progress(w: WorkerPoint, batch: seq<Event>, members: seq<Subscriber>, share: Share) {
    && batch != [] && share.taken == batch
    && match w
       case WaitPop => share.offered == Rows(batch, members) && share.counted == |batch|
       case Filling(b) => b == batch && share.offered == [] && share.counted == 0
       case Broadcasting(b, snapshot, at, next) =>
         && b == batch && snapshot == members && at <= |batch| && next <= |snapshot| && (at == |batch| ==> next == 0)
         && share.offered == OfferedSoFar(w) && share.counted == at
       case Exited => false
  }

  lemma MoreOf<T>(before: seq<T>, x: T)
    ensures More(before, before + [x]) == [x]
  {
  }

  lemma TakingProgress(s: State, s': State, t: nat, batch: seq<Event>, members: seq<Subscriber>, share: Share, unlucky: bool)
    requires t < |s.threads| && s.threads[t] == Worker(Filling(batch)) && s' == DoWorker(s, t, Filling(batch), unlucky)
    requires |batch| < s.batchSize && s.q.events != [] && Progress(Filling(batch), batch, members, share)
    ensures t < |s'.threads| && s'.threads[t].Worker? && |batch| + 1 <= s.batchSize
    ensures Progress(s'.threads[t].w, batch + [s.q.events[0]], members, AddStep(share, s, s'))
  {
    TakingStep(s, s', t, Filling(batch), unlucky);
    MoreOf(s.trace.taken, s.q.events[0]);
  }

  lemma StartingProgress(s: State, s': State, t: nat, batch: seq<Event>, members: seq<Subscriber>, share: Share, unlucky: bool)
    requires t < |s.threads| && s.threads[t] == Worker(Filling(batch)) && s' == DoWorker(s, t, Filling(batch), unlucky)
    requires !(|batch| < s.batchSize && s.q.events != []) && Progress(Filling(batch), batch, members, share)
    ensures t < |s'.threads| && s'.threads[t].Worker? && s'.threads[t].w.Broadcasting?
    ensures Progress(s'.threads[t].w, batch, s.members, AddStep(share, s, s'))
  {
    StartingStep(s, s', t, batch, unlucky);
  }

  lemma BroadcastingProgress(s: State, s': State, t: nat, w: WorkerPoint, batch: seq<Event>, members: seq<Subscriber>, share: Share, unlucky: bool)
    requires t < |s.threads| && s.threads[t] == Worker(w) && w.Broadcasting? && s' == DoWorker(s, t, w, unlucky)
    requires Progress(w, batch, members, share)
    ensures t < |s'.threads| && s'.threads[t].Worker? && !s'.threads[t].w.Filling?
    ensures Progress(s'.threads[t].w, batch, members, AddStep(share, s, s'))
  {
    if w.at >= |batch| {
      assert batch[..w.at] == batch;
    } else if w.next < |w.snapshot| {
      OfferingStep(s, s', t, batch, w.snapshot, w.at, w.next, unlucky);
      MoreOf(s.trace.offers, Offer(batch[w.at], w.snapshot[w.next]));
    } else {
      FinishingStep(s, s', t, batch, w.snapshot, w.at, unlucky);
    }
  }

  /** How far a round has come; its snapshot is of moment m. */
  ghost predicate Stands(run: seq<State>, steps: seq<Step>, i: nat, n: nat, t: nat, batch: seq<Event>, m: nat)
    requires |run| == |steps| + 1 && i <= n <= |steps| && t < |run[n].threads| && run[n].threads[t].Worker?
  {
    var w := run[n].threads[t].w;
    && m < n && |batch| <= run[n].batchSize && Progress(w, batch, run[m].members, ShareOf(run, steps, i, n, t))
    && (!w.Filling? ==> i < m && Complete(run[m], batch))
  }

  /** What everything in a round relies on at a step. */
  lemma RoundFacts(run: seq<State>, steps: seq<Step>, n: nat, t: nat)
    requires IsTrace(run, steps) && n < |steps| && t < |run[n].threads| && run[n].threads[t].Worker?
    ensures Inv(run[n]) && Enabled(run[n], steps[n]) && run[n + 1] == Do(run[n], steps[n])
    ensures t < |run[n + 1].threads| && run[n + 1].threads[t].Worker? && run[n + 1].batchSize == run[n].batchSize
    ensures if StepOf(steps[n], t) then steps[n].Advance? else run[n + 1].threads[t] == run[n].threads[t]
  {
    StepFacts(run, steps, n);
    if !steps[n].Subscribe? {
      StepKeeps(run[n], run[n + 1], steps[n]);
    }
  }

  lemma StandsNext(run: seq<State>, steps: seq<Step>, i: nat, n: nat, t: nat, batch: seq<Event>, m: nat) returns (batch': seq<Event>, m': nat)
    requires IsTrace(run, steps) && i < n < |steps| && t < |run[n].threads| && run[n].threads[t].Worker? && !run[n].threads[t].w.WaitPop?
    requires Stands(run, steps, i, n, t, batch, m)
    ensures t < |run[n + 1].threads| && run[n + 1].threads[t].Worker?
    ensures Stands(run, steps, i, n + 1, t, batch', m')
  {
    RoundFacts(run, steps, n, t);
    batch', m' := batch, m;
    var s, s', w, share := run[n], run[n + 1], run[n].threads[t].w, ShareOf(run, steps, i, n, t);
    if StepOf(steps[n], t) {
      if w.Broadcasting? {
        BroadcastingProgress(s, s', t, w, batch, run[m].members, share, steps[n].unlucky);
      } else if |batch| < s.batchSize && s.q.events != [] {
        TakingProgress(s, s', t, batch, run[m].members, share, steps[n].unlucky);
        batch' := batch + [s.q.events[0]];
      } else {
        StartingProgress(s, s', t, batch, run[m].members, share, steps[n].unlucky);
        m' := n;
      }
    }
  }

  lemma FirstTake(run: seq<State>, steps: seq<Step>, i: nat, j: nat, t: nat) returns (batch: seq<Event>)
    requires Round(run, steps, i, j, t)
    ensures Stands(run, steps, i, i + 1, t, batch, i)
  {
    RoundFacts(run, steps, i, t);
    var s, s' := run[i], run[i + 1];
    TakingStep(s, s', t, WaitPop, steps[i].unlucky);
    MoreOf(s.trace.taken, s.q.events[0]);
    batch := [s.q.events[0]];
    assert ShareOf(run, steps, i, i, t) == Share([], [], 0);
    assert [] + batch == batch;
  }

  lemma {:induction false} RoundStands(run: seq<State>, steps: seq<Step>, i: nat, n: nat, j: nat, t: nat) returns (batch: seq<Event>, m: nat)
    requires Round(run, steps, i, j, t) && i < n <= j
    ensures run[n].threads[t].Worker? && Stands(run, steps, i, n, t, batch, m)
    decreases n
  {
    if n == i + 1 {
      batch := FirstTake(run, steps, i, j, t);
      m := i;
    } else {
      batch, m := RoundStands(run, steps, i, n - 1, j, t);
      batch, m := StandsNext(run, steps, i, n - 1, t, batch, m);
    }
  }

  /** A round of a worker, among any number of workers: it takes a batch of the batch size, or fewer if
      the queue was empty then, and offers exactly that batch, event by event, to every member of the
      list that was the registry's latest at that moment, in the order of that list; and it counts every
      event. */
  lemma RoundOffersItsBatch(run: seq<State>, steps: seq<Step>, i: nat, j: nat, t: nat) returns (m: nat)
    requires Round(run, steps, i, j, t)
    ensures var share := ShareOf(run, steps, i, j, t);
            && i < m < j && Complete(run[m], share.taken) && 0 < |share.taken| <= run[j].batchSize
            && share.offered == Rows(share.taken, Latest(run[0].members, steps, m))
            && share.counted == |share.taken|
  {
    var batch;
    batch, m := RoundStands(run, steps, i, j, j, t);
    MembersAreLatest(run, steps, m);
  }

  lemma AdvanceCountsErrors(s: State, s': State, t: nat, unlucky: bool)
    requires t < |s.threads| && s' == DoAdvance(s, t, s.threads[t], unlucky)
    ensures ErrorsCounted(s, s', Advance(t, unlucky))
  {
    if s.threads[t].Worker? && s.threads[t].w.Broadcasting? {
      var w := s.threads[t].w;
      if w.at < |w.batch| && w.next < |w.snapshot| {
        assert |s'.trace.offers| == |s.trace.offers| + 1;
      }
    }
  }

  /** A callback that throws is counted as one error, and nothing else is. */
  lemma ErrorsAreThrows(run: seq<State>, steps: seq<Step>, m: nat)
    requires IsTrace(run, steps) && m < |steps|
    ensures ErrorsCounted(run[m], run[m + 1], steps[m])
  {
    StepFacts(run, steps, m);
    if steps[m].Advance? {
      AdvanceCountsErrors(run[m], run[m + 1], steps[m].thread, steps[m].unlucky);
    }
  }
}
