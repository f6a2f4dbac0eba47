/** With one worker and a fixed membership the offers are queue order by snapshot order, whatever the
    batch size and whichever callbacks throw. */
module DispatcherOrder {
  import opened Wrappers
  import opened Sequences
  import opened BoundedFifo
  import opened Dispatcher
  import opened DispatcherSafety
  import opened DispatcherTheorems

  /** One event to every member, in order. */
  function Row(event: Event, members: seq<Subscriber>): (row: seq<Offer>)
    ensures |row| == |members|
    ensures forall j | 0 <= j < |members| :: row[j] == Offer(event, members[j])
  {
    seq(|members|, j requires 0 <= j < |members| => Offer(event, members[j]))
  }

  /** Each event to every member, in order. */
  function Rows(events: seq<Event>, members: seq<Subscriber>): seq<Offer> {
    if events == [] then [] else Rows(events[..|events| - 1], members) + Row(events[|events| - 1], members)
  }

  lemma RowsSnoc(events: seq<Event>, event: Event, members: seq<Subscriber>)
    ensures Rows(events + [event], members) == Rows(events, members) + Row(event, members)
  {
    assert (events + [event])[..|events|] == events;
  }

  lemma RowSnoc(event: Event, members: seq<Subscriber>, next: nat)
    requires next < |members|
    ensures Row(event, members[..next + 1]) == Row(event, members[..next]) + [Offer(event, members[next])]
  {
  }

  predicate OnlyWorker(threads: seq<Local>, w: nat) {
    w < |threads| && threads[w].Worker? && forall t | 0 <= t < |threads| && t != w :: !threads[t].Worker?
  }

  /** The events that the worker has taken and not yet offered to all members. */
  function Rest(w: WorkerPoint): seq<Event> {
    match w
    case WaitPop => []
    case Filling(batch) => batch
    case Broadcasting(batch, _, at, _) => if at <= |batch| then batch[at..] else []
    case Exited => []
  }

  /** The offers of the event in progress. */
  function Partial(w: WorkerPoint, members: seq<Subscriber>): seq<Offer> {
    match w
    case WaitPop => []
    case Filling(_) => []
    case Broadcasting(batch, _, at, next) =>
      if at < |batch| && next <= |members| then Row(batch[at], members[..next]) else []
    case Exited => []
  }

  /** The worker has offered the events `done` to all members, and has the rest in hand. */
  ghost predicate OfferedUpTo(s: State, w: WorkerPoint, members: seq<Subscriber>, done: seq<Event>) {
    && s.trace.taken == done + Rest(w)
    && s.trace.offers == Rows(done, members) + Partial(w, members)
    && (w.Broadcasting? ==> w.snapshot == members && w.at <= |w.batch| && w.next <= |members| && (w.at == |w.batch| ==> w.next == 0))
  }

  lemma TakeOrders(s: State, s': State, t: nat, w: WorkerPoint, members: seq<Subscriber>, done: seq<Event>)
    requires t < |s.threads| && OfferedUpTo(s, w, members, done) && s.q.events != [] && (w.WaitPop? || w.Filling?)
    requires s' == TakeInto(s, t, Rest(w))
    ensures OfferedUpTo(s', s'.threads[t].w, members, done)
  {
  }

  lemma OfferOrders(s: State, s': State, t: nat, batch: seq<Event>, at: nat, next: nat, members: seq<Subscriber>, done: seq<Event>, unlucky: bool)
    requires t < |s.threads| && at < |batch| && next < |members|
    requires OfferedUpTo(s, Broadcasting(batch, members, at, next), members, done)
    requires s' == DoWorker(s, t, Broadcasting(batch, members, at, next), unlucky)
    ensures OfferedUpTo(s', s'.threads[t].w, members, done)
  {
    RowSnoc(batch[at], members, next);
    assert s'.threads[t].w == Broadcasting(batch, members, at, next + 1);
    assert s'.trace.taken == s.trace.taken && s'.trace.offers == s.trace.offers + [Offer(batch[at], members[next])];
    Associate(Rows(done, members), Row(batch[at], members[..next]), [Offer(batch[at], members[next])]);
  }

  lemma NextOfBatch(batch: seq<Event>, at: nat, done: seq<Event>)
    requires at < |batch|
    ensures done + batch[at..] == (done + [batch[at]]) + batch[at + 1..]
  {
    assert batch[at..] == [batch[at]] + batch[at + 1..];
  }

  lemma NothingOffered(batch: seq<Event>, at: nat, members: seq<Subscriber>)
    ensures Partial(Broadcasting(batch, members, at, 0), members) == []
  {
  }

  lemma FinishRow(event: Event, members: seq<Subscriber>, done: seq<Event>)
    ensures Rows(done + [event], members) == Rows(done, members) + Row(event, members[..|members|])
  {
    RowsSnoc(done, event, members);
    assert members[..|members|] == members;
  }

  lemma FinishOrders(s: State, s': State, t: nat, batch: seq<Event>, at: nat, members: seq<Subscriber>, done: seq<Event>, unlucky: bool)
    requires t < |s.threads| && at < |batch|
    requires OfferedUpTo(s, Broadcasting(batch, members, at, |members|), members, done)
    requires s' == DoWorker(s, t, Broadcasting(batch, members, at, |members|), unlucky)
    ensures OfferedUpTo(s', s'.threads[t].w, members, done + [batch[at]])
  {
    NextOfBatch(batch, at, done);
    NothingOffered(batch, at + 1, members);
    FinishRow(batch[at], members, done);
    assert s'.threads[t].w == Broadcasting(batch, members, at + 1, 0);
    assert s'.trace.taken == s.trace.taken && s'.trace.offers == s.trace.offers;
  }

  lemma WorkerOrders(s: State, s': State, t: nat, w: WorkerPoint, members: seq<Subscriber>, done: seq<Event>, unlucky: bool)
    returns (done': seq<Event>)
    requires t < |s.threads| && s.threads[t] == Worker(w) && MayAdvance(s, Worker(w)) && s.members == members
    requires OfferedUpTo(s, w, members, done) && PhaseSound(s, Worker(w)) && s' == DoWorker(s, t, w, unlucky)
    ensures s'.threads[t].Worker? && OfferedUpTo(s', s'.threads[t].w, members, done')
  {
    done' := done;
    match w
    case WaitPop =>
      if s.q.events != [] {
        TakeOrders(s, s', t, w, members, done);
      }
    case Filling(batch) =>
      if |batch| < s.batchSize && s.q.events != [] {
        TakeOrders(s, s', t, w, members, done);
      } else {
        assert Row(batch[0], members[..0]) == [];
      }
    case Broadcasting(batch, snapshot, at, next) =>
      if at < |batch| && next < |snapshot| {
        OfferOrders(s, s', t, batch, at, next, members, done, unlucky);
      } else if at < |batch| {
        FinishOrders(s, s', t, batch, at, members, done, unlucky);
        done' := done + [batch[at]];
      }
  }

  /** A step of anybody else takes nothing and offers nothing. */
  lemma OthersOfferNothing(s: State, s': State, t: nat, l: Local, unlucky: bool)
    requires t < |s.threads| && !l.Worker? && s' == DoAdvance(s, t, l, unlucky)
    ensures s'.trace.taken == s.trace.taken && s'.trace.offers == s.trace.offers
    ensures |s'.threads| == |s.threads| && forall u | 0 <= u < |s.threads| && u != t :: s'.threads[u] == s.threads[u]
    ensures !s'.threads[t].Worker? || s'.threads[t] == s.threads[t]
  {
  }

  lemma StepOrders(s: State, s': State, step: Step, w: nat, members: seq<Subscriber>, done: seq<Event>) returns (done': seq<Event>)
    requires Inv(s) && Enabled(s, step) && s' == Do(s, step) && OnlyWorker(s.threads, w) && s.members == members
    requires OfferedUpTo(s, s.threads[w].w, members, done)
    ensures OnlyWorker(s'.threads, w) && OfferedUpTo(s', s'.threads[w].w, members, done')
  {
    done' := done;
    if step.Advance? {
      var t := step.thread;
      assert PhaseSound(s, s.threads[t]);
      if t == w {
        done' := WorkerOrders(s, s', t, s.threads[w].w, members, done, step.unlucky);
        StepKeeps(s, s', step);
      } else {
        OthersOfferNothing(s, s', t, s.threads[t], step.unlucky);
      }
    }
  }

  // ---------------------------------------------------------------- over whole runs

  ghost predicate Fixed(run: seq<State>, members: seq<Subscriber>) {
    forall i | 0 <= i < |run| :: run[i].members == members
  }

  lemma StepAtOrders(run: seq<State>, i: nat, w: nat, members: seq<Subscriber>, done: seq<Event>) returns (done': seq<Event>)
    requires IsRun(run) && 0 < i < |run| && Fixed(run, members) && OnlyWorker(run[i - 1].threads, w)
    requires OfferedUpTo(run[i - 1], run[i - 1].threads[w].w, members, done)
    ensures OnlyWorker(run[i].threads, w) && OfferedUpTo(run[i], run[i].threads[w].w, members, done')
  {
    RunKeepsInv(run, i - 1);
    assert StepAt(run, i - 1);
    var step :| Enabled(run[i - 1], step) && run[i] == Do(run[i - 1], step);
    done' := StepOrders(run[i - 1], run[i], step, w, members, done);
  }

  lemma {:induction false} RunOrders(run: seq<State>, i: nat, w: nat, members: seq<Subscriber>) returns (done: seq<Event>)
    requires IsRun(run) && i < |run| && Fixed(run, members) && OnlyWorker(run[0].threads, w)
    ensures OnlyWorker(run[i].threads, w) && OfferedUpTo(run[i], run[i].threads[w].w, members, done)
  {
    if i == 0 {
      done := [];
    } else {
      var before := RunOrders(run, i - 1, w, members);
      done := StepAtOrders(run, i, w, members, before);
    }
  }

  lemma {:induction false} RowsExtend(done: seq<Event>, rest: seq<Event>, members: seq<Subscriber>)
    ensures Rows(done, members) <= Rows(done + rest, members)
    decreases |rest|
  {
    if rest != [] {
      RowsExtend(done, rest[..|rest| - 1], members);
      assert (done + rest)[..|done + rest| - 1] == done + rest[..|rest| - 1];
    } else {
      assert done + rest == done;
    }
  }

  lemma PartialExtends(done: seq<Event>, rest: seq<Event>, members: seq<Subscriber>, next: nat)
    requires rest != [] && next <= |members|
    ensures Rows(done, members) + Row(rest[0], members[..next]) <= Rows(done + rest, members)
  {
    RowsSnoc(done, rest[0], members);
    assert Row(rest[0], members[..next]) <= Row(rest[0], members);
    RowsExtend(done + [rest[0]], rest[1..], members);
    assert done + [rest[0]] + rest[1..] == done + rest;
  }

  lemma OffersArePrefix(s: State, w: WorkerPoint, members: seq<Subscriber>, done: seq<Event>)
    requires OfferedUpTo(s, w, members, done)
    ensures s.trace.offers <= Rows(s.trace.taken, members)
  {
    var rest := Rest(w);
    if w.Broadcasting? && w.at < |w.batch| {
      assert rest[0] == w.batch[w.at];
      PartialExtends(done, rest, members, w.next);
    } else {
      RowsExtend(done, rest, members);
      assert Partial(w, members) == [];
    }
  }

  /** With one worker and fixed membership the offers made so far are always the beginning of queue
      order by snapshot order, and all of it for the events taken when the worker is between batches. */
  lemma OffersFollowQueueOrder(run: seq<State>, i: nat, w: nat, members: seq<Subscriber>)
    requires IsRun(run) && i < |run| && Fixed(run, members) && OnlyWorker(run[0].threads, w)
    ensures run[i].trace.offers <= Rows(run[i].trace.taken, members)
    ensures run[i].trace.taken <= run[i].trace.enqueued
    ensures OnlyWorker(run[i].threads, w)
    ensures run[i].threads[w].w.WaitPop? || run[i].threads[w].w.Exited? ==>
              run[i].trace.offers == Rows(run[i].trace.taken, members)
  {
    var done := RunOrders(run, i, w, members);
    OffersArePrefix(run[i], run[i].threads[w].w, members, done);
    RunKeepsInv(run, i);
    assert done + [] == done && Rows(done, members) + [] == Rows(done, members);
    assert run[i].trace.enqueued == run[i].trace.taken + (run[i].trace.discarded + run[i].q.events);
  }

  /** After a drained shutdown the whole log is determined by the accepted events and the membership:
      neither the batch size, nor the interleaving, nor a throwing callback changes it. */
  lemma BatchingPreservesMeaning(run: seq<State>, i: nat, w: nat, members: seq<Subscriber>)
    requires IsRun(run) && i < |run| && Fixed(run, members) && OnlyWorker(run[0].threads, w)
    requires run[i].lifecycle == Stopped && run[i].trace.policy == Some(Drain)
    ensures run[i].trace.offers == Rows(run[i].trace.enqueued, members)
  {
    OffersFollowQueueOrder(run, i, w, members);
    RunKeepsInv(run, i);
    StoppedIsEmpty(run[i]);
    assert run[i].threads[w].w.Exited?;
    assert run[i].trace.discarded == [] && run[i].trace.enqueued == run[i].trace.taken;
  }

  lemma BatchSizeDoesNotMatter(run: seq<State>, i: nat, w: nat, run': seq<State>, i': nat, w': nat, members: seq<Subscriber>)
    requires IsRun(run) && i < |run| && Fixed(run, members) && OnlyWorker(run[0].threads, w)
    requires IsRun(run') && i' < |run'| && Fixed(run', members) && OnlyWorker(run'[0].threads, w')
    requires run[i].lifecycle == Stopped && run[i].trace.policy == Some(Drain)
    requires run'[i'].lifecycle == Stopped && run'[i'].trace.policy == Some(Drain)
    requires run[i].trace.enqueued == run'[i'].trace.enqueued
    ensures run[i].trace.offers == run'[i'].trace.offers
  {
    BatchingPreservesMeaning(run, i, w, members);
    BatchingPreservesMeaning(run', i', w', members);
  }
}
