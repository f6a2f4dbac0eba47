/** The loops of the dispatcher over a mutex queue, one thread at a time: publishing a batch, the
    worker, and the broadcast of a batch. */
module DispatcherLoops {
  import opened Wrappers
  import opened Sequences
  import opened BoundedFifo
  import opened BoundedMutexQueue
  import opened DispatcherOrder
  import D = Dispatcher

  type Event = D.Event
  type Subscriber = D.Subscriber

  function Min(a: nat, b: nat): nat {
    if a < b then a else b
  }

  lemma {:induction false} RowsAppend(a: seq<Event>, b: seq<Event>, members: seq<Subscriber>)
    ensures Rows(a + b, members) == Rows(a, members) + Rows(b, members)
    decreases |b|
  {
    if b == [] {
      assert a + b == a;
    } else {
      assert (a + b)[..|a + b| - 1] == a + b[..|b| - 1];
      RowsAppend(a, b[..|b| - 1], members);
      assert Rows(a, members) + (Rows(b[..|b| - 1], members) + Row(b[|b| - 1], members))
          == (Rows(a, members) + Rows(b[..|b| - 1], members)) + Row(b[|b| - 1], members);
    }
  }

  /** Broadcasting more events adds their offers and their failures. */
  lemma BroadcastMore(done: seq<Event>, more: seq<Event>, members: seq<Subscriber>, throws: D.Offer -> bool)
    ensures Rows(done + more, members) == Rows(done, members) + Rows(more, members)
    ensures Failures(Rows(done + more, members), throws) == Failures(Rows(done, members), throws) + Failures(Rows(more, members), throws)
  {
    RowsAppend(done, more, members);
    FailuresAppend(Rows(done, members), Rows(more, members), throws);
  }

  lemma BroadcastNext(batch: seq<Event>, i: nat, members: seq<Subscriber>, throws: D.Offer -> bool)
    requires i < |batch|
    ensures Rows(batch[..i + 1], members) == Rows(batch[..i], members) + Row(batch[i], members)
    ensures Failures(Rows(batch[..i + 1], members), throws)
         == Failures(Rows(batch[..i], members), throws) + Failures(Row(batch[i], members), throws)
  {
    assert batch[..i + 1] == batch[..i] + [batch[i]];
    RowsSnoc(batch[..i], batch[i], members);
    FailuresAppend(Rows(batch[..i], members), Row(batch[i], members), throws);
  }

  class SharedState {
    const events: MutexQueue<Event>
    const batchSize: nat
    var running: bool
    var accepted: nat
    var rejected: nat
    var members: seq<Subscriber>
    var offers: seq<D.Offer>
    var errors: nat

    ghost predicate Valid()
      reads this, events, events.slots
    {
      events.Valid() && batchSize > 0
    }

    ghost function Queue(): Fifo<Event>
      requires Valid()
      reads this, events, events.slots
    {
      events.Value()
    }

    constructor (capacity: nat, batchSize: nat)
      requires capacity > 0 && batchSize > 0
      ensures Valid() && fresh(events) && fresh(events.slots)
      ensures Queue() == Fifo(capacity, [], false) && running && accepted == rejected == 0
      ensures members == [] && offers == [] && errors == 0
    {
      events := new MutexQueue<Event>(capacity);
      this.batchSize := batchSize;
      running, accepted, rejected, members, offers, errors := true, 0, 0, [], [], 0;
    }

    /** `publish_with` around `try_push`. */
    method TryPublish(event: Event) returns (reply: Reply<Event>)
      requires Valid()
      modifies this`accepted, this`rejected, events`tail, events`size, events.slots
      ensures Valid()
      ensures reply == if running then PushReply(old(Queue()), false) else Reply.Closed
      ensures Queue() == if reply == Success then old(Queue()).(events := old(Queue()).events + [event]) else old(Queue())
      ensures accepted == old(accepted) + (if reply == Success then 1 else 0)
      ensures rejected == old(rejected) + (if reply == Success then 0 else 1)
    {
      if !running {
        rejected := rejected + 1;
        return Reply.Closed;
      }
      reply := events.TryPush(event, false);
      if reply == Success {
        accepted := accepted + 1;
      } else {
        rejected := rejected + 1;
      }
    }

    /** A batch is accepted as far as there is room, in order, and not at all when the dispatcher
        does not run or the queue is closed. */
    method TryPublishBatch(batch: seq<Event>) returns (count: nat, status: Reply<Event>)
      requires Valid()
      modifies this`accepted, this`rejected, events`tail, events`size, events.slots
      ensures Valid()
      ensures var q := old(Queue());
              && count == (if running && !q.closed then Min(|batch|, q.capacity - |q.events|) else 0)
              && status == (if count == |batch| then Success else if running && !q.closed then Full else Reply.Closed)
              && Queue() == q.(events := q.events + batch[..count])
      ensures accepted == old(accepted) + count
      ensures rejected == old(rejected) + (if count == |batch| then 0 else 1)
    {
      count := 0;
      ghost var q := Queue();
      for i := 0 to |batch|
        invariant Valid() && count == i
        invariant Queue() == q.(events := q.events + batch[..i])
        invariant i > 0 ==> running && !q.closed
        invariant accepted == old(accepted) + i && rejected == old(rejected)
      {
        status := TryPublish(batch[i]);
        if status != Success {
          return;
        }
        assert batch[..i + 1] == batch[..i] + [batch[i]];
        count := count + 1;
      }
      assert batch[..|batch|] == batch;
      status := Success;
    }

    /** One event to every member; a throwing callback is reported and does not stop the others. */
    method BroadcastEvent(event: Event, snapshot: seq<Subscriber>, throws: D.Offer -> bool)
      modifies this`offers, this`errors
      ensures offers == old(offers) + Row(event, snapshot)
      ensures errors == old(errors) + Failures(Row(event, snapshot), throws)
    {
      for j := 0 to |snapshot|
        invariant offers == old(offers) + Row(event, snapshot[..j])
        invariant errors == old(errors) + Failures(Row(event, snapshot[..j]), throws)
      {
        var offer := D.Offer(event, snapshot[j]);
        RowSnoc(event, snapshot, j);
        FailuresAppend(Row(event, snapshot[..j]), [offer], throws);
        assert Failures([offer], throws) == Failures([], throws) + (if throws(offer) then 1 else 0);
        offers := offers + [offer];
        if throws(offer) {
          errors := errors + 1;
        }
      }
      assert snapshot[..|snapshot|] == snapshot;
    }

    method BroadcastBatch(batch: seq<Event>, throws: D.Offer -> bool)
      modifies this`offers, this`errors
      ensures offers == old(offers) + Rows(batch, members)
      ensures errors == old(errors) + Failures(Rows(batch, members), throws)
    {
      var snapshot := members;
      for i := 0 to |batch|
        invariant offers == old(offers) + Rows(batch[..i], snapshot)
        invariant errors == old(errors) + Failures(Rows(batch[..i], snapshot), throws)
      {
        BroadcastNext(batch, i, snapshot, throws);
        BroadcastEvent(batch[i], snapshot, throws);
      }
      assert batch[..|batch|] == batch;
    }

    /** Fills a batch that already has its first event. */
    method FillBatch(first: Event) returns (batch: seq<Event>)
      requires Valid()
      modifies events`head, events`size, events.slots
      ensures Valid() && 0 < |batch| <= batchSize && batch[0] == first
      ensures batch + Queue().events == [first] + old(Queue()).events
      ensures Queue() == old(Queue()).(events := Queue().events)
      ensures |batch| == Min(batchSize, 1 + |old(Queue()).events|)
    {
      ghost var q, all := Queue(), [first] + Queue().events;
      batch := [first];
      while |batch| < batchSize
        invariant Valid() && Queue() == q.(events := Queue().events)
        invariant 0 < |batch| <= batchSize && batch[0] == first
        invariant batch + Queue().events == all
        modifies events`head, events`size, events.slots
      {
        ghost var left := Queue().events;
        var next := events.TryPop();
        if !next.Popped? {
          break;
        }
        assert left == [next.event] + Queue().events;
        Associate(batch, [next.event], Queue().events);
        batch := batch + [next.event];
      }
    }

    /** Waits for an event, which at a closed queue never blocks, and fills a batch with it. */
    method NextBatch() returns (batch: seq<Event>)
      requires Valid() && Queue().closed
      modifies events`head, events`size, events.slots
      ensures Valid() && batch + Queue().events == old(Queue()).events
      ensures Queue() == old(Queue()).(events := Queue().events)
      ensures |batch| == Min(batchSize, |old(Queue()).events|)
    {
      var result := events.TryPop();
      if !result.Popped? {
        return [];
      }
      batch := FillBatch(result.event);
    }

    /** Exactly these events have been broadcast since the log and the error count were as given. */
    ghost predicate Broadcasted(done: seq<Event>, throws: D.Offer -> bool, log: seq<D.Offer>, failed: nat)
      reads this
    {
      offers == log + Rows(done, members) && errors == failed + Failures(Rows(done, members), throws)
    }

    /** One round of the worker; the last one finds nothing. */
    method Round(throws: D.Offer -> bool, ghost done: seq<Event>, ghost log: seq<D.Offer>, ghost failed: nat) returns (batch: seq<Event>)
      requires Valid() && Queue().closed && Broadcasted(done, throws, log, failed)
      modifies this`offers, this`errors, events`head, events`size, events.slots
      ensures Valid() && Queue() == old(Queue()).(events := Queue().events)
      ensures done + batch + Queue().events == done + old(Queue()).events
      ensures |batch| == Min(batchSize, |old(Queue()).events|)
      ensures Broadcasted(done + batch, throws, log, failed)
    {
      batch := NextBatch();
      Associate(done, batch, Queue().events);
      BroadcastFurther(done, batch, throws, log, failed);
    }

    method BroadcastFurther(ghost done: seq<Event>, batch: seq<Event>, throws: D.Offer -> bool, ghost log: seq<D.Offer>, ghost failed: nat)
      requires Broadcasted(done, throws, log, failed)
      modifies this`offers, this`errors
      ensures Broadcasted(done + batch, throws, log, failed)
    {
      BroadcastMore(done, batch, members, throws);
      Associate(log, Rows(done, members), Rows(batch, members));
      BroadcastBatch(batch, throws);
    }

    /** A worker of a closed queue: it empties the queue, offering every event to every member in
        queue order, whatever the batch size, and returns. */
    method Run(throws: D.Offer -> bool)
      requires Valid() && Queue().closed
      modifies this`offers, this`errors, events`head, events`size, events.slots
      ensures Valid() && Queue() == old(Queue()).(events := [])
      ensures Broadcasted(old(Queue()).events, throws, old(offers), old(errors))
    {
      ghost var q, log, failed, done: seq<Event> := Queue(), offers, errors, [];
      while true
        invariant Valid() && Queue() == q.(events := Queue().events)
        invariant done + Queue().events == q.events
        invariant Broadcasted(done, throws, log, failed)
        modifies this`offers, this`errors, events`head, events`size, events.slots
        decreases |Queue().events|
      {
        var batch := Round(throws, done, log, failed);
        done := done + batch;
        if |batch| == 0 {
          return;
        }
      }
    }
  }
}
