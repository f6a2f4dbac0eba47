/** What a bounded closable queue is, one call at a time, whichever way it is stored. */
module BoundedFifo {
  import opened Sequences

  datatype Fifo<E> = Fifo(capacity: nat, events: seq<E>, closed: bool)

  /** `throws`: the constructor of the event throws, if it is reached. */
  datatype Call<E> = Push(event: E, throws: bool) | Pop | Close | Discard

  datatype Reply<E> =
    | Success | Full | Threw | Closed | Empty | Done
    | Popped(event: E)
    | Discarded(count: nat)

  function PushReply<E>(q: Fifo<E>, throws: bool): Reply<E> {
    if q.closed then Closed
    else if |q.events| == q.capacity then Full
    else if throws then Threw
    else Success
  }

  function PopReply<E>(q: Fifo<E>): Reply<E> {
    if q.events != [] then Popped(q.events[0]) else if q.closed then Closed else Empty
  }

  function Answer<E>(q: Fifo<E>, call: Call<E>): Reply<E> {
    match call
    case Push(_, throws) => PushReply(q, throws)
    case Pop => PopReply(q)
    case Close => Done
    case Discard => Discarded(|q.events|)
  }

  function After<E>(q: Fifo<E>, call: Call<E>): Fifo<E> {
    match call
    case Push(event, throws) => if PushReply(q, throws) == Success then q.(events := q.events + [event]) else q
    case Pop => if q.events == [] then q else q.(events := q.events[1..])
    case Close => q.(closed := true)
    case Discard => q.(events := [], closed := true)
  }

  // ---------------------------------------------------------------- runs of calls

  function Run<E>(q: Fifo<E>, calls: seq<Call<E>>): Fifo<E>
    decreases calls
  {
    if calls == [] then q else Run(After(q, calls[0]), calls[1..])
  }

  function Replies<E>(q: Fifo<E>, calls: seq<Call<E>>): seq<Reply<E>>
    decreases calls
  {
    if calls == [] then [] else [Answer(q, calls[0])] + Replies(After(q, calls[0]), calls[1..])
  }

  /** The events whose push succeeded, in order. */
  function Accepted<E>(q: Fifo<E>, calls: seq<Call<E>>): seq<E>
    decreases calls
  {
    if calls == [] then [] else
    (if calls[0].Push? && Answer(q, calls[0]) == Success then [calls[0].event] else [])
    + Accepted(After(q, calls[0]), calls[1..])
  }

  /** The events that pops answered, in order. */
  function Delivered<E>(replies: seq<Reply<E>>): seq<E> {
    if replies == [] then [] else
    (if replies[0].Popped? then [replies[0].event] else []) + Delivered(replies[1..])
  }

  function DiscardedCount<E>(replies: seq<Reply<E>>): nat {
    if replies == [] then 0 else
    (if replies[0].Discarded? then replies[0].count else 0) + DiscardedCount(replies[1..])
  }

  lemma {:induction false} ClosedAcceptsNothing<E>(q: Fifo<E>, calls: seq<Call<E>>)
    requires q.closed
    ensures Accepted(q, calls) == []
    decreases calls
  {
    if calls == [] {
    } else {
      ClosedAcceptsNothing(After(q, calls[0]), calls[1..]);
    }
  }

  /** Nothing is lost, duplicated or reordered: what was queued and then accepted is what was popped,
      then what was discarded, then what is still queued; the discarded ones are counted. */
  lemma {:induction false} AcceptedLeaveInOrder<E>(q: Fifo<E>, calls: seq<Call<E>>) returns (discarded: seq<E>)
    ensures q.events + Accepted(q, calls) == Delivered(Replies(q, calls)) + discarded + Run(q, calls).events
    ensures |discarded| == DiscardedCount(Replies(q, calls))
    decreases calls
  {
    if calls == [] {
      discarded := [];
      return;
    }
    var q', rest := After(q, calls[0]), calls[1..];
    var later := AcceptedLeaveInOrder(q', rest);
    discarded := OneCall(q, calls, later);
  }

  /** One more call in front: what it adds to the accepted, the delivered and the discarded. */
  lemma OneCall<E>(q: Fifo<E>, calls: seq<Call<E>>, later: seq<E>) returns (discarded: seq<E>)
    requires calls != []
    requires var q', rest := After(q, calls[0]), calls[1..];
             && q'.events + Accepted(q', rest) == Delivered(Replies(q', rest)) + later + Run(q', rest).events
             && |later| == DiscardedCount(Replies(q', rest))
    ensures q.events + Accepted(q, calls) == Delivered(Replies(q, calls)) + discarded + Run(q, calls).events
    ensures |discarded| == DiscardedCount(Replies(q, calls))
  {
    var q', rest := After(q, calls[0]), calls[1..];
    var replies := Replies(q', rest);
    assert Replies(q, calls)[1..] == replies;
    if calls[0].Discard? {
      discarded := q.events;
      DiscardCall(q, calls, later);
    } else if calls[0].Pop? && q.events != [] {
      discarded := later;
      assert q.events == [q.events[0]] + q'.events;
      PopFirst([q.events[0]], q'.events, Accepted(q', rest), Delivered(replies), later, Run(q', rest).events);
    } else {
      discarded := later;
      QuietCall(q, calls);
    }
  }

  lemma DiscardCall<E>(q: Fifo<E>, calls: seq<Call<E>>, later: seq<E>)
    requires calls != [] && calls[0].Discard?
    requires var q', rest := After(q, calls[0]), calls[1..];
             && q'.events + Accepted(q', rest) == Delivered(Replies(q', rest)) + later + Run(q', rest).events
             && |later| == DiscardedCount(Replies(q', rest))
    ensures q.events + Accepted(q, calls) == Delivered(Replies(q, calls)) + q.events + Run(q, calls).events
    ensures |q.events| == DiscardedCount(Replies(q, calls))
  {
    var q', rest := After(q, calls[0]), calls[1..];
    var replies := Replies(q', rest);
    assert Replies(q, calls)[1..] == replies;
    ClosedAcceptsNothing(q', rest);
    assert |Delivered(replies)| + |later| + |Run(q', rest).events| == 0;
    assert Delivered(replies) == [] && Run(q', rest).events == [];
  }

  /** A call that neither pops nor discards an event. */
  lemma QuietCall<E>(q: Fifo<E>, calls: seq<Call<E>>)
    requires calls != [] && !calls[0].Discard? && (calls[0].Pop? ==> q.events == [])
    ensures var q', rest := After(q, calls[0]), calls[1..];
            && q.events + Accepted(q, calls) == q'.events + Accepted(q', rest)
            && Delivered(Replies(q, calls)) == Delivered(Replies(q', rest))
            && DiscardedCount(Replies(q, calls)) == DiscardedCount(Replies(q', rest))
  {
    var q', rest := After(q, calls[0]), calls[1..];
    assert Replies(q, calls)[1..] == Replies(q', rest);
    if calls[0].Push? && Answer(q, calls[0]) == Success {
      Associate(q.events, [calls[0].event], Accepted(q', rest));
    }
  }

  lemma PopFirst<E>(x: seq<E>, events: seq<E>, accepted: seq<E>, delivered: seq<E>, discarded: seq<E>, left: seq<E>)
    requires events + accepted == delivered + discarded + left
    ensures (x + events) + accepted == (x + delivered) + discarded + left
  {
    Associate(x, events, accepted);
    Associate(x, delivered, discarded);
    Associate(x, delivered + discarded, left);
  }

  /** The queue never holds more than its capacity. */
  lemma {:induction false} CapacityHolds<E>(q: Fifo<E>, calls: seq<Call<E>>)
    requires |q.events| <= q.capacity
    ensures |Run(q, calls).events| <= Run(q, calls).capacity == q.capacity
    decreases calls
  {
    if calls == [] {
    } else {
      CapacityHolds(After(q, calls[0]), calls[1..]);
    }
  }

  /** Closed and empty is for ever: every later push and pop answers closed, every discard counts 0. */
  lemma {:induction false} ClosedAndEmptyIsFinal<E>(q: Fifo<E>, calls: seq<Call<E>>, i: nat)
    requires q.closed && q.events == [] && i < |calls|
    ensures Run(q, calls) == q && |Replies(q, calls)| == |calls|
    ensures Replies(q, calls)[i] == match calls[i]
                                    case Push(_, _) => Closed
                                    case Pop => Closed
                                    case Close => Done
                                    case Discard => Discarded(0)
  {
    assert After(q, calls[0]) == q;
    if |calls| > 1 {
      ClosedAndEmptyIsFinal(q, calls[1..], if i > 0 then i - 1 else 0);
    }
  }

  /** A push that fails or throws leaves no trace, anywhere in a run. */
  lemma {:induction false} FailedPushLeavesNoTrace<E>(q: Fifo<E>, before: seq<Call<E>>, push: Call<E>, after: seq<Call<E>>)
    requires push.Push? && Answer(Run(q, before), push) != Success
    ensures Run(q, before + [push] + after) == Run(q, before + after)
    ensures Accepted(q, before + [push] + after) == Accepted(q, before + after)
    decreases before
  {
    var with, without := before + [push] + after, before + after;
    if before == [] {
      assert with[1..] == after && without == after;
    } else {
      assert with[0] == without[0] == before[0];
      assert with[1..] == before[1..] + [push] + after && without[1..] == before[1..] + after;
      FailedPushLeavesNoTrace(After(q, before[0]), before[1..], push, after);
    }
  }

  // ---------------------------------------------------------------- what every call answers

  lemma {:induction false} RunSnoc<E>(q: Fifo<E>, calls: seq<Call<E>>, call: Call<E>)
    ensures Run(q, calls + [call]) == After(Run(q, calls), call)
    ensures Replies(q, calls + [call]) == Replies(q, calls) + [Answer(Run(q, calls), call)]
    decreases calls
  {
    if calls == [] {
      assert calls + [call] == [call];
    } else {
      assert (calls + [call])[1..] == calls[1..] + [call];
      RunSnoc(After(q, calls[0]), calls[1..], call);
    }
  }

  /** Somebody has closed the queue. */
  predicate Closing<E>(calls: seq<Call<E>>) {
    exists i :: 0 <= i < |calls| && (calls[i].Close? || calls[i].Discard?)
  }

  /** How many events the answers so far leave in the queue: one more for every success, one less for
      every event popped, and less the discarded ones. */
  function Balance<E>(replies: seq<Reply<E>>): int {
    if replies == [] then 0
    else Balance(replies[..|replies| - 1]) + Change(replies[|replies| - 1])
  }

  function Change<E>(reply: Reply<E>): int {
    match reply
    case Success => 1
    case Popped(_) => 0 - 1
    case Discarded(count) => 0 - (count as int)
    case _ => 0
  }

  function NewFifo<E>(capacity: nat): Fifo<E> {
    Fifo(capacity, [], false)
  }

  lemma CallBalances<E>(q: Fifo<E>, call: Call<E>)
    ensures |After(q, call).events| == |q.events| + Change(Answer(q, call))
    ensures After(q, call).closed <==> q.closed || call.Close? || call.Discard?
    ensures After(q, call).capacity == q.capacity
  {
  }

  lemma ClosingSnoc<E>(calls: seq<Call<E>>, call: Call<E>)
    ensures Closing(calls + [call]) <==> Closing(calls) || call.Close? || call.Discard?
  {
    var longer := calls + [call];
    if i :| 0 <= i < |calls| && (calls[i].Close? || calls[i].Discard?) {
      assert longer[i] == calls[i];
    }
    assert longer[|calls|] == call;
  }

  lemma {:induction false} RunBalances<E>(capacity: nat, calls: seq<Call<E>>)
    ensures |Replies(NewFifo(capacity), calls)| == |calls|
    ensures |Run(NewFifo(capacity), calls).events| == Balance(Replies(NewFifo(capacity), calls))
    ensures Run(NewFifo(capacity), calls).closed <==> Closing(calls)
    ensures Run(NewFifo(capacity), calls).capacity == capacity
    decreases |calls|
  {
    if calls == [] {
    } else {
      var front, last := calls[..|calls| - 1], calls[|calls| - 1];
      assert calls == front + [last];
      RunBalances(capacity, front);
      RunSnoc(NewFifo(capacity), front, last);
      ClosingSnoc(front, last);
      CallBalances(Run(NewFifo(capacity), front), last);
      var replies := Replies(NewFifo(capacity), calls);
      assert replies[..|replies| - 1] == Replies(NewFifo(capacity), front);
    }
  }

  lemma {:induction false} ReplyAt<E>(q: Fifo<E>, calls: seq<Call<E>>, i: nat)
    requires i < |calls|
    ensures |Replies(q, calls)| == |calls|
    ensures Replies(q, calls)[i] == Answer(Run(q, calls[..i]), calls[i])
    ensures Replies(q, calls)[..i] == Replies(q, calls[..i])
    decreases |calls|
  {
    var front, last := calls[..|calls| - 1], calls[|calls| - 1];
    assert calls == front + [last];
    RunSnoc(q, front, last);
    if front != [] {
      ReplyAt(q, front, 0);
    }
    if i < |front| {
      ReplyAt(q, front, i);
      assert front[..i] == calls[..i];
      assert Replies(q, calls)[..i] == Replies(q, front)[..i];
    } else {
      assert calls[..i] == front;
    }
  }

  /** The answer to a push: closed exactly after a close or a discard; otherwise full exactly when as
      many events are left as there are slots; otherwise it throws or succeeds. */
  predicate PushAnswer<E>(reply: Reply<E>, throws: bool, closed: bool, left: int, capacity: nat) {
    && (reply == Closed <==> closed)
    && (reply == Full <==> !closed && left == capacity)
    && (reply == Threw <==> !closed && left < capacity && throws)
    && (reply == Success <==> !closed && left < capacity && !throws)
  }

  /** The answer to a pop: an event exactly when one is left; otherwise closed or empty, exactly by
      whether the queue has been closed. */
  predicate PopAnswer<E>(reply: Reply<E>, closed: bool, left: int) {
    && (reply.Popped? <==> left > 0)
    && (reply == Empty <==> left == 0 && !closed)
    && (reply == Closed <==> left == 0 && closed)
  }

  /** What a queue answers follows from the calls and the answers before it alone. */
  lemma RepliesAreExact<E>(capacity: nat, calls: seq<Call<E>>, i: nat)
    requires i < |calls|
    ensures |Replies(NewFifo(capacity), calls)| == |calls|
    ensures var replies := Replies(NewFifo(capacity), calls);
            var closed, left := Closing(calls[..i]), Balance(replies[..i]);
            && 0 <= left <= capacity
            && match calls[i]
               case Push(_, throws) => PushAnswer(replies[i], throws, closed, left, capacity)
               case Pop => PopAnswer(replies[i], closed, left)
               case Close => replies[i] == Done
               case Discard => replies[i].Discarded? && replies[i].count == left
  {
    ReplyAt(NewFifo(capacity), calls, i);
    RunBalances(capacity, calls[..i]);
    CapacityHolds(NewFifo<E>(capacity), calls[..i]);
  }
}
