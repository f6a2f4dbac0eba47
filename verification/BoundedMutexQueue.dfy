/** The mutex queue as one thread sees it under the lock: a circular array of optional events. */
module BoundedMutexQueue {
  import opened Wrappers
  import opened BoundedFifo

  /** The position i places after `head` in a circle of n. */
  function Around(n: nat, head: nat, i: nat): nat
    requires head < n && i <= n
  {
    if head + i < n then head + i else head + i - n
  }

  lemma AroundMoves(n: nat, head: nat)
    requires head < n
    ensures forall i: nat | i < n :: Around(n, Around(n, head, 1), i) == Around(n, head, i + 1)
    ensures Around(n, head, n) == head == Around(n, head, 0)
  {
  }

  lemma AroundNext(n: nat, head: nat, i: nat)
    requires head < n && i < n
    ensures Around(n, Around(n, head, i), 0 + 1) == Around(n, head, i + 1)
    ensures forall next: nat | next < n :: Around(n, next, 0) == next
  {
  }

  class MutexQueue<E> {
    const slots: array<Option<E>>
    var head: nat
    var tail: nat
    var size: nat
    var closed: bool

    /** The occupied slots run from head to tail; all others are empty. */
    ghost predicate Valid()
      reads this, slots
    {
      && 0 < slots.Length && head < slots.Length && size <= slots.Length
      && tail == Around(slots.Length, head, size)
      && forall i | 0 <= i < slots.Length :: slots[Around(slots.Length, head, i)].Some? <==> i < size
    }

    /** The queue this represents. */
    ghost function Value(): (q: Fifo<E>)
      requires Valid()
      reads this, slots
      ensures |q.events| == size
    {
      Fifo(slots.Length, seq(size, i requires 0 <= i < size reads this, slots requires Valid() =>
             slots[Around(slots.Length, head, i)].value), closed)
    }

    constructor (capacity: nat)
      requires capacity > 0
      ensures Valid() && fresh(slots)
      ensures Value() == Fifo(capacity, [], false)
    {
      slots := new Option<E>[capacity](_ => None);
      head, tail, size, closed := 0, 0, 0, false;
    }

    /** The next position of the circle: seen from there, every position is one place nearer. */
    method Increment(index: nat) returns (next: nat)
      requires index < slots.Length
      ensures next < slots.Length
      ensures forall i: nat | i < slots.Length :: Around(slots.Length, next, i) == Around(slots.Length, index, i + 1)
    {
      next := index + 1;
      if next == slots.Length {
        next := 0;
      }
    }

    method PushLocked(event: E)
      requires Valid() && size < slots.Length
      modifies this`tail, this`size, slots
      ensures Valid() && Value() == old(Value()).(events := old(Value()).events + [event])
    {
      ghost var was := Value().events;
      AroundNext(slots.Length, head, size);
      slots[tail] := Some(event);
      tail := Increment(tail);
      assert Around(slots.Length, tail, 0) == tail;
      size := size + 1;
      assert Value().events == was + [event];
    }

    method PopLocked() returns (event: E)
      requires Valid() && size > 0
      modifies this`head, this`size, slots
      ensures Valid() && event == old(Value()).events[0]
      ensures Value() == old(Value()).(events := old(Value()).events[1..])
    {
      ghost var was := Value().events;
      AroundMoves(slots.Length, head);
      event := slots[head].value;
      slots[head] := None;
      head := Increment(head);
      size := size - 1;
      assert Value().events == was[1..];
    }

    /** `try_push` and `try_emplace`. */
    method TryPush(event: E, throws: bool) returns (reply: Reply<E>)
      requires Valid()
      modifies this`tail, this`size, slots
      ensures Valid() && Value() == After(old(Value()), Push(event, throws))
      ensures reply == Answer(old(Value()), Push(event, throws))
    {
      if closed {
        return Reply.Closed;
      }
      if size == slots.Length {
        return Full;
      }
      if throws {
        return Threw;
      }
      PushLocked(event);
      return Success;
    }

    method TryPop() returns (reply: Reply<E>)
      requires Valid()
      modifies this`head, this`size, slots
      ensures Valid() && Value() == After(old(Value()), Pop)
      ensures reply == Answer(old(Value()), Pop)
    {
      if size == 0 {
        return if closed then Reply.Closed else Empty;
      }
      var event := PopLocked();
      return Popped(event);
    }

    method CloseQueue()
      requires Valid()
      modifies this`closed
      ensures Valid() && Value() == After(old(Value()), Close)
    {
      closed := true;
    }

    /** The loop leaves head at tail by itself. */
    method DiscardAll()
      requires Valid()
      modifies this`head, this`size, slots
      ensures Valid() && size == 0 && head == tail
    {
      while size != 0
        invariant Valid()
      {
        AroundMoves(slots.Length, head);
        slots[head] := None;
        head := Increment(head);
        size := size - 1;
      }
    }

    method CloseAndDiscard() returns (discarded: nat)
      requires Valid()
      modifies this`head, this`size, this`closed, slots
      ensures Valid() && Value() == After(old(Value()), Discard)
      ensures Discarded(discarded) == Answer(old(Value()), Discard)
    {
      closed := true;
      discarded := size;
      DiscardAll();
      assert head == tail;
      head := tail;
    }
  }
}
