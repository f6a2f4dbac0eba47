/** The lock-free queue over two SCQ rings of packed words, used by one operation at a time. */
module LockFreeSequential {
  import opened Wrappers
  import opened Tally
  import opened Bits
  import opened BoundedFifo
  import opened ScqSequential

  const CLOSED_BIT := 0x8000_0000_0000_0000

  /** Events in the slots, in the order of the published ring; other slots are empty. */
  ghost predicate Stored<E>(available: seq<nat>, published: seq<nat>, slots: seq<Option<E>>) {
    && multiset(available) + multiset(published) == Range(|slots|)
    && (forall j | 0 <= j < |published| :: published[j] < |slots| && slots[published[j]].Some?)
    && (forall j | 0 <= j < |available| :: available[j] < |slots| && slots[available[j]].None?)
  }

  ghost function Events<E>(available: seq<nat>, published: seq<nat>, slots: seq<Option<E>>): (events: seq<E>)
    requires Stored(available, published, slots)
    ensures |events| == |published|
  {
    seq(|published|, j requires 0 <= j < |published| && Stored(available, published, slots) => slots[published[j]].value)
  }

  /** An index is available or published, not both, and only once. */
  lemma Apart<E>(available: seq<nat>, published: seq<nat>, slots: seq<Option<E>>)
    requires Stored(available, published, slots)
    ensures |available| + |published| == |slots|
    ensures forall i, j | 0 <= i < |available| && 0 <= j < |published| :: available[i] != published[j]
    ensures forall i, j | 0 <= i < j < |published| :: published[i] != published[j]
    ensures forall i, j | 0 <= i < j < |available| :: available[i] != available[j]
  {
    assert |multiset(available) + multiset(published)| == |Range(|slots|)|;
    forall i, j | 0 <= i < |available| && 0 <= j < |published|
      ensures available[i] != published[j]
    {
      assert slots[available[i]].None? && slots[published[j]].Some?;
    }
    AtMostOnce(published, |slots|, multiset(available));
    assert multiset(published) + multiset(available) == Range(|slots|);
    AtMostOnce(available, |slots|, multiset(published));
  }

  lemma AtMostOnce(xs: seq<nat>, n: nat, others: multiset<nat>)
    requires others + multiset(xs) == Range(n)
    ensures forall i, j | 0 <= i < j < |xs| :: xs[i] != xs[j]
  {
    forall i, j | 0 <= i < j < |xs|
      ensures xs[i] != xs[j]
    {
      assert (others + multiset(xs))[xs[i]] == Range(n)[xs[i]] <= 1;
      if xs[i] == xs[j] {
        Twice(xs, i, j);
        assert false;
      }
    }
  }

  lemma Twice(xs: seq<nat>, i: nat, j: nat)
    requires i < j < |xs| && xs[i] == xs[j]
    ensures multiset(xs)[xs[i]] >= 2
  {
    var x := xs[i];
    assert xs == xs[..i] + [x] + xs[i + 1..j] + [x] + xs[j + 1..];
  }

  /** A slot is taken, filled and published. */
  lemma PushStored<E>(available: seq<nat>, published: seq<nat>, slots: seq<Option<E>>, event: E)
    requires Stored(available, published, slots) && available != []
    ensures var available', published', slots' := available[1..], published + [available[0]], slots[available[0] := Some(event)];
            && Stored(available', published', slots')
            && Events(available', published', slots') == Events(available, published, slots) + [event]
  {
    Apart(available, published, slots);
    assert available == [available[0]] + available[1..];
  }

  /** A slot is taken and put back: the construction threw. */
  lemma RotateStored<E>(available: seq<nat>, published: seq<nat>, slots: seq<Option<E>>)
    requires Stored(available, published, slots) && available != []
    ensures Stored(available[1..] + [available[0]], published, slots)
  {
    assert available == [available[0]] + available[1..];
  }

  /** A published slot is emptied and made available. */
  lemma PopStored<E>(available: seq<nat>, published: seq<nat>, slots: seq<Option<E>>)
    requires Stored(available, published, slots) && published != []
    ensures var available', published', slots' := available + [published[0]], published[1..], slots[published[0] := None];
            && Stored(available', published', slots')
            && Events(available', published', slots') == Events(available, published, slots)[1..]
    ensures Events(available, published, slots)[0] == slots[published[0]].value
    ensures |available| < |slots|
  {
    Apart(available, published, slots);
    assert published == [published[0]] + published[1..];
  }

  lemma FrontBack<E>(all: seq<E>, front: E, back: seq<E>)
    requires all != [] && front == all[0] && back == all[1..]
    ensures [front] + back == all
  {
  }

  class LockFree<E> {
    const slots: array<Option<E>>
    const available: IndexRing
    const published: IndexRing
    var occupied: nat
    var producerGate: nat
    var consumerGate: nat
    var quiesced: bool

    /** The rings are sound, and `a` and `p` are the indices of empty slots and of stored events. */
    ghost predicate Holding(a: seq<nat>, p: seq<nat>)
      reads this, slots, available, available.entries, published, published.entries
    {
      && available != published && available.entries != published.entries
      && slots as object != available.entries as object && slots as object != published.entries as object
      && available.Valid() && published.Valid()
      && available.capacity == published.capacity == slots.Length
      && Stored(a, p, slots[..])
    }

    ghost predicate Storage()
      reads this, slots, available, available.entries, published, published.entries
    {
      Holding(available.contents, published.contents) && occupied == |published.contents|
    }

    ghost function Contents(): seq<E>
      requires Storage()
      reads this, slots, available, available.entries, published, published.entries
    {
      Events(available.contents, published.contents, slots[..])
    }

    ghost predicate Valid()
      reads this, slots, available, available.entries, published, published.entries
    {
      && Storage()
      && producerGate == (if quiesced then CLOSED_BIT else 0)
      && (consumerGate == 0 || (consumerGate == CLOSED_BIT && quiesced && Contents() == []))
    }

    ghost function Value(): Fifo<E>
      requires Valid()
      reads this, slots, available, available.entries, published, published.entries
    {
      Fifo(slots.Length, Contents(), quiesced)
    }

    constructor (capacity: nat, ghost bits: nat)
      requires RingOf(bits, capacity)
      ensures Valid() && fresh(slots) && fresh(available) && fresh(available.entries) && fresh(published) && fresh(published.entries)
      ensures Value() == Fifo(capacity, [], false)
    {
      slots := new Option<E>[capacity](_ => None);
      available := new IndexRing.Full(capacity, bits);
      published := new IndexRing.Empty(capacity, bits);
      occupied, producerGate, consumerGate, quiesced := 0, 0, 0, false;
      new;
      CountIsRange(capacity);
      assert available.contents == Count(capacity);
      assert multiset(available.contents) + multiset(published.contents) == Range(capacity);
    }

    /** `publish_constructed_index`. */
    method Publish(index: nat, spurious: nat)
      requires published.Valid() && index < published.capacity && |published.contents| < published.capacity
      modifies this`occupied, published, published.entries
      ensures published.Valid() && published.contents == old(published.contents) + [index]
      ensures occupied == old(occupied) + 1
    {
      occupied := occupied + 1;
      published.Enqueue(index, false, spurious);
    }

    /** The construction threw: the reserved slot goes back. */
    method PutBack(index: nat, spurious: nat)
      requires Holding([index] + available.contents, published.contents) && occupied == |published.contents|
      modifies available, available.entries
      ensures Storage()
      ensures Contents() == old(Events([index] + available.contents, published.contents, slots[..]))
    {
      ghost var a, p, was := [index] + available.contents, published.contents, slots[..];
      assert a[1..] == available.contents;
      Apart(a, p, was);
      RotateStored(a, p, was);
      available.Enqueue(index, false, spurious);
    }

    /** Fills a reserved slot and publishes it. */
    method Fill(index: nat, event: E, spurious: nat)
      requires Holding([index] + available.contents, published.contents) && occupied == |published.contents|
      modifies this`occupied, slots, published, published.entries
      ensures Storage()
      ensures Contents() == old(Events([index] + available.contents, published.contents, slots[..])) + [event]
    {
      ghost var a, p, was := [index] + available.contents, published.contents, slots[..];
      assert a[1..] == available.contents;
      Apart(a, p, was);
      PushStored(a, p, was, event);
      slots[index] := Some(event);
      Publish(index, spurious);
    }

    /** Takes the index of an empty slot, if there is one. */
    method Reserve(spurious: nat) returns (index: Option<nat>)
      requires Storage()
      modifies available, available.entries
      ensures index.None? <==> old(available.contents) == []
      ensures index.None? ==> Storage() && Contents() == old(Contents())
      ensures index.Some? ==> Holding([index.value] + available.contents, published.contents)
      ensures index.Some? ==> Events([index.value] + available.contents, published.contents, slots[..]) == old(Contents())
    {
      ghost var a := available.contents;
      index := available.TryDequeue(false, spurious);
      assert index.Some? ==> [index.value] + available.contents == a;
    }

    /** A push with a reserved slot. */
    method Construct(index: nat, event: E, throws: bool, spurious: nat)
      requires Holding([index] + available.contents, published.contents) && occupied == |published.contents|
      modifies this`occupied, slots, available, available.entries, published, published.entries
      ensures Storage()
      ensures var was := old(Events([index] + available.contents, published.contents, slots[..]));
              Contents() == if throws then was else was + [event]
    {
      if throws {
        PutBack(index, spurious);
      } else {
        Fill(index, event, spurious);
      }
    }

    /** A push that has entered the producer gate. */
    method PushInside(event: E, throws: bool, spurious: nat) returns (reply: Reply<E>)
      requires Storage()
      modifies this`occupied, slots, available, available.entries, published, published.entries
      ensures Storage()
      ensures reply == if |old(Contents())| == slots.Length then Full else if throws then Threw else Success
      ensures Contents() == if reply == Success then old(Contents()) + [event] else old(Contents())
    {
      Apart(available.contents, published.contents, slots[..]);
      var index := Reserve(spurious);
      if index.None? {
        return Full;
      }
      Construct(index.value, event, throws, spurious);
      return if throws then Threw else Success;
    }

    /** `try_push` and `try_emplace`. */
    method TryPush(event: E, throws: bool, spurious: nat) returns (reply: Reply<E>)
      requires Valid()
      modifies this, slots, available, available.entries, published, published.entries
      ensures Valid() && Value() == After(old(Value()), Push(event, throws))
      ensures reply == Answer(old(Value()), Push(event, throws))
    {
      if producerGate >= CLOSED_BIT {
        return Reply.Closed;
      }
      producerGate := producerGate + 1;
      reply := PushInside(event, throws, spurious);
      producerGate := producerGate - 1;
    }

    /** Moves the event out of a claimed slot and makes the slot available. */
    method Release(index: nat, spurious: nat) returns (event: E)
      requires Holding(available.contents, [index] + published.contents) && occupied == |published.contents| + 1
      modifies this`occupied, slots, available, available.entries
      ensures Storage()
      ensures [event] + Contents() == old(Events(available.contents, [index] + published.contents, slots[..]))
    {
      ghost var a, p, was := available.contents, [index] + published.contents, slots[..];
      Apart(a, p, was);
      PopStored(a, p, was);
      assert p[0] == index && p[1..] == published.contents;
      event := slots[index].value;
      slots[index] := None;
      occupied := occupied - 1;
      available.Enqueue(index, false, spurious);
      FrontBack(Events(a, p, was), event, Contents());
    }

    /** Takes the index of the oldest event, if there is one. */
    method Claim(spurious: nat) returns (index: Option<nat>)
      requires Storage()
      modifies published, published.entries
      ensures index.None? <==> old(Contents()) == []
      ensures index.None? ==> Storage() && Contents() == []
      ensures index.Some? ==> Holding(available.contents, [index.value] + published.contents) && occupied == |published.contents| + 1
      ensures index.Some? ==> Events(available.contents, [index.value] + published.contents, slots[..]) == old(Contents())
    {
      ghost var p := published.contents;
      index := published.TryDequeue(false, spurious);
      assert index.Some? ==> [index.value] + published.contents == p;
    }

    /** Takes the oldest event out: a pop inside the consumer gate, or one round of a discard. */
    method Take(spurious: nat) returns (event: Option<E>)
      requires Storage()
      modifies this`occupied, slots, available, available.entries, published, published.entries
      ensures Storage()
      ensures event == if old(Contents()) == [] then None else Some(old(Contents())[0])
      ensures Contents() == if old(Contents()) == [] then [] else old(Contents())[1..]
    {
      ghost var was := Contents();
      var index := Claim(spurious);
      if index.None? {
        return None;
      }
      var e := Release(index.value, spurious);
      assert was == [e] + Contents();
      return Some(e);
    }

    method TryPop(spurious: nat) returns (reply: Reply<E>)
      requires Valid()
      modifies this, slots, available, available.entries, published, published.entries
      ensures Valid() && Value() == After(old(Value()), Pop)
      ensures reply == Answer(old(Value()), Pop)
    {
      if consumerGate >= CLOSED_BIT {
        return Reply.Closed;
      }
      consumerGate := consumerGate + 1;
      var event := Take(spurious);
      reply := if event.Some? then Popped(event.value) else if quiesced then Reply.Closed else Empty;
      consumerGate := consumerGate - 1;
    }

    /** `fetch_or` with the closed bit, and a wait that ends at once: nobody is inside. */
    method CloseProducers()
      requires Valid()
      modifies this`producerGate, this`quiesced
      ensures Valid() && Value() == After(old(Value()), Close)
    {
      if producerGate < CLOSED_BIT {
        producerGate := producerGate + CLOSED_BIT;
      }
      assert producerGate - CLOSED_BIT == 0;
      quiesced := true;
    }

    method CloseConsumers()
      requires Valid()
      modifies this`consumerGate
      ensures Storage() && Contents() == old(Contents()) && consumerGate == CLOSED_BIT
    {
      if consumerGate < CLOSED_BIT {
        consumerGate := consumerGate + CLOSED_BIT;
      }
      assert consumerGate - CLOSED_BIT == 0;
    }

    method CloseAndDiscard(spurious: nat) returns (discarded: nat)
      requires Valid()
      modifies this, slots, available, available.entries, published, published.entries
      ensures Valid() && Value() == After(old(Value()), Discard)
      ensures Discarded(discarded) == Answer(old(Value()), Discard)
      ensures |available.contents| == slots.Length
    {
      CloseProducers();
      CloseConsumers();
      discarded := Sweep(spurious);
    }

    /** The loop of `close_and_discard`. */
    method Sweep(spurious: nat) returns (discarded: nat)
      requires Storage()
      modifies this`occupied, slots, available, available.entries, published, published.entries
      ensures Storage() && Contents() == [] && discarded == |old(Contents())|
      ensures |available.contents| == slots.Length
    {
      discarded := 0;
      while true
        invariant Storage()
        invariant discarded + |Contents()| == |old(Contents())|
        modifies this`occupied, slots, available, available.entries, published, published.entries
        decreases |Contents()|
      {
        var event := Take(spurious);
        if event.None? {
          break;
        }
        discarded := discarded + 1;
      }
      Apart(available.contents, published.contents, slots[..]);
    }
  }
}
