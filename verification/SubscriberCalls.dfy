/** One subscriber, one call at a time: the methods of `subscriber_state` and the executor's loop. */
module SubscriberCalls {
  import opened Sequences
  import S = Subscriber

  type Event = S.Event

  lemma OneFailure(event: Event, throws: Event -> bool)
    ensures Failures([event], throws) == if throws(event) then 1 else 0
  {
    var none: seq<Event> := [];
    assert [event][..0] == none && Failures(none, throws) == 0;
  }

  lemma NextTaken(done: seq<Event>, event: Event, rest: seq<Event>, was: seq<Event>, throws: Event -> bool)
    ensures done + [event] + rest == done + ([event] + rest)
    ensures was + (done + [event]) == was + done + [event]
    ensures Failures(done + [event], throws) == Failures(done, throws) + (if throws(event) then 1 else 0)
  {
    assert (done + [event])[..|done|] == done;
  }

  class SubscriberState {
    const policy: S.Policy
    const capacity: nat
    const lossless: bool

    var active: bool
    var inFlight: nat
    var retirementStarted: bool
    var retirements: nat

    var mailbox: seq<Event>
    var accepting: bool
    var stopping: bool
    var drain: bool

    var offered: nat
    var delivered: nat
    var dropped: nat
    var rejected: nat
    var errors: nat

    /** The events given to the callback. */
    ghost var invoked: seq<Event>

    /** Between calls nothing is in flight and the metrics balance. */
    ghost predicate Valid()
      reads this
    {
      && inFlight == 0 && 0 < capacity && |mailbox| <= capacity
      && offered == delivered + dropped + rejected + |mailbox|
      && delivered == |invoked|
      && accepting == !stopping && (!drain ==> stopping && mailbox == [])
      && (active <==> !retirementStarted) && retirements == (if retirementStarted then 1 else 0)
      && (!policy.Isolated? ==> mailbox == [])
    }

    constructor (policy: S.Policy, capacity: nat, lossless: bool)
      requires capacity > 0
      ensures Valid() && active && accepting && offered == 0 && mailbox == [] && invoked == []
    {
      this.policy, this.capacity, this.lossless := policy, capacity, lossless;
      active, inFlight, retirementStarted, retirements := true, 0, false, 0;
      mailbox, accepting, stopping, drain := [], true, false, true;
      offered, delivered, dropped, rejected, errors := 0, 0, 0, 0, 0;
      invoked := [];
    }

    method BeginInvocation() returns (admitted: bool)
      modifies this`inFlight
      ensures admitted == active && inFlight == old(inFlight) + (if active then 1 else 0)
    {
      if !active {
        return false;
      }
      inFlight := inFlight + 1;
      return true;
    }

    /** Every offered event is delivered, dropped, rejected, in the mailbox or in flight, and every
        entry into the callback that has ended is counted as delivered. */
    ghost predicate Balanced()
      reads this
    {
      && offered == delivered + dropped + rejected + |mailbox| + inFlight
      && delivered == |invoked|
    }

    /** `execute_callback`: the callback, and `finish_invocation` whether it throws or not.  The event
        is in flight before and delivered after, so the balance is kept. */
    method ExecuteCallback(event: Event, throws: Event -> bool)
      requires Balanced() && inFlight > 0
      modifies this`inFlight, this`delivered, this`errors, this`invoked
      ensures Balanced() && inFlight == old(inFlight) - 1
      ensures invoked == old(invoked) + [event]
      ensures errors == old(errors) + Failures([event], throws)
    {
      invoked := invoked + [event];
      if throws(event) {
        errors := errors + 1;
      }
      delivered := delivered + 1;
      inFlight := inFlight - 1;
      OneFailure(event, throws);
    }

    /** `enqueue_isolated` where it need not wait.  `throws`: the copy into the mailbox throws.  Of the
        three outcomes exactly one happens, and each only for its reason. */
    method EnqueueIsolated(event: Event, throws: bool) returns (taken: bool)
      requires policy.Isolated? && (lossless && accepting ==> |mailbox| < capacity) && |mailbox| <= capacity
      modifies this`mailbox, this`dropped, this`rejected
      ensures |mailbox| + dropped + rejected == |old(mailbox)| + old(dropped) + old(rejected) + 1
      ensures old(dropped) <= dropped && old(rejected) <= rejected
      ensures mailbox != old(mailbox) ==> mailbox == old(mailbox) + [event] && |mailbox| <= capacity && accepting && !throws
      ensures dropped != old(dropped) ==> !lossless && |mailbox| == capacity
      ensures rejected != old(rejected) ==> (!accepting || throws) && (lossless || |mailbox| < capacity)
      ensures taken <==> rejected == old(rejected)
    {
      if !lossless && |mailbox| == capacity {
        dropped := dropped + 1;
        return true;
      }
      if !accepting || throws {
        rejected := rejected + 1;
        return false;
      }
      mailbox := mailbox + [event];
      return true;
    }

    /** An isolated offer is dropped: the mailbox is full and may drop. */
    ghost predicate Drops()
      reads this
    {
      policy.Isolated? && !lossless && |mailbox| == capacity
    }

    /** An offer is rejected: by an inactive subscription, or by a mailbox that accepts nothing any more
        or whose copy throws, unless it drops. */
    ghost predicate Rejects(copyThrows: bool)
      reads this
    {
      if policy.Isolated? then !Drops() && (!accepting || copyThrows) else !active
    }

    /** Offers one event.  Direct delivery invokes the callback at once; isolated delivery leaves the
        event in the mailbox, unless it is full, closed or the copy throws.  Everything but a rejection
        answers true. */
    method TryInvoke(event: Event, throws: Event -> bool, copyThrows: bool) returns (taken: bool)
      requires Valid() && (policy.Isolated? && lossless && accepting ==> |mailbox| < capacity)
      modifies this
      ensures Valid() && offered == old(offered) + 1
      ensures active == old(active) && accepting == old(accepting) && drain == old(drain)
      ensures stopping == old(stopping) && retirementStarted == old(retirementStarted)
      ensures dropped == old(dropped) + (if old(Drops()) then 1 else 0)
      ensures rejected == old(rejected) + (if old(Rejects(copyThrows)) then 1 else 0)
      ensures invoked == (if policy.Isolated? || old(Rejects(copyThrows)) then old(invoked) else old(invoked) + [event])
      ensures errors == old(errors) + (if invoked != old(invoked) && throws(event) then 1 else 0)
      ensures mailbox == (if policy.Isolated? && !old(Drops()) && !old(Rejects(copyThrows)) then old(mailbox) + [event] else old(mailbox))
      ensures taken <==> !old(Rejects(copyThrows))
    {
      ghost var was := invoked;
      offered := offered + 1;
      if policy.Isolated? {
        taken := EnqueueIsolated(event, copyThrows);
        return;
      }
      taken := BeginInvocation();
      if !taken {
        rejected := rejected + 1;
        return;
      }
      ExecuteCallback(event, throws);
      assert |invoked| == |was| + 1;
      OneFailure(event, throws);
    }

    /** The executor takes the first entry, and gives it to the callback or drops it. */
    method TakeOne(throws: Event -> bool) returns (event: Event)
      requires Valid() && mailbox != []
      modifies this`mailbox, this`inFlight, this`delivered, this`dropped, this`errors, this`invoked
      ensures Valid() && [event] + mailbox == old(mailbox)
      ensures invoked == if active then old(invoked) + [event] else old(invoked)
      ensures dropped == old(dropped) + (if active then 0 else 1)
      ensures errors == old(errors) + (if active && throws(event) then 1 else 0)
    {
      event := mailbox[0];
      mailbox := mailbox[1..];
      var admitted := BeginInvocation();
      if !admitted {
        dropped := dropped + 1;
        return;
      }
      ExecuteCallback(event, throws);
    }

    /** The executor until it exits or would wait for another event: in order of acceptance, every
        entry is given to the callback, or dropped if the subscription is inactive. */
    method ExecutorLoop(throws: Event -> bool) returns (exited: bool)
      requires Valid() && policy.Isolated?
      modifies this`mailbox, this`inFlight, this`delivered, this`dropped, this`errors, this`invoked
      ensures Valid() && mailbox == [] && exited == stopping
      ensures invoked == if active then old(invoked) + old(mailbox) else old(invoked)
      ensures dropped == old(dropped) + (if active then 0 else |old(mailbox)|)
      ensures errors == old(errors) + (if active then Failures(old(mailbox), throws) else 0)
    {
      ghost var all, was, done: seq<Event> := mailbox, invoked, [];
      while !(stopping && (!drain || mailbox == [])) && mailbox != []
        invariant Valid() && done + mailbox == all
        invariant invoked == if active then was + done else was
        invariant dropped == old(dropped) + (if active then 0 else |done|)
        invariant errors == old(errors) + (if active then Failures(done, throws) else 0)
        decreases |mailbox|
      {
        ghost var left := mailbox;
        var event := TakeOne(throws);
        NextTaken(done, event, mailbox, was, throws);
        assert left == [event] + mailbox;
        done := done + [event];
      }
      assert done == all;
      return stopping;
    }

    /** The critical section of `stop_delivery`. */
    method StopMailbox(drains: bool)
      requires Valid() && policy.Isolated?
      modifies this`mailbox, this`accepting, this`stopping, this`drain, this`dropped
      ensures Valid() && !accepting && stopping && drain == (old(drain) && drains)
      ensures mailbox == if drains then old(mailbox) else []
      ensures dropped == old(dropped) + (if drains then 0 else |old(mailbox)|)
    {
      accepting, stopping, drain := false, true, drain && drains;
      if !drains {
        dropped := dropped + |mailbox|;
        mailbox := [];
      }
    }

    /** `stop_delivery` joins the executor, which runs until it exits. */
    method StopDelivery(drains: bool, throws: Event -> bool)
      requires Valid()
      modifies this
      ensures Valid() && active == old(active) && retirementStarted == old(retirementStarted)
      ensures offered == old(offered) && rejected == old(rejected) && retirements == old(retirements)
      ensures !policy.Isolated? ==> invoked == old(invoked) && CurrentMetrics() == old(CurrentMetrics()) && accepting == old(accepting)
      ensures policy.Isolated? ==>
                && !accepting && stopping && drain == (old(drain) && drains) && mailbox == []
                && invoked == (if active && drains then old(invoked) + old(mailbox) else old(invoked))
                && dropped == old(dropped) + (if active && drains then 0 else |old(mailbox)|)
                && errors == old(errors) + (if active && drains then Failures(old(mailbox), throws) else 0)
    {
      if !policy.Isolated? {
        return;
      }
      StopMailbox(drains);
      var exited := ExecutorLoop(throws);
      assert exited;
    }

    ghost function CurrentMetrics(): S.Metrics
      reads this
    {
      S.Metrics(offered, delivered, dropped, rejected, errors)
    }

    /** From outside the callback: the first call retires the subscription; afterwards nothing is in
        flight, the mailbox is empty, and every offered event is accounted for. */
    method Unsubscribe(throws: Event -> bool)
      requires Valid()
      modifies this
      ensures Valid() && !active && retirements == 1
      ensures invoked == old(invoked) && mailbox == [] && offered == delivered + dropped + rejected
      ensures offered == old(offered) && rejected == old(rejected) && errors == old(errors)
      ensures dropped == old(dropped) + |old(mailbox)|
      ensures policy.Isolated? ==> !accepting && stopping
    {
      active := false;
      if !retirementStarted {
        retirementStarted := true;
        retirements := retirements + 1;
      }
      StopDelivery(false, throws);
      assert inFlight == 0;
    }
  }
}
