/** What becomes of an offered event, over every interleaving. */
module SubscriberOffers {
  import opened Wrappers
  import opened Tally
  import opened Subscriber
  import opened SubscriberSafety
  import opened SubscriberTheorems
  import opened SubscriberRuns

  // ---------------------------------------------------------------- one step of an offer

  /** The fates of an offered event. */
  datatype Fate = Deliver | Refuse | Drop | Mail

  /** The fate of an offer is decided in one step: a direct subscriber delivers exactly if it is active;
      an isolated one drops exactly if it may and its mailbox is full, and otherwise refuses exactly if
      it accepts nothing any more or the copy throws. */
  predicate Decides(s: State, throws: bool, fate: Fate) {
    var drops := s.policy.Isolated? && !s.lossless && |s.mailbox.events| == s.capacity;
    match fate
    case Deliver => !s.policy.Isolated? && s.active
    case Refuse => if s.policy.Isolated? then !drops && (!s.mailbox.accepting || throws) else !s.active
    case Drop => drops
    case Mail => s.policy.Isolated? && !drops && s.mailbox.accepting && !throws
  }

  /** What an offer has added when it has come to this frame. */
  function GainAt(f: Frame, event: Event, failed: int): Gain {
    if !f.Invocation? then NOTHING
    else match f.i
         case Admitted(_) => NOTHING
         case Running(_) => NOTHING.(invoked := [event])
         case Counting => NOTHING.(invoked := [event], errors := failed)
         case Leaving => NOTHING.(invoked := [event], errors := failed, delivered := 1)
         case Unserial => NOTHING.(invoked := [event], errors := failed, delivered := 1)
  }

  /** What an offer has added when it returns. */
  function GainOf(fate: Fate, event: Event, failed: int): Gain {
    match fate
    case Deliver => NOTHING.(invoked := [event], errors := failed, delivered := 1)
    case Refuse => NOTHING.(rejected := 1)
    case Drop => NOTHING.(dropped := 1)
    case Mail => NOTHING.(mailed := [event])
  }

  predicate FitsOffer(f: Frame, event: Event) {
    || f == Offering(event) || f.Refusing?
    || (f.Invocation? && (f.i.Admitted? || f.i.Running? ==> f.i.event == event))
  }

  /** The frame that an offer comes to once its fate is decided, if it goes on. */
  predicate Follows(fate: Fate, f: Frame) {
    (fate.Deliver? && f.Invocation?) || (fate.Refuse? && f.Refusing?)
  }

  /** How many times the callback threw in this step. */
  function Fails(f: Frame, throws: bool): int {
    if f.Invocation? && f.i.Running? && throws then 1 else 0
  }

  lemma GrownBy(before: seq<Event>, more: seq<Event>)
    ensures Grown(before, before + more) == more && Grown(before, before) == []
  {
  }

  /** The step that decides. */
  lemma DecidingStep(s: State, s': State, t: nat, event: Event, throws: bool, k: Stack) returns (fate: Fate)
    requires t < |s.threads| && s.threads[t] == On(Offering(event), k) && s' == DoOffering(s, t, event, throws, k)
    ensures t < |s'.threads| && Decides(s, throws, fate)
    ensures if s'.threads[t] == k then Between(s, s') == GainOf(fate, event, 0)
            else
              && s'.threads[t].On? && s'.threads[t].rest == k && Follows(fate, s'.threads[t].top)
              && FitsOffer(s'.threads[t].top, event) && Between(s, s') == NOTHING
              && (s'.threads[t].top.Invocation? ==> s'.threads[t].top.i.Admitted?)
  {
    GrownBy(s.history.accepted, [event]);
    fate := if !s.policy.Isolated? then (if s.active then Deliver else Refuse)
            else if !s.lossless && |s.mailbox.events| == s.capacity then Drop
            else if !s.mailbox.accepting || throws then Refuse
            else Mail;
  }

  lemma RefusingStep(s: State, s': State, t: nat, throws: bool, k: Stack)
    requires t < |s.threads| && s.threads[t] == On(Refusing, k) && s' == DoFrame(s, t, Refusing, throws, k)
    ensures t < |s'.threads| && s'.threads[t] == k && Between(s, s') == NOTHING.(rejected := 1)
  {
  }

  /** The steps of an invocation add up. */
  lemma InvokingStep(s: State, s': State, t: nat, i: InvocationPoint, event: Event, throws: bool, k: Stack)
    requires t < |s.threads| && s.threads[t] == On(Invocation(i), k) && s' == DoInvocation(s, t, i, throws, k)
    requires FitsOffer(Invocation(i), event)
    ensures t < |s'.threads|
    ensures if s'.threads[t] == k then
              (i.Leaving? || i.Unserial?) && Between(s, s') == NOTHING
            else
              && s'.threads[t].On? && s'.threads[t].rest == k && s'.threads[t].top.Invocation? && FitsOffer(s'.threads[t].top, event)
              && Advances(i, s'.threads[t].top.i)
              && Between(s, s') == Added(i, event, throws)
  {
    match i
    case Admitted(e) =>
      GrownBy(s.history.invoked, [e]);
      assert s'.threads[t] == On(Invocation(Running(e)), k);
    case Running(_) => assert s'.threads[t] == On(Invocation(Counting), k);
    case Counting => assert s'.threads[t] == On(Invocation(Leaving), k);
    case Leaving => assert s'.threads[t] == if s.policy.Serialized? then On(Invocation(Unserial), k) else k;
    case Unserial => assert s'.threads[t] == k;
  }

  predicate Advances(i: InvocationPoint, i': InvocationPoint) {
    match i
    case Admitted(_) => i'.Running?
    case Running(_) => i'.Counting?
    case Counting => i'.Leaving?
    case Leaving => i'.Unserial?
    case Unserial => false
  }

  function Added(i: InvocationPoint, event: Event, throws: bool): Gain {
    match i
    case Admitted(_) => NOTHING.(invoked := [event])
    case Running(_) => NOTHING.(errors := if throws then 1 else 0)
    case Counting => NOTHING.(delivered := 1)
    case _ => NOTHING
  }

  lemma AddsUp(i: InvocationPoint, i': InvocationPoint, event: Event, failed: int, throws: bool)
    requires Advances(i, i')
    ensures Plus(GainAt(Invocation(i), event, failed), Added(i, event, throws))
         == GainAt(Invocation(i'), event, if i.Running? then (if throws then 1 else 0) else failed)
  {
  }

  // ---------------------------------------------------------------- a whole offer

  /** How often the callback of the offer has thrown. */
  ghost function Failed(run: seq<State>, steps: seq<Step>, i: nat, n: nat, t: nat, d: nat): int
    requires |run| == |steps| + 1 && i < n <= |steps|
    decreases n
  {
    if n == i + 1 then 0
    else
      Failed(run, steps, i, n - 1, t, d)
      + (if OwnStep(run, steps, n - 1, t, d) then Fails(FrameAt(run[n - 1].threads[t], d), steps[n - 1].throws) else 0)
  }

  /** The fate of the offer has been decided in step m. */
  ghost predicate Decided(run: seq<State>, steps: seq<Step>, i: nat, n: nat, t: nat, d: nat, m: nat, fate: Fate)
    requires |run| == |steps| + 1 && n <= |steps|
  {
    && i < m < n && OwnStep(run, steps, m, t, d) && FrameAt(run[m].threads[t], d).Offering?
    && Decides(run[m], steps[m].throws, fate)
  }

  predicate PastCallback(f: Frame) {
    f.Invocation? && (f.i.Counting? || f.i.Leaving? || f.i.Unserial?)
  }

  /** How far an offer has come. */
  ghost predicate Stands(run: seq<State>, steps: seq<Step>, i: nat, n: nat, t: nat, d: nat, event: Event, m: nat, fate: Fate)
    requires |run| == |steps| + 1 && i < n <= |steps| && t < |run[n].threads|
  {
    var failed := Failed(run, steps, i, n, t, d);
    if Depth(run[n].threads[t]) > d then
      var f := FrameAt(run[n].threads[t], d);
      && FitsOffer(f, event) && Gains(run, steps, i, n, t, d) == GainAt(f, event, failed)
      && (!PastCallback(f) ==> failed == 0)
      && (!f.Offering? ==> Decided(run, steps, i, n, t, d, m, fate) && Follows(fate, f))
    else
      Gains(run, steps, i, n, t, d) == GainOf(fate, event, failed) && Decided(run, steps, i, n, t, d, m, fate)
  }

  lemma NothingPlus(a: Gain)
    ensures Plus(NOTHING, a) == a && Plus(a, NOTHING) == a
  {
  }

  /** An offer over the stack k has come to the stack k', having added this. */
  predicate ComesTo(k: Stack, k': Stack, event: Event, gain: Gain, failed: int, fate: Fate) {
    if k' == k then gain == GainOf(fate, event, failed)
    else
      && k'.On? && k'.rest == k && FitsOffer(k'.top, event) && gain == GainAt(k'.top, event, failed)
      && (!PastCallback(k'.top) ==> failed == 0)
      && !k'.top.Offering? && Follows(fate, k'.top)
  }

  lemma InvocationAdvance(s: State, s': State, t: nat, i: InvocationPoint, throws: bool, k: Stack, event: Event, failed: int)
    requires t < |s.threads| && s.threads[t] == On(Invocation(i), k) && s' == DoInvocation(s, t, i, throws, k)
    requires FitsOffer(Invocation(i), event) && (!PastCallback(Invocation(i)) ==> failed == 0)
    ensures t < |s'.threads|
    ensures ComesTo(k, s'.threads[t], event, Plus(GainAt(Invocation(i), event, failed), Between(s, s')),
                    failed + Fails(Invocation(i), throws), Deliver)
  {
    InvokingStep(s, s', t, i, event, throws, k);
    InvocationComesTo(i, k, s'.threads[t], event, Between(s, s'), failed, throws);
  }

  lemma InvocationComesTo(i: InvocationPoint, k: Stack, k': Stack, event: Event, added: Gain, failed: int, throws: bool)
    requires FitsOffer(Invocation(i), event) && (!PastCallback(Invocation(i)) ==> failed == 0)
    requires if k' == k then (i.Leaving? || i.Unserial?) && added == NOTHING
             else && k'.On? && k'.rest == k && k'.top.Invocation? && FitsOffer(k'.top, event)
                  && Advances(i, k'.top.i) && added == Added(i, event, throws)
    ensures ComesTo(k, k', event, Plus(GainAt(Invocation(i), event, failed), added), failed + Fails(Invocation(i), throws), Deliver)
  {
    var before := GainAt(Invocation(i), event, failed);
    if k' == k {
      NothingPlus(before);
      assert Plus(before, added) == before == GainOf(Deliver, event, failed);
      assert Fails(Invocation(i), throws) == 0;
    } else {
      AddsUp(i, k'.top.i, event, failed, throws);
      assert k'.top == Invocation(k'.top.i);
      assert Plus(before, added) == GainAt(k'.top, event, failed + Fails(Invocation(i), throws));
    }
  }

  lemma OfferingAdvance(s: State, s': State, t: nat, throws: bool, k: Stack, event: Event) returns (fate: Fate)
    requires t < |s.threads| && s.threads[t] == On(Offering(event), k) && s' == DoOffering(s, t, event, throws, k)
    ensures t < |s'.threads| && Decides(s, throws, fate) && ComesTo(k, s'.threads[t], event, Plus(NOTHING, Between(s, s')), 0, fate)
  {
    fate := DecidingStep(s, s', t, event, throws, k);
    if s'.threads[t] == k {
      OfferReturns(k, event, Between(s, s'), fate);
    } else {
      OfferGoesOn(k, s'.threads[t].top, event, fate);
    }
  }

  lemma OfferReturns(k: Stack, event: Event, added: Gain, fate: Fate)
    requires added == GainOf(fate, event, 0)
    ensures ComesTo(k, k, event, Plus(NOTHING, added), 0, fate)
  {
    NothingPlus(added);
  }

  lemma OfferGoesOn(k: Stack, f: Frame, event: Event, fate: Fate)
    requires Follows(fate, f) && FitsOffer(f, event) && (f.Invocation? ==> f.i.Admitted?)
    ensures ComesTo(k, On(f, k), event, Plus(NOTHING, NOTHING), 0, fate)
  {
    NothingPlus(NOTHING);
    assert GainAt(f, event, 0) == NOTHING && Depth(On(f, k)) != Depth(k);
  }

  lemma RefusingAdvance(s: State, s': State, t: nat, throws: bool, k: Stack, event: Event)
    requires t < |s.threads| && s.threads[t] == On(Refusing, k) && s' == DoFrame(s, t, Refusing, throws, k)
    ensures t < |s'.threads| && ComesTo(k, s'.threads[t], event, Plus(NOTHING, Between(s, s')), 0, Refuse)
  {
    RefusingStep(s, s', t, throws, k);
    OfferReturns(k, event, Between(s, s'), Refuse);
  }

  /** One more own step. */
  lemma OwnAdvance(s: State, s': State, t: nat, throws: bool, k: Stack, event: Event, before: Gain, failed: int, fate: Fate) returns (fate': Fate)
    requires t < |s.threads| && s.threads[t].On? && s.threads[t].rest == k && s' == DoFrame(s, t, s.threads[t].top, throws, k)
    requires var f := s.threads[t].top;
             && FitsOffer(f, event) && before == GainAt(f, event, failed) && (!PastCallback(f) ==> failed == 0)
             && (!f.Offering? ==> Follows(fate, f))
    ensures t < |s'.threads|
    ensures if s.threads[t].top.Offering? then Decides(s, throws, fate') else fate' == fate
    ensures ComesTo(k, s'.threads[t], event, Plus(before, Between(s, s')), failed + Fails(s.threads[t].top, throws), fate')
  {
    var f := s.threads[t].top;
    fate' := fate;
    if f.Offering? {
      fate' := OfferingAdvance(s, s', t, throws, k, event);
    } else if f.Refusing? {
      RefusingAdvance(s, s', t, throws, k, event);
    } else {
      InvocationAdvance(s, s', t, f.i, throws, k, event, failed);
    }
  }

  lemma StandsNext(run: seq<State>, steps: seq<Step>, i: nat, n: nat, j: nat, t: nat, d: nat, event: Event, m: nat, fate: Fate)
    returns (m': nat, fate': Fate)
    requires Call(run, steps, i, j, t, d) && steps[i].Offer? && i < n < j && Stands(run, steps, i, n, t, d, event, m, fate)
    ensures Stands(run, steps, i, n + 1, t, d, event, m', fate')
  {
    m', fate' := m, fate;
    CallStep(run, steps, i, n, j, t, d);
    if OwnStep(run, steps, n, t, d) {
      OwnStack(run, steps, i, n, j, t, d);
      var k := run[i].threads[t];
      fate' := OwnAdvance(run[n], run[n + 1], t, steps[n].throws, k, event, Gains(run, steps, i, n, t, d),
                          Failed(run, steps, i, n, t, d), fate);
      if FrameAt(run[n].threads[t], d).Offering? {
        m' := n;
      }
      TopOrGone(k, run[n + 1].threads[t], d);
    }
  }

  lemma TopOrGone(k: Stack, k': Stack, d: nat)
    requires Depth(k) == d && (k' == k || (k'.On? && k'.rest == k))
    ensures if k' == k then Depth(k') == d else Depth(k') == d + 1 && FrameAt(k', d) == k'.top
  {
  }

  lemma {:induction false} OfferStands(run: seq<State>, steps: seq<Step>, i: nat, n: nat, j: nat, t: nat, d: nat)
    returns (m: nat, fate: Fate)
    requires Call(run, steps, i, j, t, d) && steps[i].Offer? && i < n <= j
    ensures Stands(run, steps, i, n, t, d, steps[i].event, m, fate)
    decreases n
  {
    if n == i + 1 {
      CallStarts(run, steps, i, j, t, d);
      m, fate := i, Mail;
    } else {
      m, fate := OfferStands(run, steps, i, n - 1, j, t, d);
      m, fate := StandsNext(run, steps, i, n - 1, j, t, d, steps[i].event, m, fate);
    }
  }

  /** What an offer comes to, over any interleaving and with any calls nested in the callback: its fate
      is decided in one of its own steps, and its own steps add exactly that: one entry into the
      callback with its own event, counted as delivered, and as an error exactly if the callback threw;
      or one rejection; or one drop; or its own event at the end of the mailbox. */
  lemma OfferAnswersForItself(run: seq<State>, steps: seq<Step>, i: nat, j: nat, t: nat, d: nat) returns (m: nat, fate: Fate)
    requires Call(run, steps, i, j, t, d) && steps[i].Offer?
    ensures Decided(run, steps, i, j, t, d, m, fate)
    ensures Gains(run, steps, i, j, t, d) == GainOf(fate, steps[i].event, Failed(run, steps, i, j, t, d))
  {
    m, fate := OfferStands(run, steps, i, j, j, t, d);
  }

  /** So a direct subscriber that is still active when an offer returns has been called with it, and one
      that was inactive when it began has refused it. */
  lemma DirectOfferFollowsActivity(run: seq<State>, steps: seq<Step>, i: nat, j: nat, t: nat, d: nat)
    requires Call(run, steps, i, j, t, d) && steps[i].Offer? && !run[i].policy.Isolated?
    ensures run[j].active ==> Gains(run, steps, i, j, t, d).invoked == [steps[i].event] && Gains(run, steps, i, j, t, d).rejected == 0
    ensures !run[i].active ==> Gains(run, steps, i, j, t, d) == NOTHING.(rejected := 1)
  {
    var m, fate := OfferAnswersForItself(run, steps, i, j, t, d);
    TraceIsRun(run, steps);
    RunEvolves(run, i, m);
    RunEvolves(run, m, j);
  }
}
