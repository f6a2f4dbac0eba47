/** What a dequeue answers when it runs alone, and exactly when that is the first index in the ring. */
module ScqAlone {
  import opened Wrappers
  import opened ScqRing
  import opened ScqSafety
  import opened ScqProgress
  import opened ScqDistance
  import opened ScqThreshold

  /** No other thread holds a head ticket. */
  predicate NobodyElse(s: State, t: nat) {
    forall u | 0 <= u < |s.threads| && u != t :: !HoldsHead(s.threads[u])
  }

  /** The first index still to be taken, if there is one. */
  ghost predicate First(s: State, first: Option<nat>) {
    match first
    case Some(k) => FirstResident(s, k)
    case None => forall j | j in Residents(s) :: j < s.head
  }

  lemma {:induction false} LeastOf(ks: set<nat>) returns (least: nat)
    requires ks != {}
    ensures least in ks && forall k | k in ks :: least <= k
  {
    var k :| k in ks;
    var others := ks - {k};
    assert ks == others + {k};
    if others == {} {
      least := k;
    } else {
      var rest := LeastOf(others);
      least := if k < rest then k else rest;
    }
  }

  lemma FindFirst(s: State) returns (first: Option<nat>)
    ensures First(s, first)
  {
    var ahead := set j | j in Residents(s) && s.head <= j;
    if ahead == {} {
      first := None;
      forall j | j in Residents(s)
        ensures j < s.head
      {
        assert j !in ahead;
      }
    } else {
      var least := LeastOf(ahead);
      first := Some(least);
      forall j | j in Residents(s) && s.head <= j
        ensures least <= j
      {
        assert j in ahead;
      }
      assert least in ahead;
      assert FirstResident(s, least);
    }
  }

  // ---------------------------------------------------------------- the answer

  /** Whether the threshold lets the dequeuer draw tickets up to the first index. */
  predicate Reaches(head: nat, threshold: int, first: Option<nat>) {
    first.Some? && (first.value == head || threshold >= first.value - head)
  }

  /** The ticket that the dequeuer will end up with. */
  function Target(s: State, l: Local, first: Option<nat>): Option<nat> {
    match l
    case DeqGate => if s.threshold >= 0 && Reaches(s.head, s.threshold, first) then first else None
    case DeqTicket(_, _) => if Reaches(s.head, s.threshold, first) then first else None
    case DeqLoad(_, _, ticket, _) => if ticket in s.stored then Some(ticket) else AfterGap(s, first)
    case DeqSwap(_, _, ticket, _, _, _) => if ticket in s.stored then Some(ticket) else AfterGap(s, first)
    case DeqTake(ticket, _) => Some(ticket)
    case DeqTail(_, _) => AfterGap(s, first)
    case DeqSpend(_) => AfterGap(s, first)
    case _ => None
  }

  /** After a ticket with nothing to take. */
  function AfterGap(s: State, first: Option<nat>): Option<nat> {
    if s.threshold > 0 && Reaches(s.head, s.threshold - 1, first) then first else None
  }

  function IndexAt(s: State, ticket: Option<nat>): Option<nat> {
    match ticket
    case Some(k) => if k in s.stored then Some(s.stored[k]) else None
    case None => None
  }

  /** The dequeuer has its index, or `first` is what it is after. */
  ghost predicate Aims(s: State, l: Local, first: Option<nat>) {
    (HoldsHead(l) && l.ticket in s.stored) || First(s, first)
  }

  ghost predicate SameHistory(s: State, s': State) {
    s'.stored == s.stored && s'.taken == s.taken && s'.head == s.head && |s'.threads| == |s.threads|
  }

  // ---------------------------------------------------------------- one step

  /** With an index at its ticket the dequeuer takes it next; otherwise it stays or leaves. */
  lemma FollowNext(s: State, s': State, t: nat)
    requires Inv(s) && t < |s.threads| && (s.threads[t].DeqLoad? || s.threads[t].DeqSwap?) && !s.threads[t].known
    requires var l := s.threads[t]; s' == Follow(s, t, false, l.spent, l.ticket, l.attempts, WordAt(s, l.ticket))
    ensures var l, l' := s.threads[t], s'.threads[t];
            if l.ticket in s.stored then l'.DeqTake? && l'.ticket == l.ticket
            else (l'.DeqTail? || ((l'.DeqLoad? || l'.DeqSwap?) && !l'.known)) && l'.ticket == l.ticket
  {
    var l := s.threads[t];
    FollowKnows(s, l.ticket, l.attempts, t);
    FollowFrame(s, s', t, false, l.spent, l.ticket, l.attempts);
    match Judge(s.n, l.ticket, l.attempts, WordAt(s, l.ticket))
    case Take => assert s'.threads[t] == DeqTake(l.ticket, WordAt(s, l.ticket));
    case Reload => assert s'.threads[t] == DeqLoad(false, l.spent, l.ticket, l.attempts + 1);
    case Swap(replacement, attempts') =>
      assert s'.threads[t] == DeqSwap(false, l.spent, l.ticket, attempts', WordAt(s, l.ticket), replacement);
    case Abandon => assert s'.threads[t] == DeqTail(l.spent, l.ticket);
  }

  /** What a step of the dequeuer keeps until it is done. */
  ghost predicate KeepsAim(s: State, s': State, t: nat, first: Option<nat>) {
    && t < |s.threads| == |s'.threads| && s'.threads == s.threads[t := s'.threads[t]] && s'.stored == s.stored
    && (if s'.threads[t].Done? then s'.threads[t].result == IndexAt(s, Target(s, s.threads[t], first))
        else Target(s', s'.threads[t], first) == Target(s, s.threads[t], first) && Aims(s', s'.threads[t], first))
  }

  lemma FirstStays(s: State, s': State, first: Option<nat>)
    requires s'.stored == s.stored && s'.taken == s.taken && s'.head == s.head && First(s, first)
    ensures First(s', first)
  {
    assert Residents(s') == Residents(s);
  }

  lemma FollowAims(s: State, s': State, t: nat, first: Option<nat>)
    requires Inv(s) && t < |s.threads| && (s.threads[t].DeqLoad? || s.threads[t].DeqSwap?) && !s.threads[t].known
    requires Aims(s, s.threads[t], first)
    requires var l := s.threads[t]; s' == Follow(s, t, false, l.spent, l.ticket, l.attempts, WordAt(s, l.ticket))
    ensures KeepsAim(s, s', t, first)
  {
    var l := s.threads[t];
    FollowNext(s, s', t);
    FollowFrame(s, s', t, false, l.spent, l.ticket, l.attempts);
    FollowThreshold(s, s', t);
    FrameAims(s, s', t, first);
  }

  /** Steps that change neither history, head nor threshold, and leave the ticket or its hands. */
  lemma FrameAims(s: State, s': State, t: nat, first: Option<nat>)
    requires t < |s.threads| && (s.threads[t].DeqLoad? || s.threads[t].DeqSwap?) && Aims(s, s.threads[t], first)
    requires |s'.threads| == |s.threads| && s'.threads == s.threads[t := s'.threads[t]]
    requires s'.stored == s.stored && s'.taken == s.taken && s'.head == s.head && s'.threshold == s.threshold
    requires var l, l' := s.threads[t], s'.threads[t];
             if l.ticket in s.stored then l'.DeqTake? && l'.ticket == l.ticket
             else (l'.DeqTail? || l'.DeqLoad? || l'.DeqSwap?) && l'.ticket == l.ticket
    ensures KeepsAim(s, s', t, first)
  {
    if s.threads[t].ticket !in s.stored {
      FirstStays(s, s', first);
    }
  }

  lemma FollowThreshold(s: State, s': State, t: nat)
    requires Shape(s) && t < |s.threads| && (s.threads[t].DeqLoad? || s.threads[t].DeqSwap?)
    requires var l := s.threads[t]; s' == Follow(s, t, false, l.spent, l.ticket, l.attempts, WordAt(s, l.ticket))
    ensures s'.threshold == s.threshold
  {
  }

  lemma SwapLeaves(s: State, s': State, t: nat)
    requires Inv(s) && t < |s.threads| && s.threads[t].DeqSwap? && !s.threads[t].known
    requires WordAt(s, s.threads[t].ticket) == s.threads[t].entry && s' == DoDequeue(s, t)
    ensures s'.threads[t].DeqTail? && s'.threads[t].ticket == s.threads[t].ticket && s.threads[t].ticket !in s.stored
    ensures SameHistory(s, s') && s'.threshold == s.threshold && s'.threads == s.threads[t := s'.threads[t]]
  {
    assert LocalSound(s, s.threads[t]);
  }

  lemma SwapAims(s: State, s': State, t: nat, first: Option<nat>)
    requires Inv(s) && t < |s.threads| && s.threads[t].DeqSwap? && !s.threads[t].known && Aims(s, s.threads[t], first)
    requires WordAt(s, s.threads[t].ticket) == s.threads[t].entry && s' == DoDequeue(s, t)
    ensures KeepsAim(s, s', t, first)
  {
    SwapLeaves(s, s', t);
    FrameAims(s, s', t, first);
  }

  /** Drawing the next ticket: it is the first index, or a gap before it. */
  lemma DrawAims(s: State, s': State, t: nat, first: Option<nat>)
    requires HistorySound(s) && Shape(s) && t < |s.threads| && s.threads[t].DeqTicket? && !s.threads[t].known && First(s, first)
    requires s' == DoDequeue(s, t)
    ensures KeepsAim(s, s', t, first)
  {
    assert s'.threads[t] == DeqLoad(false, s.threads[t].spent + 1, s.head, 0);
    if s.head in s.stored {
      FirstAtHead(s, first);
    } else {
      FirstPassed(s, s', first);
    }
  }

  lemma FirstAtHead(s: State, first: Option<nat>)
    requires HistorySound(s) && First(s, first) && s.head in s.stored
    ensures first == Some(s.head)
  {
    assert s.head in Residents(s);
  }

  lemma FirstPassed(s: State, s': State, first: Option<nat>)
    requires First(s, first) && s.head !in s.stored
    requires s'.stored == s.stored && s'.taken == s.taken && s'.head == s.head + 1
    ensures First(s', first) && (first.Some? ==> first.value > s.head)
  {
    assert Residents(s') == Residents(s) && s.head !in Residents(s);
  }

  lemma TakeAims(s: State, s': State, t: nat, first: Option<nat>)
    requires Inv(s) && t < |s.threads| && s.threads[t].DeqTake? && s' == DoDequeue(s, t)
    ensures KeepsAim(s, s', t, first)
  {
    assert LocalSound(s, s.threads[t]);
  }

  /** A first index is ahead of the ticket, so the tail check does not end the call. */
  lemma TailAims(s: State, s': State, t: nat, first: Option<nat>)
    requires Shape(s) && HistorySound(s) && t < |s.threads| && s.threads[t].DeqTail? && First(s, first)
    requires s.threads[t].ticket < s.head && s' == DoCatchUp(s, t)
    ensures KeepsAim(s, s', t, first)
  {
    FirstStays(s, s', first);
    assert first.Some? ==> first.value < s.tail;
  }

  lemma CatchUpAims(s: State, s': State, t: nat, first: Option<nat>)
    requires Shape(s) && t < |s.threads| && First(s, first)
    requires (s.threads[t].CatchSwap? || s.threads[t].CatchHead? || s.threads[t].CatchTail?) && s' == DoCatchUp(s, t)
    ensures KeepsAim(s, s', t, first)
  {
    FirstStays(s, s', first);
  }

  lemma ThresholdAims(s: State, s': State, t: nat, first: Option<nat>)
    requires Shape(s) && t < |s.threads| && First(s, first)
    requires (s.threads[t].DeqGate? || s.threads[t].DeqGiveUp? || s.threads[t].DeqSpend?) && s' == DoThreshold(s, t)
    ensures KeepsAim(s, s', t, first)
  {
    FirstStays(s, s', first);
  }

  lemma AdvanceAims(s: State, s': State, t: nat, first: Option<nat>)
    requires Inv(s) && t < |s.threads| && Dequeuing(s.threads[t]) && Aims(s, s.threads[t], first) && s' == DoAdvance(s, t)
    ensures KeepsAim(s, s', t, first)
  {
    match s.threads[t]
    case DeqTicket(_, _) => DrawAims(s, s', t, first);
    case DeqLoad(_, _, _, _) => FollowAims(s, s', t, first);
    case DeqSwap(_, _, ticket, _, entry, _) =>
      if WordAt(s, ticket) == entry {
        SwapAims(s, s', t, first);
      } else {
        FollowAims(s, s', t, first);
      }
    case DeqTake(_, _) => TakeAims(s, s', t, first);
    case DeqTail(_, _) => assert LocalSound(s, s.threads[t]); TailAims(s, s', t, first);
    case CatchSwap(_, _) => CatchUpAims(s, s', t, first);
    case CatchHead => CatchUpAims(s, s', t, first);
    case CatchTail(_) => CatchUpAims(s, s', t, first);
    case DeqGate => ThresholdAims(s, s', t, first);
    case DeqGiveUp => ThresholdAims(s, s', t, first);
    case DeqSpend(_) => ThresholdAims(s, s', t, first);
  }

  // ---------------------------------------------------------------- to the end

  /** The answer that the dequeuer is bound for. */
  ghost predicate BoundFor(s: State, t: nat, first: Option<nat>, answer: Option<nat>)
    requires t < |s.threads|
  {
    Dequeuing(s.threads[t]) && Aims(s, s.threads[t], first) && IndexAt(s, Target(s, s.threads[t], first)) == answer
  }

  lemma AdvanceBound(s: State, t: nat, first: Option<nat>, answer: Option<nat>) returns (s': State)
    requires Inv(s) && t < |s.threads| && BoundFor(s, t, first, answer)
    ensures Inv(s') && |s'.threads| == |s.threads| && DequeueBound(s', t) < DequeueBound(s, t)
    ensures s'.threads[t] == Done(answer) || BoundFor(s', t, first, answer)
    ensures forall k: nat :: Solo(s, t, k + 1) == Solo(s', t, k)
  {
    s' := AdvanceLess(s, t);
    BoundFalls(s, s', t);
    AdvanceAims(s, s', t, first);
    forall k: nat
      ensures Solo(s, t, k + 1) == Solo(s', t, k)
    {
      SoloStep(s, s', t, k);
    }
  }

  /** A dequeuer alone answers what it is bound for, within a number of steps known beforehand. */
  lemma {:induction false} DequeueAnswers(s: State, t: nat, first: Option<nat>, answer: Option<nat>) returns (k: nat)
    requires Inv(s) && t < |s.threads| && BoundFor(s, t, first, answer)
    ensures k <= DequeueBound(s, t) && Solo(s, t, k).threads[t] == Done(answer)
    decreases DequeueBound(s, t)
  {
    var s' := AdvanceBound(s, t, first, answer);
    if s'.threads[t] == Done(answer) {
      assert Solo(s, t, 0 + 1) == Solo(s', t, 0);
      k := 1;
    } else {
      k := DequeueAnswers(s', t, first, answer);
      k := k + 1;
    }
  }

  /** Running alone from its gate, with nobody else holding a head ticket, `try_dequeue(false)`
      takes the first index in the ring if and only if the threshold is not negative and reaches as
      far as that index; otherwise, and if there is no index, it answers nullopt. */
  lemma LoneDequeue(run: seq<State>, i: nat, t: nat, first: Option<nat>) returns (k: nat)
    requires IsRun(run) && i < |run| && t < |run[i].threads| && run[i].threads[t].DeqGate? && NobodyElse(run[i], t)
    requires First(run[i], first)
    ensures Inv(run[i]) && first.Some? ==> first.value in run[i].stored
    ensures Inv(run[i]) && k <= DequeueBound(run[i], t)
    ensures var s := run[i];
            Solo(s, t, k).threads[t] == Done(if first.Some? && s.threshold >= 0 && s.threshold >= first.value - s.head
                                             then Some(s.stored[first.value]) else None)
  {
    var s := run[i];
    RunKeepsInv(run, i);
    var answer := IndexAt(s, Target(s, s.threads[t], first));
    k := DequeueAnswers(s, t, first, answer);
  }

  /** With at most 2n threads ever inside `try_dequeue` at once, no more than n indices about and no
      enqueue under way, such a call is exact: it answers nullopt only if the ring is empty. */
  lemma ModerateDequeueIsExact(run: seq<State>, i: nat, t: nat) returns (k: nat, first: Option<nat>)
    requires IsRun(run) && i < |run| && AllModerate(run) && NoEnqueue(run[i])
    requires t < |run[i].threads| && run[i].threads[t].DeqGate? && NobodyElse(run[i], t)
    ensures Inv(run[i]) && First(run[i], first)
    ensures if first.Some? then first.value in run[i].stored && Solo(run[i], t, k).threads[t] == Done(Some(run[i].stored[first.value]))
            else Residents(run[i]) == {} && Solo(run[i], t, k).threads[t] == Done(None)
  {
    first := FindFirst(run[i]);
    k := LoneDequeue(run, i, t, first);
    if first.Some? {
      ThresholdReaches(run, i, first.value);
    } else {
      AllTaken(run, i, t);
    }
  }

  /** A resident below head is in the hands of its dequeuer. */
  lemma ResidentHeld(s: State, j: nat)
    requires Inv(s) && j in Residents(s) && j < s.head
    ensures j < |s.headOwner| && s.headOwner[j] < |s.threads| && HoldsHead(s.threads[s.headOwner[j]])
    ensures s.threads[s.headOwner[j]].ticket == j
  {
  }

  /** The threshold makes the call of thread t answer nullopt at its next step. */
  predicate GivesUpOnThreshold(s: State, t: nat) {
    && t < |s.threads|
    && ((s.threads[t].DeqGate? && s.threshold < 0) || (s.threads[t].DeqSpend? && s.threshold <= 0))
  }

  /** With at most 2n threads ever inside `try_dequeue` at once, no more than n indices about and no
      enqueue under way, the threshold makes a call answer nullopt only if every index in the ring is
      already promised: its head ticket is in the hands of another dequeuer in its inner loop. */
  lemma ThresholdAnswerIsJustified(run: seq<State>, i: nat, t: nat, ticket: nat)
    requires IsRun(run) && i < |run| && AllModerate(run) && NoEnqueue(run[i]) && GivesUpOnThreshold(run[i], t)
    requires ticket in run[i].stored && ticket !in run[i].taken
    ensures ticket < |run[i].headOwner|
    ensures var s := run[i];
            var u := s.headOwner[ticket];
            u != t && u < |s.threads| && HoldsHead(s.threads[u]) && s.threads[u].ticket == ticket
  {
    var s := run[i];
    RunKeepsInv(run, i);
    RunFunds(run, i);
    NothingAhead(s, t, ticket);
    ResidentHeld(s, ticket);
  }

  lemma NothingAhead(s: State, t: nat, ticket: nat)
    requires Funded(s) && GivesUpOnThreshold(s, t) && ticket in Residents(s)
    ensures ticket < s.head
  {
    if s.threads[t].DeqSpend? {
      SomebodyOwes(s, t);
    }
  }

  lemma SomebodyOwes(s: State, t: nat)
    requires t < |s.threads| && Owes(s, s.threads[t])
    ensures |Owers(s)| > 0
  {
    assert t in Owers(s);
  }

  lemma AllTaken(run: seq<State>, i: nat, t: nat)
    requires IsRun(run) && i < |run| && t < |run[i].threads| && run[i].threads[t].DeqGate? && NobodyElse(run[i], t)
    requires First(run[i], None)
    ensures Residents(run[i]) == {}
  {
    RunKeepsInv(run, i);
    forall j | j in Residents(run[i])
      ensures false
    {
      ResidentHeld(run[i], j);
    }
  }
}
