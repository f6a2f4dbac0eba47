/** How far tail can be ahead of head: less than a lap, as long as no more than n indices are in the
    ring or on their way into it, and whatever the dequeuers do. */
module ScqDistance {
  import opened Wrappers
  import opened ScqRing
  import opened ScqSafety
  import opened ScqProgress

  // ---------------------------------------------------------------- indices on their way

  ghost function Residents(s: State): set<nat> {
    s.stored.Keys - s.taken.Keys
  }

  /** The threads that still have to store an index. */
  ghost function Enqueuers(s: State): set<nat> {
    set t | 0 <= t < |s.threads| && HasIndex(s.threads[t])
  }

  /** The tail tickets in the hands of enqueuers. */
  ghost function HeldTickets(s: State): set<nat> {
    set t | 0 <= t < |s.threads| && HoldsTail(s.threads[t]) :: s.threads[t].ticket
  }

  ghost function LiveTickets(s: State): set<nat> {
    Residents(s) + HeldTickets(s)
  }

  /** The indices in the ring and on their way into it are at most n: each is somewhere once. */
  ghost predicate WithinCapacity(s: State) {
    s.stores - s.deliveries + |Enqueuers(s)| <= s.n
  }

  lemma {:induction false} HeldBy(threads: seq<Local>, ts: set<nat>) returns (tickets: set<nat>)
    requires forall t | t in ts :: t < |threads| && HoldsTail(threads[t])
    ensures tickets == (set t | t in ts && t < |threads| && HoldsTail(threads[t]) :: threads[t].ticket)
    ensures |tickets| <= |ts|
  {
    if ts == {} {
      tickets := {};
    } else {
      var t :| t in ts;
      var rest := HeldBy(threads, ts - {t});
      tickets := rest + {threads[t].ticket};
      assert ts == (ts - {t}) + {t};
    }
  }

  /** An enqueuer between two tickets leaves at most n - 1 live tickets to the others. */
  lemma LiveAreFew(s: State, t: nat)
    requires HistorySound(s) && WithinCapacity(s) && t < |s.threads| && s.threads[t].EnqTicket?
    ensures |LiveTickets(s)| < s.n
  {
    var holders := set u | 0 <= u < |s.threads| && HoldsTail(s.threads[u]);
    var held := HeldBy(s.threads, holders);
    assert held == HeldTickets(s);
    Subset(holders + {t}, Enqueuers(s));
    assert |holders + {t}| == |holders| + 1;
    ResidentsCount(s);
    assert |LiveTickets(s)| <= |Residents(s)| + |held|;
  }

  lemma ResidentsCount(s: State)
    requires HistorySound(s)
    ensures |Residents(s)| == s.stores - s.deliveries
  {
    assert s.stored.Keys == s.taken.Keys + Residents(s);
    assert |s.stored.Keys| == |s.stored| && |s.taken.Keys| == |s.taken|;
  }

  // ---------------------------------------------------------------- wasted tickets

  /** An enqueuer gave up a ticket because of the ticket that occupied its slot; `live` are the
      tickets that were live just then. */
  datatype Waste = Waste(ticket: nat, occupant: nat, live: set<nat>)

  ghost predicate Wasted(w: seq<Waste>, ticket: nat) {
    exists i :: 0 <= i < |w| && w[i].ticket == ticket
  }

  ghost predicate Covered(s: State, ticket: nat) {
    ticket in s.stored || ticket in HeldTickets(s)
  }

  /** Every ticket between head and tail is stored, held or wasted. */
  ghost predicate AllCovered(s: State, w: seq<Waste>) {
    forall k: nat | s.head <= k < s.tail :: Covered(s, k) || Wasted(w, k)
  }

  /** Whatever is live now and older than a wasted ticket was live when it was wasted. */
  ghost predicate Remembers(s: State, w: Waste) {
    && w.ticket < s.tail && |w.live| < s.n
    && (forall x | x in LiveTickets(s) && x < w.ticket :: x in w.live)
  }

  /** The occupants met from one waste on, within the window, were all live at that waste. */
  ghost predicate Chained(s: State, w: seq<Waste>, i: nat, j: nat)
    requires s.n > 0 && i <= j < |w|
  {
    && Slot(s.n, w[j].occupant) == Slot(s.n, w[j].ticket)
    && (s.head <= w[i].ticket && s.head <= w[j].ticket ==> w[j].occupant in w[i].live)
  }

  ghost predicate WasteSound(s: State, w: seq<Waste>) {
    && s.n > 0
    && AllCovered(s, w)
    && (forall i | 0 <= i < |w| :: Remembers(s, w[i]))
    && (forall i, j | 0 <= i <= j < |w| :: Chained(s, w, i, j))
  }

  ghost predicate Near(s: State) {
    s.tail < s.head + 2 * s.n
  }

  // ---------------------------------------------------------------- counting the window

  /** The first waste within the window. */
  lemma {:induction false} FirstWaste(s: State, w: seq<Waste>, i: nat) returns (first: nat)
    requires i < |w| && s.head <= w[i].ticket
    ensures first <= i && s.head <= w[first].ticket
    ensures forall j | 0 <= j < first :: w[j].ticket < s.head
  {
    if j :| 0 <= j < i && s.head <= w[j].ticket {
      first := FirstWaste(s, w, j);
    } else {
      first := i;
    }
  }

  ghost predicate InWindow(s: State, live: set<nat>, from: nat, to: nat) {
    forall k | k in live :: from <= k < to && k in LiveTickets(s)
  }

  ghost predicate Accounts(s: State, w: seq<Waste>, occupants: set<nat>, from: nat, count: nat)
    requires s.n > 0
  {
    forall x | x in occupants :: SlotWithin(s.n, x, from, count)
  }

  /** The tickets of a window shorter than a lap are live, or have been wasted, each through an
      occupant of its own that was live at the first waste of the window. */
  lemma {:induction false} CountWindow(s: State, w: seq<Waste>, first: nat, count: nat)
    returns (live: set<nat>, occupants: set<nat>)
    requires WasteSound(s, w) && HistorySound(s) && s.head + count <= s.tail && count < 2 * s.n
    requires first < |w| ==> s.head <= w[first].ticket
    requires forall j | 0 <= j < |w| && j < first :: w[j].ticket < s.head
    ensures |live| + |occupants| == count && live <= LiveTickets(s)
    ensures InWindow(s, live, s.head, s.head + count)
    ensures first < |w| ==> occupants <= w[first].live
    ensures first >= |w| ==> occupants == {}
    ensures Accounts(s, w, occupants, s.head, count)
  {
    if count == 0 {
      live, occupants := {}, {};
    } else {
      live, occupants := CountWindow(s, w, first, count - 1);
      var k := s.head + count - 1;
      if Covered(s, k) {
        assert k in LiveTickets(s);
        live := live + {k};
        WindowGrows(s, w, occupants, count - 1);
      } else {
        var j :| 0 <= j < |w| && w[j].ticket == k;
        assert first <= j && Chained(s, w, first, j);
        OccupantIsNew(s, w, occupants, count - 1, w[j].occupant);
        WindowGrows(s, w, occupants, count - 1);
        assert SlotWithin(s.n, w[j].occupant, s.head, count) by {
          assert Slot(s.n, k) == Slot(s.n, w[j].occupant);
        }
        occupants := occupants + {w[j].occupant};
      }
    }
  }

  lemma WindowGrows(s: State, w: seq<Waste>, occupants: set<nat>, count: nat)
    requires s.n > 0 && Accounts(s, w, occupants, s.head, count)
    ensures Accounts(s, w, occupants, s.head, count + 1)
  {
    forall x | x in occupants
      ensures SlotWithin(s.n, x, s.head, count + 1)
    {
      assert SlotWithin(s.n, x, s.head, count);
    }
  }

  lemma OccupantIsNew(s: State, w: seq<Waste>, occupants: set<nat>, count: nat, occupant: nat)
    requires s.n > 0 && Accounts(s, w, occupants, s.head, count) && count < 2 * s.n
    requires Slot(s.n, occupant) == Slot(s.n, s.head + count)
    ensures occupant !in occupants
  {
    if occupant in occupants {
      assert SlotWithin(s.n, occupant, s.head, count);
      var j :| s.head <= j < s.head + count && Slot(s.n, j) == Slot(s.n, occupant);
      LapApart(s.n, j, s.head + count);
    }
  }

  /** In a window shorter than a lap fewer than n tickets have been wasted. */
  lemma WastedAreFew(s: State, w: seq<Waste>, count: nat) returns (live: set<nat>, wasted: nat)
    requires WasteSound(s, w) && HistorySound(s) && s.head + count <= s.tail && count < 2 * s.n
    ensures |live| + wasted == count && live <= LiveTickets(s) && wasted < s.n
    ensures InWindow(s, live, s.head, s.head + count)
  {
    var first := |w|;
    if i :| 0 <= i < |w| && s.head <= w[i].ticket {
      first := FirstWaste(s, w, i);
    }
    var occupants;
    live, occupants := CountWindow(s, w, first, count);
    wasted := |occupants|;
    if first < |w| {
      assert Remembers(s, w[first]);
      Subset(occupants, w[first].live);
    }
  }

  /** So an enqueuer never draws a ticket a lap ahead of head. */
  lemma DrawStaysNear(s: State, w: seq<Waste>, t: nat)
    requires WasteSound(s, w) && HistorySound(s) && WithinCapacity(s) && Near(s)
    requires t < |s.threads| && s.threads[t].EnqTicket?
    ensures s.tail + 1 < s.head + 2 * s.n
  {
    if s.tail + 1 == s.head + 2 * s.n {
      var live, wasted := WastedAreFew(s, w, 2 * s.n - 1);
      LiveAreFew(s, t);
      Subset(live, LiveTickets(s));
      assert false;
    }
  }

  // ---------------------------------------------------------------- one step

  /** Nothing is uncovered and nothing older comes to life. */
  ghost predicate KeepsCover(s: State, s': State) {
    && s'.n == s.n && s.head <= s'.head && s.tail <= s'.tail
    && (forall k: nat | s'.head <= k < s'.tail ::
          if k < s.tail then Covered(s, k) ==> Covered(s', k) else Covered(s', k))
    && (forall x | x in LiveTickets(s') :: x in LiveTickets(s) || s.tail <= x)
  }

  lemma CoverKeepsWaste(s: State, s': State, w: seq<Waste>)
    requires WasteSound(s, w) && KeepsCover(s, s')
    ensures WasteSound(s', w)
  {
    forall i | 0 <= i < |w|
      ensures Remembers(s', w[i])
    {
      assert Remembers(s, w[i]);
    }
    forall i, j | 0 <= i <= j < |w|
      ensures Chained(s', w, i, j)
    {
      assert Chained(s, w, i, j);
    }
  }

  /** The tail tickets held after a step of thread t. */
  lemma HeldAfter(s: State, s': State, t: nat)
    requires t < |s.threads| == |s'.threads| && s'.threads == s.threads[t := s'.threads[t]]
    ensures forall x :: x in HeldTickets(s') <==>
              || (HoldsTail(s'.threads[t]) && s'.threads[t].ticket == x)
              || (exists u :: 0 <= u < |s.threads| && u != t && HoldsTail(s.threads[u]) && s.threads[u].ticket == x)
    ensures forall x :: x in HeldTickets(s) <==>
              || (HoldsTail(s.threads[t]) && s.threads[t].ticket == x)
              || (exists u :: 0 <= u < |s.threads| && u != t && HoldsTail(s.threads[u]) && s.threads[u].ticket == x)
  {
    forall x | exists u :: 0 <= u < |s.threads| && u != t && HoldsTail(s.threads[u]) && s.threads[u].ticket == x
      ensures x in HeldTickets(s') && x in HeldTickets(s)
    {
      var u :| 0 <= u < |s.threads| && u != t && HoldsTail(s.threads[u]) && s.threads[u].ticket == x;
      assert s'.threads[u] == s.threads[u];
    }
    forall x | x in HeldTickets(s')
      ensures || (HoldsTail(s'.threads[t]) && s'.threads[t].ticket == x)
              || (exists u :: 0 <= u < |s.threads| && u != t && HoldsTail(s.threads[u]) && s.threads[u].ticket == x)
    {
      var u :| 0 <= u < |s'.threads| && HoldsTail(s'.threads[u]) && s'.threads[u].ticket == x;
      assert u != t ==> s'.threads[u] == s.threads[u];
    }
  }

  /** A step that leaves the tail tickets in their hands, and at most removes residents. */
  lemma IdleKeepsCover(s: State, s': State, t: nat)
    requires t < |s.threads| == |s'.threads| && s'.threads == s.threads[t := s'.threads[t]]
    requires s'.n == s.n && s.head <= s'.head && s.tail <= s'.tail && (s'.tail == s.tail || s'.tail <= s'.head)
    requires s'.stored == s.stored && s.taken.Keys <= s'.taken.Keys
    requires HoldsTail(s.threads[t]) <==> HoldsTail(s'.threads[t])
    requires HoldsTail(s.threads[t]) ==> s'.threads[t].ticket == s.threads[t].ticket
    ensures KeepsCover(s, s')
  {
    HeldAfter(s, s', t);
  }

  lemma DrawKeepsCover(s: State, s': State, t: nat)
    requires Shape(s) && t < |s.threads| && s.threads[t].EnqTicket? && s' == DoEnqueue(s, t)
    ensures KeepsCover(s, s')
  {
    HeldAfter(s, s', t);
  }

  lemma StoreKeepsCover(s: State, s': State, t: nat)
    requires Shape(s) && t < |s.threads| && s.threads[t].EnqSwap? && s.threads[t].ticket !in s.taken
    requires s' == StoreIndex(s, t, s.threads[t].index, s.threads[t].known, s.threads[t].ticket)
    ensures KeepsCover(s, s')
  {
    HeldAfter(s, s', t);
  }

  /** A ticket that head has passed may be given up. */
  lemma LateKeepsCover(s: State, s': State, t: nat)
    requires t < |s.threads| == |s'.threads| && HoldsTail(s.threads[t]) && s.threads[t].ticket < s.head
    requires s' == Goto(s, t, s'.threads[t]) && !HoldsTail(s'.threads[t])
    ensures KeepsCover(s, s')
  {
    HeldAfter(s, s', t);
  }

  // ---------------------------------------------------------------- a waste

  /** A ticket ahead of head is given up only because an older resident occupies its slot. */
  lemma WhyWasted(s: State, t: nat) returns (occupant: nat)
    requires Inv(s) && Near(s) && t < |s.threads| && HoldsTail(s.threads[t])
    requires var l := s.threads[t]; s.head <= l.ticket && EnqueueDecision(s.n, l.index, l.known, l.ticket, WordAt(s, l.ticket)).EnqTicket?
    ensures var k := s.threads[t].ticket;
            occupant in Residents(s) && occupant + 2 * s.n <= k && Slot(s.n, occupant) == Slot(s.n, k)
  {
    var k := s.threads[t].ticket;
    var w := WordAt(s, k);
    assert w.cycle < Cycle(s.n, k) by {
      NotAhead(s, t);
    }
    occupant := Occupant(s, k);
    OccupantCycle(s, k, occupant);
    SameSlot(s.n, occupant, k);
    LapApart(s.n, occupant, k);
  }

  lemma NotAhead(s: State, t: nat)
    requires Inv(s) && Near(s) && t < |s.threads| && HoldsTail(s.threads[t]) && s.head <= s.threads[t].ticket
    ensures WordAt(s, s.threads[t].ticket).cycle < Cycle(s.n, s.threads[t].ticket)
  {
    var k := s.threads[t].ticket;
    var w := WordAt(s, k);
    if w.cycle >= Cycle(s.n, k) {
      var x := TicketOf(s.n, w.cycle, Slot(s.n, k));
      assert WordAt(s, x) == w;
      SameSlot(s.n, k, x);
      if k < x {
        LapApart(s.n, k, x);
      }
    }
  }

  lemma OccupantCycle(s: State, k: nat, occupant: nat)
    requires Inv(s) && WordAt(s, k).cell.Holds? && occupant == Occupant(s, k)
    ensures Cycle(s.n, occupant) == WordAt(s, k).cycle
  {
  }

  lemma ChainLast(s: State, s': State, w: seq<Waste>, i: nat, last: Waste)
    requires WasteSound(s, w) && i < |w| && Near(s) && s'.n == s.n && s'.head == s.head
    requires last.occupant in LiveTickets(s) && last.occupant + 2 * s.n <= last.ticket < s.tail
    requires Slot(s.n, last.occupant) == Slot(s.n, last.ticket)
    ensures Chained(s', w + [last], i, |w|)
  {
    assert Remembers(s, w[i]);
  }

  /** Thread t gives up its ticket, which head has not passed, because of the occupant of its slot. */
  ghost predicate GivesUp(s: State, s': State, t: nat, occupant: nat) {
    && t < |s.threads| == |s'.threads| && HoldsTail(s.threads[t]) && s'.threads[t].EnqTicket?
    && s' == Goto(s, t, s'.threads[t]) && s.n > 0
    && var k := s.threads[t].ticket;
       occupant in Residents(s) && occupant + 2 * s.n <= k < s.tail && Slot(s.n, occupant) == Slot(s.n, k)
  }

  lemma GivingUpCovers(s: State, s': State, t: nat, w: seq<Waste>, last: Waste)
    requires AllCovered(s, w) && t < |s.threads| && HoldsTail(s.threads[t]) && last.ticket == s.threads[t].ticket
    requires GivesUp(s, s', t, last.occupant)
    ensures AllCovered(s', w + [last])
    ensures LiveTickets(s') <= LiveTickets(s)
  {
    HeldAfter(s, s', t);
    forall x: nat | s'.head <= x < s'.tail
      ensures Covered(s', x) || Wasted(w + [last], x)
    {
      WastedGrows(s, w, last, x);
    }
  }

  lemma WasteAdds(s: State, s': State, t: nat, w: seq<Waste>, occupant: nat) returns (w': seq<Waste>)
    requires WasteSound(s, w) && HistorySound(s') && Near(s) && WithinCapacity(s')
    requires GivesUp(s, s', t, occupant)
    ensures WasteSound(s', w')
  {
    var last := Waste(s.threads[t].ticket, occupant, LiveTickets(s'));
    w' := w + [last];
    GivingUpCovers(s, s', t, w, last);
    LiveAreFew(s', t);
    forall i | 0 <= i < |w'|
      ensures Remembers(s', w'[i])
    {
      assert i < |w| ==> Remembers(s, w[i]);
    }
    ChainsAdd(s, s', w, last);
  }

  lemma ChainsAdd(s: State, s': State, w: seq<Waste>, last: Waste)
    requires WasteSound(s, w) && Near(s) && s'.n == s.n && s'.head == s.head
    requires last.occupant in LiveTickets(s) && last.occupant in last.live
    requires last.occupant + 2 * s.n <= last.ticket < s.tail && Slot(s.n, last.occupant) == Slot(s.n, last.ticket)
    ensures forall i, j | 0 <= i <= j < |w + [last]| :: Chained(s', w + [last], i, j)
  {
    forall i, j | 0 <= i <= j < |w + [last]|
      ensures Chained(s', w + [last], i, j)
    {
      if j < |w| {
        assert Chained(s, w, i, j);
      } else if i < |w| {
        ChainLast(s, s', w, i, last);
      }
    }
  }

  lemma WastedGrows(s: State, w: seq<Waste>, last: Waste, x: nat)
    requires AllCovered(s, w)
    ensures s.head <= x < s.tail && !Covered(s, x) ==> Wasted(w + [last], x)
    ensures Wasted(w + [last], last.ticket)
  {
    assert (w + [last])[|w|] == last;
    if s.head <= x < s.tail && !Covered(s, x) {
      var i :| 0 <= i < |w| && w[i].ticket == x;
      assert (w + [last])[i] == w[i];
    }
  }

  // ---------------------------------------------------------------- any step

  /** An enqueuer looks at the word of its ticket. */
  lemma ExamineWaste(s: State, s': State, t: nat, w: seq<Waste>) returns (w': seq<Waste>)
    requires Inv(s) && HistorySound(s') && Near(s) && WithinCapacity(s') && WasteSound(s, w)
    requires t < |s.threads| && (s.threads[t].EnqLoad? || s.threads[t].EnqSwap?)
    requires s' == Examine(s, t, s.threads[t].index, s.threads[t].known, s.threads[t].ticket)
    ensures WasteSound(s', w')
  {
    w' := w;
    if !s'.threads[t].EnqTicket? {
      IdleKeepsCover(s, s', t);
      CoverKeepsWaste(s, s', w);
    } else if s.threads[t].ticket < s.head {
      LateKeepsCover(s, s', t);
      CoverKeepsWaste(s, s', w);
    } else {
      var occupant := WhyWasted(s, t);
      assert s.threads[t].ticket in s.tailOwner;
      w' := WasteAdds(s, s', t, w, occupant);
    }
  }

  lemma EnqueueWaste(s: State, s': State, t: nat, w: seq<Waste>) returns (w': seq<Waste>)
    requires Inv(s) && HistorySound(s') && Near(s) && WithinCapacity(s) && WithinCapacity(s') && WasteSound(s, w)
    requires t < |s.threads| && IsEnqueue(s.threads[t]) && s' == DoEnqueue(s, t)
    ensures WasteSound(s', w') && Near(s')
  {
    w' := w;
    match s.threads[t]
    case EnqTicket(_, _) =>
      DrawStaysNear(s, w, t);
      DrawKeepsCover(s, s', t);
      CoverKeepsWaste(s, s', w);
    case EnqLoad(_, _, _) =>
      w' := ExamineWaste(s, s', t, w);
    case EnqHead(_, _, ticket, _) =>
      if s.head <= ticket {
        IdleKeepsCover(s, s', t);
      } else {
        LateKeepsCover(s, s', t);
      }
      CoverKeepsWaste(s, s', w);
    case EnqSwap(_, _, ticket, entry) =>
      if WordAt(s, ticket) == entry {
        StoreKeepsCover(s, s', t);
        CoverKeepsWaste(s, s', w);
      } else {
        w' := ExamineWaste(s, s', t, w);
      }
  }

  /** A step of a dequeuer, or a start. */
  lemma OtherWaste(s: State, s': State, step: Step, w: seq<Waste>)
    requires Inv(s) && Near(s) && WasteSound(s, w) && Enabled(s, step) && s' == Do(s, step)
    requires !HasIndex(s.threads[step.thread])
    ensures WasteSound(s', w) && Near(s')
  {
    assert LocalSound(s, s.threads[step.thread]);
    OtherLeaves(s, s', step);
    IdleKeepsCover(s, s', step.thread);
    CoverKeepsWaste(s, s', w);
  }

  /** What such a step does to the tickets. */
  ghost predicate LeavesTickets(s: State, s': State, t: nat) {
    && t < |s.threads| == |s'.threads| && s'.threads == s.threads[t := s'.threads[t]] && !HoldsTail(s'.threads[t])
    && s'.n == s.n && s.head <= s'.head && s.tail <= s'.tail && (s'.tail == s.tail || s'.tail <= s'.head)
    && s'.stored == s.stored && s.taken.Keys <= s'.taken.Keys
  }

  lemma FollowLeaves(s: State, s': State, t: nat, known: bool, spent: nat, ticket: nat, attempts: nat, entry: Word)
    requires Shape(s) && t < |s.threads| && s' == Follow(s, t, known, spent, ticket, attempts, entry)
    ensures LeavesTickets(s, s', t)
  {
  }

  lemma DequeueLeaves(s: State, s': State, t: nat)
    requires Shape(s) && t < |s.threads| && IsDequeue(s.threads[t]) && s' == DoDequeue(s, t)
    ensures LeavesTickets(s, s', t)
  {
    match s.threads[t]
    case DeqLoad(known, spent, ticket, attempts) =>
      FollowLeaves(s, s', t, known, spent, ticket, attempts, WordAt(s, ticket));
    case DeqSwap(known, spent, ticket, attempts, entry, _) =>
      if WordAt(s, ticket) != entry {
        FollowLeaves(s, s', t, known, spent, ticket, attempts, WordAt(s, ticket));
      }
    case DeqTicket(_, _) =>
    case DeqTake(_, _) =>
  }

  lemma CatchUpLeaves(s: State, s': State, t: nat)
    requires Shape(s) && t < |s.threads| && IsCatchUp(s.threads[t]) && s' == DoCatchUp(s, t) && LocalSound(s, s.threads[t])
    ensures LeavesTickets(s, s', t)
  {
  }

  lemma ThresholdLeaves(s: State, s': State, t: nat)
    requires Shape(s) && t < |s.threads| && IsThreshold(s.threads[t]) && s' == DoThreshold(s, t)
    ensures LeavesTickets(s, s', t)
  {
  }

  lemma FailureLeaves(s: State, s': State, t: nat)
    requires Shape(s) && t < |s.threads| && (s.threads[t].DeqSwap? || s.threads[t].CatchSwap?) && s' == FailSwap(s, t)
    ensures LeavesTickets(s, s', t)
  {
    if s.threads[t].DeqSwap? {
      var l := s.threads[t];
      FollowLeaves(s, s', t, l.known, l.spent, l.ticket, l.attempts, WordAt(s, l.ticket));
    }
  }

  lemma OtherLeaves(s: State, s': State, step: Step)
    requires Shape(s) && Enabled(s, step) && s' == Do(s, step) && LocalSound(s, s.threads[step.thread])
    requires !HasIndex(s.threads[step.thread])
    ensures LeavesTickets(s, s', step.thread)
  {
    var t := step.thread;
    match step
    case StartEnqueue(_, _, _) =>
    case StartDequeue(_, _) =>
    case SpuriousFailure(_) => FailureLeaves(s, s', t);
    case Advance(_) =>
      if IsDequeue(s.threads[t]) {
        DequeueLeaves(s, s', t);
      } else if IsCatchUp(s.threads[t]) {
        CatchUpLeaves(s, s', t);
      } else {
        ThresholdLeaves(s, s', t);
      }
  }

  lemma StepWaste(s: State, s': State, step: Step, w: seq<Waste>) returns (w': seq<Waste>)
    requires Inv(s) && HistorySound(s') && Near(s) && WithinCapacity(s) && WithinCapacity(s') && WasteSound(s, w)
    requires Enabled(s, step) && s' == Do(s, step)
    ensures WasteSound(s', w') && Near(s')
  {
    var t := step.thread;
    if !HasIndex(s.threads[t]) {
      w' := w;
      OtherWaste(s, s', step, w);
    } else if step.Advance? {
      w' := EnqueueWaste(s, s', t, w);
    } else {
      w' := ExamineWaste(s, s', t, w);
    }
  }

  lemma InitWaste(s: State)
    requires Init(s)
    ensures WasteSound(s, []) && Near(s)
  {
  }

  ghost predicate AllWithinCapacity(run: seq<State>) {
    forall i | 0 <= i < |run| :: WithinCapacity(run[i])
  }

  lemma NextWaste(s: State, s': State, w: seq<Waste>) returns (w': seq<Waste>)
    requires Inv(s) && Near(s) && WithinCapacity(s) && WithinCapacity(s') && WasteSound(s, w)
    requires Next(s, s')
    ensures WasteSound(s', w') && Near(s')
  {
    var step :| Enabled(s, step) && s' == Do(s, step);
    HistoryAfter(s, s', step);
    w' := StepWaste(s, s', step, w);
  }

  lemma HistoryAfter(s: State, s': State, step: Step)
    requires Inv(s) && Enabled(s, step) && s' == Do(s, step)
    ensures HistorySound(s')
  {
    StepKeepsInv(s, step);
  }

  lemma StepAtWaste(run: seq<State>, i: nat, w: seq<Waste>) returns (w': seq<Waste>)
    requires IsRun(run) && 0 < i < |run| && Inv(run[i - 1])
    requires WithinCapacity(run[i - 1]) && WithinCapacity(run[i]) && WasteSound(run[i - 1], w) && Near(run[i - 1])
    ensures WasteSound(run[i], w') && Near(run[i])
  {
    assert StepAt(run, i - 1);
    w' := NextWaste(run[i - 1], run[i], w);
  }

  lemma HistoryAt(run: seq<State>, i: nat)
    requires IsRun(run) && i < |run|
    ensures HistorySound(run[i])
  {
    RunKeepsInv(run, i);
  }

  lemma {:induction false} RunWaste(run: seq<State>, i: nat) returns (w: seq<Waste>)
    requires IsRun(run) && AllWithinCapacity(run) && i < |run|
    ensures WasteSound(run[i], w) && Near(run[i])
  {
    if i == 0 {
      w := [];
      InitWaste(run[i]);
    } else {
      var before := RunWaste(run, i - 1);
      RunKeepsInv(run, i - 1);
      w := StepAtWaste(run, i, before);
    }
  }

  /** Tail is never a lap ahead of head, as long as no more than n indices are in the ring or on
      their way into it: no index waits further ahead than that. */
  lemma TailStaysWithinALap(run: seq<State>, i: nat)
    requires IsRun(run) && AllWithinCapacity(run) && i < |run|
    ensures run[i].tail < run[i].head + 2 * run[i].n
  {
    var w := RunWaste(run, i);
  }
}
