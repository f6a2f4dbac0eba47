/** Safety of the SCQ ring over every interleaving. */
module ScqSafety {
  import opened Wrappers
  import opened ScqRing

  // ---------------------------------------------------------------- tickets and slots

  /** Two tickets of one slot are ordered as their cycles are. */
  lemma {:induction false} SameSlot(n: nat, a: nat, b: nat)
    requires n > 0 && Slot(n, a) == Slot(n, b)
    ensures a < b <==> Cycle(n, a) < Cycle(n, b)
    ensures a == b <==> Cycle(n, a) == Cycle(n, b)
    decreases a + b
  {
    if a >= 2 * n && b >= 2 * n {
      SameSlot(n, a - 2 * n, b - 2 * n);
    }
  }

  lemma SameSlotAll(n: nat, a: nat)
    requires n > 0
    ensures forall b: nat :: Slot(n, a) == Slot(n, b) ==>
              (a < b <==> Cycle(n, a) < Cycle(n, b)) && (a == b <==> Cycle(n, a) == Cycle(n, b))
  {
    forall b: nat | Slot(n, a) == Slot(n, b)
      ensures (a < b <==> Cycle(n, a) < Cycle(n, b)) && (a == b <==> Cycle(n, a) == Cycle(n, b))
    {
      SameSlot(n, a, b);
    }
  }

  // ---------------------------------------------------------------- the rank of a word

  function Phase(w: Word): nat {
    if w.cell.Holds? then (if w.safe then 0 else 1) else 2
  }

  predicate Below(v: Word, w: Word) {
    v.cycle < w.cycle || (v.cycle == w.cycle && Phase(v) < Phase(w))
  }

  predicate AtMost(v: Word, w: Word) {
    v == w || Below(v, w)
  }

  // ---------------------------------------------------------------- the invariant

  predicate HoldsTail(l: Local) {
    l.EnqLoad? || l.EnqHead? || l.EnqSwap?
  }

  predicate HoldsHead(l: Local) {
    l.DeqLoad? || l.DeqSwap? || l.DeqTake?
  }

  predicate HasEntry(l: Local) {
    l.EnqHead? || l.EnqSwap? || l.DeqSwap? || l.DeqTake?
  }

  predicate HasIndex(l: Local) {
    l.EnqTicket? || HoldsTail(l)
  }

  /** Every ticket drawn is owned by one thread until it is stored, taken or abandoned. */
  ghost predicate TicketsOwned(s: State) {
    && |s.headOwner| == s.head
    && (forall t | 0 <= t < |s.threads| && HoldsHead(s.threads[t]) ::
          var h := s.threads[t].ticket;
          h < s.head && h !in s.taken && h !in s.abandoned && s.headOwner[h] == t)
    && (forall h | 0 <= h < s.head && h !in s.taken && h !in s.abandoned ::
          s.headOwner[h] < |s.threads| && HoldsHead(s.threads[s.headOwner[h]]) && s.threads[s.headOwner[h]].ticket == h)
    && (forall t | 0 <= t < |s.threads| && HoldsTail(s.threads[t]) ::
          var k := s.threads[t].ticket;
          k !in s.stored && k in s.tailOwner && s.tailOwner[k] == t)
    && (forall k | k in s.tailOwner :: k < s.tail)
    && (forall t | 0 <= t < |s.threads| :: HasIndex(s.threads[t]) ==> s.threads[t].index < s.n)
  }

  /** What the history says of itself: a ticket is taken once, with the index stored at it. */
  ghost predicate HistorySound(s: State) {
    && |s.stored| == s.stores && |s.taken| == s.deliveries
    && (forall k | k in s.stored :: k < s.tail && s.stored[k] < s.n)
    && (forall k | k in s.taken :: k < s.head && k in s.stored && s.taken[k] == s.stored[k])
    && (forall k | k in s.abandoned :: k < s.head && k !in s.stored)
  }

  /** A stored index that nobody took is in the slot of its ticket. */
  ghost predicate Resident(s: State)
    requires Shape(s)
  {
    forall k | k in s.stored && k !in s.taken ::
      WordAt(s, k).cycle == Cycle(s.n, k) && WordAt(s, k).cell == Holds(s.stored[k])
  }

  /** A word on the cycle of a ticket was put there by that ticket. */
  ghost predicate Explained(s: State)
    requires Shape(s)
  {
    && (forall k: nat | WordAt(s, k).cycle == Cycle(s.n, k) ::
          if WordAt(s, k).cell.Holds? then k in s.stored && k !in s.taken
          else k in s.taken || k in s.abandoned)
    && (forall k: nat :: WordAt(s, k).cell.Holds? ==> WordAt(s, k).cycle >= 0)
  }

  ghost predicate LocalSound(s: State, l: Local)
    requires Shape(s)
  {
    && (HasEntry(l) ==> AtMost(l.entry, WordAt(s, l.ticket)))
    && (l.EnqHead? || l.EnqSwap? ==> l.entry.cell.Vacant? && l.entry.cycle < Cycle(s.n, l.ticket))
    && (l.EnqHead? ==> !l.entry.safe)
    && (l.DeqSwap? ==>
          && l.entry.cycle < Cycle(s.n, l.ticket)
          && (l.entry.cell.Holds? ==> l.entry.safe && l.replacement == l.entry.(safe := false))
          && (l.entry.cell.Vacant? ==> l.replacement == Word(Cycle(s.n, l.ticket), l.entry.safe, Vacant)))
    && (l.DeqTake? ==>
          && l.entry.cycle == Cycle(s.n, l.ticket)
          && l.ticket in s.stored && l.entry.cell == Holds(s.stored[l.ticket]))
    && (l.DeqTail? ==> l.ticket < s.head)
    && (l.CatchSwap? ==> l.seenTail <= l.target <= s.head)
    && (l.CatchTail? ==> l.target <= s.head)
  }

  ghost predicate LocalsSound(s: State)
    requires Shape(s)
  {
    forall t | 0 <= t < |s.threads| :: LocalSound(s, s.threads[t])
  }

  /** A pending compare-exchange of an enqueuer on this slot, at this ticket or an earlier one,
      that would succeed on the word w. */
  predicate Threatens(s: State, l: Local, ticket: nat, w: Word)
    requires s.n > 0
  {
    l.EnqSwap? && Slot(s.n, l.ticket) == Slot(s.n, ticket) && l.ticket <= ticket && l.entry == w
  }

  /** An abandoned ticket is out of reach: its cycle is over, or the word is unsafe and no
      enqueuer that looked at head in time can still swap it. */
  ghost predicate OutOfReach(s: State, ticket: nat)
    requires Shape(s)
  {
    || WordAt(s, ticket).cycle >= Cycle(s.n, ticket)
    || (&& !WordAt(s, ticket).safe
        && forall t | 0 <= t < |s.threads| :: !Threatens(s, s.threads[t], ticket, WordAt(s, ticket)))
  }

  ghost predicate AbandonedOutOfReach(s: State)
    requires Shape(s)
  {
    forall h | h in s.abandoned :: OutOfReach(s, h)
  }

  ghost predicate Inv(s: State) {
    && Shape(s)
    && TicketsOwned(s)
    && HistorySound(s)
    && Resident(s)
    && Explained(s)
    && LocalsSound(s)
    && AbandonedOutOfReach(s)
  }

  lemma SlotsBelow(s: State)
    requires s.n > 0
    ensures forall k: nat | k < s.n :: Slot(s.n, k) == k && Cycle(s.n, k) == 0
  {
  }

  lemma InitEmptyInv(s: State)
    requires InitEmpty(s)
    ensures Inv(s)
  {
  }

  lemma InitFullInv(s: State)
    requires InitFull(s)
    ensures Inv(s)
  {
    SlotsBelow(s);
  }

  lemma InitInv(s: State)
    requires Init(s)
    ensures Inv(s)
  {
    if InitEmpty(s) {
      InitEmptyInv(s);
    } else {
      InitFullInv(s);
    }
  }

  // ---------------------------------------------------------------- one step

  /** What only grows: the rank of every word, the history, head and tail. */
  ghost predicate Grows(s: State, s': State) {
    && Shape(s) && Shape(s') && s.n == s'.n
    && (forall k: nat :: AtMost(WordAt(s, k), WordAt(s', k)))
    && (forall k | k in s.stored :: k in s'.stored && s'.stored[k] == s.stored[k])
    && s.head <= s'.head && s.tail <= s'.tail
  }

  ghost predicate Evolves(s: State, s': State) {
    && Grows(s, s') && |s.threads| == |s'.threads|
    && (forall k | k in s.taken :: k in s'.taken && s'.taken[k] == s.taken[k])
    && s.abandoned <= s'.abandoned
  }

  lemma LocalSoundGrows(s: State, s': State, l: Local)
    requires Grows(s, s') && LocalSound(s, l)
    ensures LocalSound(s', l)
  {
  }

  lemma LocalsGrow(s: State, s': State, t: nat)
    requires Grows(s, s') && LocalsSound(s)
    requires t < |s.threads| == |s'.threads| && s'.threads == s.threads[t := s'.threads[t]]
    requires LocalSound(s', s'.threads[t])
    ensures LocalsSound(s')
  {
    forall u | 0 <= u < |s'.threads|
      ensures LocalSound(s', s'.threads[u])
    {
      if u != t {
        LocalSoundGrows(s, s', s.threads[u]);
      }
    }
  }

  /** A word that climbs in rank keeps an abandoned ticket out of reach if it stays unsafe
      below the cycle of the ticket. */
  lemma OutOfReachGrows(s: State, s': State, t: nat, a: nat)
    requires Grows(s, s') && LocalsSound(s) && OutOfReach(s, a)
    requires t < |s.threads| == |s'.threads| && s'.threads == s.threads[t := s'.threads[t]]
    requires WordAt(s', a).cycle < Cycle(s.n, a) ==> !WordAt(s', a).safe
    requires WordAt(s', a).cycle < Cycle(s.n, a) ==> !Threatens(s', s'.threads[t], a, WordAt(s', a))
    ensures OutOfReach(s', a)
  {
    forall u | 0 <= u < |s'.threads| && u != t && WordAt(s', a).cycle < Cycle(s.n, a)
      ensures !Threatens(s', s'.threads[u], a, WordAt(s', a))
    {
      assert LocalSound(s, s.threads[u]);
    }
  }

  /** A step of thread t that leaves the words and the history of indices alone. */
  ghost predicate Moves(s: State, s': State, t: nat) {
    && t < |s.threads| == |s'.threads|
    && s' == s.(threads := s.threads[t := s'.threads[t]], threshold := s'.threshold,
                head := s'.head, tail := s'.tail, headOwner := s'.headOwner, tailOwner := s'.tailOwner)
    && s.head <= s'.head && s.tail <= s'.tail
  }

  /** It keeps the invariant on words and history if it cannot revive an abandoned ticket. */
  lemma MoveKeeps(s: State, s': State, t: nat)
    requires Inv(s) && Moves(s, s', t)
    requires LocalSound(s', s'.threads[t])
    requires forall h | h in s.abandoned ::
               WordAt(s, h).cycle >= Cycle(s.n, h) || !Threatens(s, s'.threads[t], h, WordAt(s, h))
    requires TicketsOwned(s')
    ensures Inv(s')
    ensures Evolves(s, s')
  {
    assert forall k: nat :: WordAt(s', k) == WordAt(s, k);
    LocalsGrow(s, s', t);
    forall h | h in s'.abandoned
      ensures OutOfReach(s', h)
    {
      OutOfReachGrows(s, s', t, h);
    }
  }

  lemma DrawTailTickets(s: State, t: nat)
    requires Shape(s) && TicketsOwned(s) && HistorySound(s) && t < |s.threads| && s.threads[t].EnqTicket?
    ensures TicketsOwned(DoEnqueue(s, t))
  {
  }

  lemma DrawHeadTickets(s: State, t: nat)
    requires Shape(s) && TicketsOwned(s) && HistorySound(s) && t < |s.threads| && s.threads[t].DeqTicket?
    ensures TicketsOwned(DoDequeue(s, t))
  {
  }

  /** The words after a change at one ticket. */
  ghost predicate Writes(s: State, s': State, ticket: nat, w: Word)
    requires Shape(s)
  {
    && Shape(s') && s'.n == s.n
    && s'.words == s.words[Slot(s.n, ticket) := w]
  }

  lemma WordsAfter(s: State, s': State, ticket: nat, w: Word)
    requires Shape(s) && Writes(s, s', ticket, w)
    ensures forall k: nat :: WordAt(s', k) == if Slot(s.n, k) == Slot(s.n, ticket) then w else WordAt(s, k)
  {
  }

  /** The dequeuer of ticket h leaves its inner loop, having left word w in the slot: the word is
      unchanged or climbed, and the enqueuer of h can no longer use it. */
  ghost predicate Gives(s: State, s': State, t: nat, w: Word)
    requires Shape(s)
  {
    && t < |s.threads| == |s'.threads| && HoldsHead(s.threads[t])
    && var h := s.threads[t].ticket;
       && s' == s.(words := s.words[Slot(s.n, h) := w], threads := s.threads[t := s'.threads[t]],
                   abandoned := s.abandoned + {h})
       && (s'.threads[t].DeqTicket? || (s'.threads[t].DeqTail? && s'.threads[t].ticket == h))
       && WordAt(s, h).cycle != Cycle(s.n, h)
       && AtMost(WordAt(s, h), w)
       && (w.cell.Holds? ==> WordAt(s, h).cell == w.cell && WordAt(s, h).cycle == w.cycle)
       && (w.cell.Vacant? ==> WordAt(s, h).cell.Vacant? && (w == WordAt(s, h) || w.cycle == Cycle(s.n, h)))
       && (w.cycle >= Cycle(s.n, h) || (w.cell.Holds? && !w.safe))
       && (!WordAt(s, h).safe ==> !w.safe)
  }

  lemma GivesTickets(s: State, s': State, t: nat, w: Word)
    requires TicketsOwned(s) && Shape(s) && Gives(s, s', t, w)
    ensures TicketsOwned(s')
  {
  }

  lemma GivesHistory(s: State, s': State, t: nat, w: Word)
    requires Inv(s) && Gives(s, s', t, w)
    ensures HistorySound(s')
  {
  }

  lemma GivesWords(s: State, s': State, t: nat, w: Word)
    requires Inv(s) && Gives(s, s', t, w)
    ensures Resident(s') && Explained(s')
  {
    var h := s.threads[t].ticket;
    SameSlotAll(s.n, h);
    WordsAfter(s, s', h, w);
  }

  lemma GivesEvolves(s: State, s': State, t: nat, w: Word)
    requires Inv(s) && Gives(s, s', t, w)
    ensures Evolves(s, s') && LocalsSound(s')
  {
    WordsAfter(s, s', s.threads[t].ticket, w);
    LocalsGrow(s, s', t);
  }

  lemma GivesReach(s: State, s': State, t: nat, w: Word)
    requires Inv(s) && Gives(s, s', t, w) && Grows(s, s') && LocalsSound(s')
    ensures AbandonedOutOfReach(s')
  {
    var h := s.threads[t].ticket;
    WordsAfter(s, s', h, w);
    forall a | a in s.abandoned
      ensures OutOfReach(s', a)
    {
      OutOfReachGrows(s, s', t, a);
    }
    assert OutOfReach(s', h) by {
      assert forall u | 0 <= u < |s'.threads| :: LocalSound(s', s'.threads[u]);
    }
  }

  lemma GivesKeeps(s: State, s': State, t: nat, w: Word)
    requires Inv(s) && Gives(s, s', t, w)
    ensures Inv(s')
    ensures Evolves(s, s')
  {
    GivesTickets(s, s', t, w);
    GivesHistory(s, s', t, w);
    GivesWords(s, s', t, w);
    GivesEvolves(s, s', t, w);
    GivesReach(s, s', t, w);
  }

  /** The successful swap of an enqueuer. */
  ghost predicate Stores(s: State, s': State, t: nat)
    requires Shape(s)
  {
    && t < |s.threads|
    && var l := s.threads[t];
       && l.EnqSwap? && WordAt(s, l.ticket) == l.entry
       && s' == StoreIndex(s, t, l.index, l.known, l.ticket)
  }

  lemma StoresInReach(s: State, s': State, t: nat)
    requires Inv(s) && Stores(s, s', t)
    ensures s.threads[t].ticket !in s.abandoned
  {
    var k := s.threads[t].ticket;
    assert LocalSound(s, s.threads[t]);
    assert k in s.abandoned ==> OutOfReach(s, k);
  }

  lemma StoresTickets(s: State, s': State, t: nat)
    requires Shape(s) && TicketsOwned(s) && Stores(s, s', t)
    ensures TicketsOwned(s')
  {
  }

  lemma StoresHistory(s: State, s': State, t: nat)
    requires Inv(s) && Stores(s, s', t)
    ensures HistorySound(s')
  {
    StoresInReach(s, s', t);
  }

  lemma StoresWords(s: State, s': State, t: nat)
    requires Inv(s) && Stores(s, s', t)
    ensures Resident(s') && Explained(s')
  {
    var k := s.threads[t].ticket;
    SameSlotAll(s.n, k);
    WordsAfter(s, s', k, Word(Cycle(s.n, k), true, Holds(s.threads[t].index)));
  }

  lemma StoresGrows(s: State, s': State, t: nat)
    requires Inv(s) && Stores(s, s', t)
    ensures Grows(s, s') && LocalsSound(s')
  {
    var k := s.threads[t].ticket;
    WordsAfter(s, s', k, Word(Cycle(s.n, k), true, Holds(s.threads[t].index)));
    assert LocalSound(s, s.threads[t]);
    LocalsGrow(s, s', t);
  }

  lemma StoresKeeps(s: State, s': State, t: nat)
    requires Inv(s) && Stores(s, s', t)
    ensures Inv(s')
    ensures Evolves(s, s')
  {
    var k := s.threads[t].ticket;
    StoresTickets(s, s', t);
    StoresHistory(s, s', t);
    StoresWords(s, s', t);
    StoresGrows(s, s', t);
    forall a | a in s'.abandoned
      ensures OutOfReach(s', a)
    {
      assert OutOfReach(s, a);
      assert LocalSound(s, s.threads[t]);
      if Slot(s.n, a) == Slot(s.n, k) {
        SameSlot(s.n, a, k);
        assert WordAt(s, a).cycle >= Cycle(s.n, a) || !Threatens(s, s.threads[t], a, WordAt(s, a));
      }
      OutOfReachGrows(s, s', t, a);
    }
  }

  /** The fetch-or of a dequeuer. */
  ghost predicate Takes(s: State, s': State, t: nat)
    requires Shape(s)
  {
    && t < |s.threads| && s.threads[t].DeqTake?
    && s' == TakeIndex(s, t, s.threads[t].ticket, s.threads[t].entry)
  }

  lemma TakesTickets(s: State, s': State, t: nat)
    requires Shape(s) && TicketsOwned(s) && Takes(s, s', t)
    ensures TicketsOwned(s')
  {
  }

  lemma TakesHistory(s: State, s': State, t: nat)
    requires Inv(s) && Takes(s, s', t)
    ensures HistorySound(s')
  {
    assert LocalSound(s, s.threads[t]);
    assert s.threads[t].ticket !in s.taken;
  }

  lemma TakesWords(s: State, s': State, t: nat)
    requires Inv(s) && Takes(s, s', t)
    ensures Resident(s') && Explained(s')
  {
    var h := s.threads[t].ticket;
    SameSlotAll(s.n, h);
    WordsAfter(s, s', h, WordAt(s, h).(cell := Vacant));
    assert LocalSound(s, s.threads[t]);
  }

  lemma TakesGrows(s: State, s': State, t: nat)
    requires Inv(s) && Takes(s, s', t)
    ensures Grows(s, s') && LocalsSound(s')
  {
    var h := s.threads[t].ticket;
    WordsAfter(s, s', h, WordAt(s, h).(cell := Vacant));
    assert LocalSound(s, s.threads[t]);
    LocalsGrow(s, s', t);
  }

  lemma TakesReach(s: State, s': State, t: nat)
    requires Inv(s) && Takes(s, s', t) && Grows(s, s')
    ensures AbandonedOutOfReach(s')
  {
    WordsAfter(s, s', s.threads[t].ticket, WordAt(s, s.threads[t].ticket).(cell := Vacant));
    forall a | a in s'.abandoned
      ensures OutOfReach(s', a)
    {
      assert OutOfReach(s, a);
      OutOfReachGrows(s, s', t, a);
    }
  }

  lemma TakesKeeps(s: State, s': State, t: nat)
    requires Inv(s) && Takes(s, s', t)
    ensures Inv(s')
    ensures Evolves(s, s')
  {
    TakesTickets(s, s', t);
    TakesHistory(s, s', t);
    TakesWords(s, s', t);
    TakesGrows(s, s', t);
    TakesReach(s, s', t);
  }

  /** A thread goes to another point with the tickets it has, or without its tail ticket. */
  lemma GotoKeeps(s: State, t: nat, l: Local, tail: nat, threshold: int)
    requires Inv(s) && t < |s.threads| && s.tail <= tail
    requires LocalSound(s, l)
    requires HasIndex(l) ==> l.index < s.n
    requires HoldsTail(l) ==> HoldsTail(s.threads[t]) && l.ticket == s.threads[t].ticket
    requires HoldsHead(l) <==> HoldsHead(s.threads[t])
    requires HoldsHead(l) ==> l.ticket == s.threads[t].ticket
    requires forall h | h in s.abandoned ::
               WordAt(s, h).cycle >= Cycle(s.n, h) || !Threatens(s, l, h, WordAt(s, h))
    ensures Inv(Goto(s, t, l).(tail := tail, threshold := threshold))
    ensures Evolves(s, Goto(s, t, l).(tail := tail, threshold := threshold))
  {
    var s' := Goto(s, t, l).(tail := tail, threshold := threshold);
    assert s'.threads[t] == l;
    assert TicketsOwned(s');
    LocalSoundGrows(s, s', l);
    MoveKeeps(s, s', t);
  }

  lemma DecideKeeps(s: State, t: nat)
    requires Inv(s) && t < |s.threads| && (s.threads[t].EnqLoad? || s.threads[t].EnqSwap?)
    ensures var l := s.threads[t];
            Inv(Examine(s, t, l.index, l.known, l.ticket))
    ensures var l := s.threads[t];
            Evolves(s, Examine(s, t, l.index, l.known, l.ticket))
  {
    var l := s.threads[t];
    var l' := EnqueueDecision(s.n, l.index, l.known, l.ticket, WordAt(s, l.ticket));
    forall h | h in s.abandoned
      ensures WordAt(s, h).cycle >= Cycle(s.n, h) || !Threatens(s, l', h, WordAt(s, h))
    {
      assert OutOfReach(s, h);
    }
    GotoKeeps(s, t, l', s.tail, s.threshold);
  }

  lemma HeadCheckKeeps(s: State, t: nat)
    requires Inv(s) && t < |s.threads| && s.threads[t].EnqHead?
    ensures Inv(DoEnqueue(s, t))
    ensures Evolves(s, DoEnqueue(s, t))
  {
    var EnqHead(index, known, ticket, entry) := s.threads[t];
    var l' := if s.head <= ticket then EnqSwap(index, known, ticket, entry) else EnqTicket(index, known);
    assert LocalSound(s, s.threads[t]);
    GotoKeeps(s, t, l', s.tail, s.threshold);
  }

  /** A dequeuer that meets its own cycle finds the index stored at its ticket. */
  lemma OwnCycle(s: State, t: nat)
    requires Inv(s) && t < |s.threads| && HoldsHead(s.threads[t])
    requires WordAt(s, s.threads[t].ticket).cycle == Cycle(s.n, s.threads[t].ticket)
    ensures var h := s.threads[t].ticket;
            h in s.stored && h !in s.taken && s.stored[h] < s.n && WordAt(s, h).cell == Holds(s.stored[h])
  {
  }

  /** The dequeuer abandons its ticket without writing. */
  lemma AbandonKeeps(s: State, t: nat, attempts: nat)
    requires Inv(s) && t < |s.threads| && (s.threads[t].DeqLoad? || s.threads[t].DeqSwap?)
    requires var l := s.threads[t]; Judge(s.n, l.ticket, attempts, WordAt(s, l.ticket)).Abandon?
    ensures var l := s.threads[t]; Inv(AbandonTicket(s, t, l.known, l.spent, l.ticket))
    ensures var l := s.threads[t]; Evolves(s, AbandonTicket(s, t, l.known, l.spent, l.ticket))
  {
    var l := s.threads[t];
    var w := WordAt(s, l.ticket);
    var s' := AbandonTicket(s, t, l.known, l.spent, l.ticket);
    assert s'.words == s.words[Slot(s.n, l.ticket) := w];
    assert Gives(s, s', t, w);
    GivesKeeps(s, s', t, w);
  }

  lemma FollowKeeps(s: State, t: nat, attempts: nat)
    requires Inv(s) && t < |s.threads| && (s.threads[t].DeqLoad? || s.threads[t].DeqSwap?)
    ensures var l := s.threads[t];
            Inv(Follow(s, t, l.known, l.spent, l.ticket, attempts, WordAt(s, l.ticket)))
    ensures var l := s.threads[t];
            Evolves(s, Follow(s, t, l.known, l.spent, l.ticket, attempts, WordAt(s, l.ticket)))
  {
    var l := s.threads[t];
    var w := WordAt(s, l.ticket);
    match Judge(s.n, l.ticket, attempts, w)
    case Take =>
      OwnCycle(s, t);
      GotoKeeps(s, t, DeqTake(l.ticket, w), s.tail, s.threshold);
    case Reload =>
      GotoKeeps(s, t, DeqLoad(l.known, l.spent, l.ticket, attempts + 1), s.tail, s.threshold);
    case Swap(replacement, attempts') =>
      GotoKeeps(s, t, DeqSwap(l.known, l.spent, l.ticket, attempts', w, replacement), s.tail, s.threshold);
    case Abandon =>
      AbandonKeeps(s, t, attempts);
  }

  lemma SwapAwayKeeps(s: State, t: nat)
    requires Inv(s) && t < |s.threads| && s.threads[t].DeqSwap? && WordAt(s, s.threads[t].ticket) == s.threads[t].entry
    ensures Inv(DoDequeue(s, t))
    ensures Evolves(s, DoDequeue(s, t))
  {
    assert LocalSound(s, s.threads[t]);
    GivesKeeps(s, DoDequeue(s, t), t, s.threads[t].replacement);
  }

  lemma FailSwapKeeps(s: State, t: nat)
    requires Inv(s) && t < |s.threads|
    requires s.threads[t].EnqSwap? || s.threads[t].DeqSwap? || s.threads[t].CatchSwap?
    ensures Inv(FailSwap(s, t))
    ensures Evolves(s, FailSwap(s, t))
  {
    match s.threads[t]
    case EnqSwap(_, _, _, _) => DecideKeeps(s, t);
    case DeqSwap(_, _, _, attempts, _, _) => FollowKeeps(s, t, attempts);
    case CatchSwap(_, _) => GotoKeeps(s, t, CatchHead, s.tail, s.threshold);
  }

  lemma DrawTailKeeps(s: State, t: nat)
    requires Inv(s) && t < |s.threads| && s.threads[t].EnqTicket?
    ensures Inv(DoEnqueue(s, t))
    ensures Evolves(s, DoEnqueue(s, t))
  {
    DrawTailTickets(s, t);
    MoveKeeps(s, DoEnqueue(s, t), t);
  }

  lemma DrawHeadKeeps(s: State, t: nat)
    requires Inv(s) && t < |s.threads| && s.threads[t].DeqTicket?
    ensures Inv(DoDequeue(s, t))
    ensures Evolves(s, DoDequeue(s, t))
  {
    DrawHeadTickets(s, t);
    MoveKeeps(s, DoDequeue(s, t), t);
  }

  predicate Plain(l: Local) {
    !HasIndex(l) && !HoldsHead(l)
  }

  lemma PlainKeeps(s: State, s': State, t: nat, l: Local)
    requires Inv(s) && t < |s.threads| && s.tail <= s'.tail
    requires Plain(l) && !HoldsHead(s.threads[t]) && LocalSound(s, l)
    requires s' == Goto(s, t, l).(tail := s'.tail, threshold := s'.threshold)
    ensures Inv(s')
    ensures Evolves(s, s')
  {
    GotoKeeps(s, t, l, s'.tail, s'.threshold);
  }

  lemma ThresholdLocal(s: State, t: nat)
    requires Shape(s) && t < |s.threads| && IsThreshold(s.threads[t])
    ensures Plain(DoThreshold(s, t).threads[t]) && LocalSound(s, DoThreshold(s, t).threads[t])
  {
  }

  lemma ThresholdKeeps(s: State, t: nat)
    requires Inv(s) && t < |s.threads| && IsThreshold(s.threads[t])
    ensures Inv(DoThreshold(s, t))
    ensures Evolves(s, DoThreshold(s, t))
  {
    var s' := DoThreshold(s, t);
    ThresholdLocal(s, t);
    PlainKeeps(s, s', t, s'.threads[t]);
  }

  /** `catch_up` aims at most at head, and never below the tail it read. */
  lemma CatchUpLocal(s: State, t: nat)
    requires Shape(s) && t < |s.threads| && IsCatchUp(s.threads[t]) && LocalSound(s, s.threads[t])
    ensures s.tail <= DoCatchUp(s, t).tail
    ensures DoCatchUp(s, t).tail != s.tail ==> DoCatchUp(s, t).tail <= s.head
    ensures Plain(DoCatchUp(s, t).threads[t]) && LocalSound(s, DoCatchUp(s, t).threads[t])
  {
  }

  lemma CatchUpKeeps(s: State, t: nat)
    requires Inv(s) && t < |s.threads| && IsCatchUp(s.threads[t])
    ensures Inv(DoCatchUp(s, t))
    ensures Evolves(s, DoCatchUp(s, t))
  {
    var s' := DoCatchUp(s, t);
    CatchUpLocal(s, t);
    PlainKeeps(s, s', t, s'.threads[t]);
  }

  lemma EnqueueKeeps(s: State, t: nat)
    requires Inv(s) && t < |s.threads| && IsEnqueue(s.threads[t])
    ensures Inv(DoEnqueue(s, t))
    ensures Evolves(s, DoEnqueue(s, t))
  {
    match s.threads[t]
    case EnqTicket(_, _) => DrawTailKeeps(s, t);
    case EnqLoad(_, _, _) => DecideKeeps(s, t);
    case EnqHead(_, _, _, _) => HeadCheckKeeps(s, t);
    case EnqSwap(index, known, ticket, entry) =>
      if WordAt(s, ticket) == entry {
        StoresKeeps(s, StoreIndex(s, t, index, known, ticket), t);
      } else {
        DecideKeeps(s, t);
      }
  }

  lemma DequeueKeeps(s: State, t: nat)
    requires Inv(s) && t < |s.threads| && IsDequeue(s.threads[t])
    ensures Inv(DoDequeue(s, t))
    ensures Evolves(s, DoDequeue(s, t))
  {
    match s.threads[t]
    case DeqTicket(_, _) => DrawHeadKeeps(s, t);
    case DeqLoad(_, _, _, attempts) => FollowKeeps(s, t, attempts);
    case DeqSwap(_, _, ticket, attempts, entry, _) =>
      if WordAt(s, ticket) == entry { SwapAwayKeeps(s, t); } else { FollowKeeps(s, t, attempts); }
    case DeqTake(ticket, entry) => TakesKeeps(s, TakeIndex(s, t, ticket, entry), t);
  }

  lemma AdvanceKeeps(s: State, t: nat)
    requires Inv(s) && t < |s.threads| && !s.threads[t].Idle? && !s.threads[t].Done?
    ensures Inv(DoAdvance(s, t))
    ensures Evolves(s, DoAdvance(s, t))
  {
    var l := s.threads[t];
    if IsEnqueue(l) {
      EnqueueKeeps(s, t);
    } else if IsDequeue(l) {
      DequeueKeeps(s, t);
    } else if IsCatchUp(l) {
      CatchUpKeeps(s, t);
    } else {
      ThresholdKeeps(s, t);
    }
  }

  lemma StartKeeps(s: State, t: nat, l: Local)
    requires Inv(s) && t < |s.threads| && (s.threads[t].Idle? || s.threads[t].Done?)
    requires (l.EnqTicket? && l.index < s.n) || l.DeqTicket? || l.DeqGate?
    ensures Inv(Goto(s, t, l))
    ensures Evolves(s, Goto(s, t, l))
  {
    GotoKeeps(s, t, l, s.tail, s.threshold);
  }

  lemma StepKeepsInv(s: State, step: Step)
    requires Inv(s) && Enabled(s, step)
    ensures Inv(Do(s, step))
    ensures Evolves(s, Do(s, step))
  {
    match step
    case StartEnqueue(t, index, known) => StartKeeps(s, t, EnqTicket(index, known));
    case StartDequeue(t, known) => StartKeeps(s, t, if known then DeqTicket(known, 0) else DeqGate);
    case Advance(t) => AdvanceKeeps(s, t);
    case SpuriousFailure(t) => FailSwapKeeps(s, t);
  }

  lemma NextKeepsInv(s: State, s': State)
    requires Inv(s) && Next(s, s')
    ensures Inv(s')
    ensures Evolves(s, s')
  {
    var step :| Enabled(s, step) && s' == Do(s, step);
    StepKeepsInv(s, step);
  }

  /** Main result of this module: the invariant holds in every state of every run. */
  lemma {:induction false} RunKeepsInv(run: seq<State>, i: nat)
    requires IsRun(run) && i < |run|
    ensures Inv(run[i])
  {
    if i == 0 {
      InitInv(run[0]);
    } else {
      RunKeepsInv(run, i - 1);
      assert StepAt(run, i - 1);
      NextKeepsInv(run[i - 1], run[i]);
    }
  }
}
