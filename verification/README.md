# Event dispatcher: model and proofs

A Dafny model of a C++20 event dispatcher that is built from small concurrent parts, with proofs of
what each part promises. `dafny verify dfyconfig.toml` checks the project.

## How it is modelled

Each concurrent part is a state machine: a state, the steps that are enabled in it, and a function
that performs one step of one thread. A step is one atomic operation or one critical section with the
local computation up to the next. A run is any sequence of states that starts in an initial state and
follows steps; the theorems hold for every run, with any number of threads. Where a theorem is about a
call, with its arguments and its answer, the run comes with its steps (`IsTrace`; `RunHasTrace` shows that
every run has some). Fields that record history
(accepted events, tickets, logs) are part of the state; no step depends on them except to record more. Each part that is
also meaningful one call at a time is an imperative class or loop, proved against a specification.

| part | modules |
|---|---|
| SCQ index ring, concurrent | ScqRing (steps), ScqSafety (invariant), ScqTheorems, ScqCalls (arguments and answers), ScqProgress (solo progress, ticket budget), ScqDistance (head and tail), ScqThreshold, ScqAlone (what a lone dequeue answers), ScqStranding |
| SCQ index ring, packed words | Bits, ScqWords (masks and comparisons), ScqSequential (class over an array of 64-bit words) |
| lock-free queue | LockFreeQueue (steps), LockFreeSafety, LockFreeTheorems, LockFreeCalls and LockFreeReturns (answers of pushes, pops and closes), LockFreeAlone (calls that nobody disturbs), LockFreeClosed (what closed means), LockFreeCrowded (runs with too many threads), LockFreeSequential (class over two packed rings) |
| mutex queue | BoundedFifo (specification shared by both queues), BoundedMutexQueue (class), MutexWaiting (wait and notify steps), MutexWakeups, MutexCalls (answers) |
| subscriber | Subscriber (steps), SubscriberSafety, SubscriberTheorems, SubscriberRuns (calls as parts of a run), SubscriberOffers, SubscriberStops, SubscriberDrains, SubscriberStandoff, SubscriberCalls (class) |
| dispatcher | Dispatcher (steps), DispatcherSafety, DispatcherTheorems, DispatcherCalls (answers, policies), DispatcherOrder, DispatcherRounds (one round of a worker), DispatcherLoops (class) |
| registry | Registry (steps), RegistrySafety, RegistryCalls, RegistryLoops (class) |
| common | Wrappers (Option), Sequences (associativity, counting), Tally (sums and bags over threads) |

Both queues, one call at a time, are proved equal to the same `BoundedFifo` functions, reply by reply,
so the two policies are interchangeable there.

## What to know when reading

- Atomics are sequentially consistent. Compare-exchange may fail spuriously everywhere it is weak.
- The concurrent ring has unbounded tickets; ScqWords proves that the word operations and signed
  comparisons decide as the records do while tickets stay within half the word range of each other,
  and ScqSequential uses wrapping 64-bit words throughout.
- A few branches cannot be reached one call at a time; the sequential ring has an assertion there
  instead: the give-up branch of `enqueue`, the unsafe branch and the second pass of `try_dequeue`.
- The lock-free queue is modelled over atomic FIFO rings whose dequeue may answer empty although the
  ring is not, as the SCQ ring may. The rule of the model (`MayBeUnlucky` in LockFreeQueue) is that it
  may not while no operation that could be in the middle of an enqueue on that ring is under way, if
  never more than 2n dequeuers were on that ring. The ring theorems behind the rule are
  `ScqTheorems.EmptyAnswerIsJustified` for the tail check and `ScqAlone.ThresholdAnswerIsJustified` for
  the threshold; `ScqStranding` shows that with 3n dequeuers it fails, from an empty and from a full
  ring. LockFreeSequential uses the packed rings themselves.
- Hence three promises of the queue hold only up to a bound on its users, which its comments do not
  mention. With at most 2n consumers inside at any moment `close_and_discard` leaves nothing behind
  (`DiscardIsComplete`) and a closed answer after a close means drained (`ClosedAfterClose`); with at
  most 2n producers an undisturbed push finds a free slot (`LonePushSucceeds`). LockFreeCrowded has the
  runs with 3n in which each fails.
- In the lock-free queue "closed" does not mean drained even with few threads, because lines 119 to 122
  dequeue before they look at the quiescence flag: `ClosedWithAnEventLeft` is a run that shows it.
  `PopIsTrustedExactly` says which calls can be relied on: with at most 2n consumers, exactly those that
  start with the producer gate closed and nobody in it, in particular after a close has returned. The
  comments of the queue do not mention this.
- `stop_delivery` takes the join mutex before it asks whether it runs on the executor, so a
  self-unsubscribing callback and a joining thread can wait for each other for ever; SubscriberStandoff
  shows the run, that nothing gets out of it, and that the callback gets through exactly when it finds the
  mutex free. The theorems about unsubscribe say what holds when it returns.
- A copy that throws in a woken `wait_push` has absorbed a notification; MutexWaiting counts these, and
  the claim about parked producers is exact up to that count. `ThrowingCopyAbsorbsWakeup` shows that
  the correction is needed.
- Metrics are natural numbers. Stops, deadlines and spurious wake-ups are steps that may happen at any
  time to a parked thread.
- Subscriber identities, events and tickets are numbers; callbacks and constructors are choices to
  return or to throw, and a running callback may publish to, stop or unsubscribe its own subscriber.

## Model

| member | source | states |
|---|---|---|
| ScqSafety.StepKeepsInv | include/event_dispatcher/queue/detail/scalable_circular_index_queue.hpp:52-137 | Any step of any thread keeps the invariant: tickets are drawn once, every word explains a stored, taken or abandoned ticket of its slot, and abandoned tickets are out of every enqueuer's reach |
| ScqSafety.RunKeepsInv | include/event_dispatcher/queue/detail/scalable_circular_index_queue.hpp:43-137 | From either initialiser, every state of every run satisfies the invariant |
| ScqSafety.StoresInReach | include/event_dispatcher/queue/detail/scalable_circular_index_queue.hpp:61-73 | A successful swap is never at an abandoned ticket, although the enqueuer looked at head earlier |
| ScqSafety.OwnCycle | include/event_dispatcher/queue/detail/scalable_circular_index_queue.hpp:98-101 | A word that carries the dequeuer's own cycle holds the index stored at its ticket, which nobody has taken |
| ScqTheorems.StoredStaysUntilTaken | include/event_dispatcher/queue/detail/scalable_circular_index_queue.hpp:71-101 | An index stored at tail ticket T stays in the slot of T, under T's cycle, until head ticket T takes exactly that index |
| ScqTheorems.AbandonedNeverStored | include/event_dispatcher/queue/detail/scalable_circular_index_queue.hpp:103-123 | After the dequeuer of T has left its slot without an index, no enqueue at T ever succeeds |
| ScqTheorems.NothingLostOrDuplicated | include/event_dispatcher/queue/detail/scalable_circular_index_queue.hpp:52-137 | Stores are as many as deliveries and resident tickets, and only stored tickets are taken (ScqCalls.IndicesBalance says the same of the indices themselves) |
| ScqTheorems.DequeueReturnsItsTicket | include/event_dispatcher/queue/detail/scalable_circular_index_queue.hpp:98-101 | A dequeuer that saw its own cycle returns a real index below the capacity, the one stored at its ticket, for the first time |
| ScqTheorems.TicketsAreExclusive | include/event_dispatcher/queue/detail/scalable_circular_index_queue.hpp:56-90 | No two threads hold the same head ticket or the same tail ticket |
| ScqTheorems.NoAba | include/event_dispatcher/queue/detail/scalable_circular_index_queue.hpp:61-123 | If a slot has the same word at two moments it had that word all the time between |
| ScqTheorems.SwapReachesItsDequeuer | include/event_dispatcher/queue/detail/scalable_circular_index_queue.hpp:65-73 | When the swap of an enqueuer succeeds its ticket is neither taken nor abandoned, and if head has passed it, its dequeuer is still in the inner loop |
| ScqTheorems.FirstInFirstOut | include/event_dispatcher/queue/detail/scalable_circular_index_queue.hpp:55-101 | First in, first out in real time: an index stored before another enqueue begins has the lower tail ticket, and when the later one has been taken the earlier one has been taken too or is in the hands of a dequeuer with the earlier head ticket |
| ScqTheorems.TailIsMonotone | include/event_dispatcher/queue/detail/scalable_circular_index_queue.hpp:56-90 | Head and tail never go back, catch-up included |
| ScqTheorems.CatchUpStopsAtHead | include/event_dispatcher/queue/detail/scalable_circular_index_queue.hpp:194-203 | A catch-up that moves tail moves it forward and not past head |
| ScqTheorems.CatchUpPassesItsTicket | include/event_dispatcher/queue/detail/scalable_circular_index_queue.hpp:194-203 | When catch_up is done tail has passed the ticket it was called for, for good, whatever other threads and spurious failures did meanwhile |
| ScqTheorems.EmptyAnswerIsJustified | include/event_dispatcher/queue/detail/scalable_circular_index_queue.hpp:125-131 | When the tail check answers empty, every stored index belongs to a head ticket that another dequeuer holds in its inner loop |
| ScqTheorems.EmptyAnswerAtRest | include/event_dispatcher/queue/detail/scalable_circular_index_queue.hpp:125-131 | With nobody else in the inner loop, an empty answer of the tail check means that the ring holds no index |
| ScqProgress.VacantTicket | include/event_dispatcher/queue/detail/scalable_circular_index_queue.hpp:58-70 | Pigeonhole: of more consecutive tickets than there are stored indices, at most one lap, one is mapped to a vacant word |
| ScqProgress.EnqueueAlone | include/event_dispatcher/queue/detail/scalable_circular_index_queue.hpp:55-81 | With fewer than n indices stored, an enqueue running alone from any reachable state, its exchanges failing only when the word has changed, stores its index within max(head - tail, 0) + n tickets and a bounded number of steps |
| ScqCalls.EnqueueStoresItsIndex | include/event_dispatcher/queue/detail/scalable_circular_index_queue.hpp:52-82 | A call enqueue(x, known) that has returned stored exactly x, exactly once, at a ticket nothing had been stored at, in any interleaving and after any spurious failures; and enqueue(x, false) returns with the threshold full |
| ScqCalls.DequeueAnswersWhatItTook | include/event_dispatcher/queue/detail/scalable_circular_index_queue.hpp:84-137 | A try_dequeue that answers an index took it in its last step from a ticket at which it was stored and untaken, and took nothing else; one that answers nullopt took nothing, and was not told that the ring is not empty |
| ScqCalls.IndicesBalance | include/event_dispatcher/queue/detail/scalable_circular_index_queue.hpp:52-137 | For every index: as often as it was in the ring at first and was handed to enqueue calls that have stored, it has been answered by dequeue calls or is in the ring |
| ScqCalls.EnqueueCallAlone | include/event_dispatcher/queue/detail/scalable_circular_index_queue.hpp:52-82 | With fewer than n indices in the ring, a whole call enqueue(x, known) that runs alone from any reachable state stores x within a bounded number of steps, its exchanges failing only when the word has changed |
| ScqProgress.DequeueAlone | include/event_dispatcher/queue/detail/scalable_circular_index_queue.hpp:84-137 | A dequeue running alone from any reachable state, wherever in the call it was stopped, its exchanges failing only when the word has changed, returns within an explicit number of steps |
| ScqAlone.LoneDequeue | include/event_dispatcher/queue/detail/scalable_circular_index_queue.hpp:84-136 | With nobody else holding a head ticket, a try_dequeue(false) running alone takes the index at the first resident ticket k if and only if threshold >= 0 and threshold >= k - head; otherwise it answers nullopt; without spurious exchange failures the number of its steps is bounded |
| ScqAlone.ModerateDequeueIsExact | include/event_dispatcher/queue/detail/scalable_circular_index_queue.hpp:84-136 | If at no moment more than 2n dequeuers were inside and n indices were about, a lone try_dequeue(false) between operations takes the first resident index, and answers nullopt only if the ring is empty |
| ScqDistance.TailStaysWithinALap | include/event_dispatcher/queue/detail/scalable_circular_index_queue.hpp:55-81 | While resident indices and enqueuers together never exceed n, tail stays below head + 2n, with any number of dequeuers |
| ScqThreshold.ThresholdReaches | include/event_dispatcher/queue/detail/scalable_circular_index_queue.hpp:125-135 | If at no moment more than 2n dequeuers were inside and n indices were about, then whenever no enqueue is under way the threshold is at least the distance from head to the first resident ticket, so it cannot strand an index |
| ScqAlone.ThresholdAnswerIsJustified | include/event_dispatcher/queue/detail/scalable_circular_index_queue.hpp:84-136 | If at no moment more than 2n dequeuers were inside and n indices were about, then with no enqueue under way the threshold ends a call with nullopt, at either of its two tests, only if every index in the ring belongs to a head ticket that another dequeuer holds in its inner loop |
| ScqStranding.IndexIsStranded | include/event_dispatcher/queue/detail/scalable_circular_index_queue.hpp:84-136 | For every capacity a run of 3n overlapping dequeuers after which all have returned, an index is resident, and a try_dequeue(false) running alone answers nullopt |
| ScqStranding.FullIsStranded | include/event_dispatcher/queue/detail/scalable_circular_index_queue.hpp:84-136 | For every capacity a run of an initially full ring after which all 3n dequeuers have returned, all n indices are resident again, and a try_dequeue(false) running alone answers nullopt |
| ScqProgress.ThresholdIsBounded | include/event_dispatcher/queue/detail/scalable_circular_index_queue.hpp:159-161 | The threshold never exceeds 3n - 1 |
| ScqProgress.TicketBudget | include/event_dispatcher/queue/detail/scalable_circular_index_queue.hpp:89-135 | Between two resets of the threshold no call of try_dequeue draws more than 3n tickets, in any interleaving |
| ScqWords.OrCycleMask | include/event_dispatcher/queue/detail/scalable_circular_index_queue.hpp:62 | entry with the cycle mask is the cycle word of the entry, for every lap, safe bit and index |
| ScqWords.OrRingSize | include/event_dispatcher/queue/detail/scalable_circular_index_queue.hpp:104 | entry with the ring-size bit is the same word made safe |
| ScqWords.OrRingMask | include/event_dispatcher/queue/detail/scalable_circular_index_queue.hpp:99 | The fetch-or empties the word and keeps its cycle and safe bit |
| ScqWords.AndRingMask | include/event_dispatcher/queue/detail/scalable_circular_index_queue.hpp:100 | The masked entry is the stored index |
| ScqWords.XorIndex | include/event_dispatcher/queue/detail/scalable_circular_index_queue.hpp:53-71 | tail_cycle ^ (index ^ ring_mask) is the safe word of the ticket's cycle that holds the index |
| ScqWords.XorRingSize | include/event_dispatcher/queue/detail/scalable_circular_index_queue.hpp:66 | entry_cycle ^ ring_size is the unsafe vacant word of the cycle |
| ScqWords.ClearSafe | include/event_dispatcher/queue/detail/scalable_circular_index_queue.hpp:105 | entry & ~ring_size is the same word made unsafe |
| ScqWords.UnsafeBit | include/event_dispatcher/queue/detail/scalable_circular_index_queue.hpp:115 | (~entry) & ring_size is the ring size exactly for an unsafe word |
| ScqWords.CycleOrder | include/event_dispatcher/queue/detail/scalable_circular_index_queue.hpp:163-165 | The signed difference orders the cycle words as the cycles, while those are within half the range |
| ScqWords.TicketOrder | include/event_dispatcher/queue/detail/scalable_circular_index_queue.hpp:163-169 | The signed comparisons of wrapped tickets are the order of the tickets, while those are within half the word range |
| ScqWords.TicketCycleWord | include/event_dispatcher/queue/detail/scalable_circular_index_queue.hpp:57 | (ticket << 1) with the cycle mask is the cycle word of the ticket, however often tickets have wrapped |
| ScqWords.MapTicket | include/event_dispatcher/queue/detail/scalable_circular_index_queue.hpp:155 | The masked wrapped ticket is the slot of the ticket |
| ScqWords.CycleAndSlotDivide | include/event_dispatcher/queue/detail/scalable_circular_index_queue.hpp:155-157 | The cycle and slot of the model are the quotient and the remainder of the ticket by the ring size |
| ScqWords.TestWordRefines | include/event_dispatcher/queue/detail/scalable_circular_index_queue.hpp:62-70 | The reuse test of enqueue on packed words decides as the test on (cycle, safe, index) records does |
| ScqWords.JudgeWordRefines | include/event_dispatcher/queue/detail/scalable_circular_index_queue.hpp:97-123 | The inner loop of try_dequeue on packed words takes the same branch as on records, with the packed form of the same replacement |
| ScqWords.UnusedWord | include/event_dispatcher/queue/detail/scalable_circular_index_queue.hpp:171-175 | All ones is the vacant word of lap -1 |
| ScqWords.FullWord | include/event_dispatcher/queue/detail/scalable_circular_index_queue.hpp:181-185 | ring_size + index is the word of lap 0 that holds the index |
| ScqSequential.IndexRing.Empty | include/event_dispatcher/queue/detail/scalable_circular_index_queue.hpp:171-179 | The empty initialiser builds a valid ring whose contents are [] |
| ScqSequential.IndexRing.Full | include/event_dispatcher/queue/detail/scalable_circular_index_queue.hpp:181-192 | The full initialiser builds a valid ring whose contents are 0, 1, ..., n - 1 |
| ScqSequential.IndexRing.Enqueue | include/event_dispatcher/queue/detail/scalable_circular_index_queue.hpp:52-82 | On packed wrapping words, one call at a time, enqueue appends the index, after any number of spurious exchange failures; the threshold is 3n - 1 whenever the ring is not empty |
| ScqSequential.IndexRing.TryDequeue | include/event_dispatcher/queue/detail/scalable_circular_index_queue.hpp:84-137 | try_dequeue answers nullopt exactly when the ring is empty, and otherwise removes the oldest index; the threshold stays within [-1, 3n - 1] |
| ScqSequential.IndexRing.CatchUp | include/event_dispatcher/queue/detail/scalable_circular_index_queue.hpp:194-203 | Alone, catch_up ends with tail at head after any number of spurious failures |
| ScqSequential.IndexRing.SwapIn | include/event_dispatcher/queue/detail/scalable_circular_index_queue.hpp:61-80 | The exchange loop of enqueue writes exactly its own word |
| ScqSequential.IndexRing.Visit | include/event_dispatcher/queue/detail/scalable_circular_index_queue.hpp:93-123 | The inner loop of try_dequeue takes the index of the word if there is one and leaves the vacant word of the ticket's lap |
| ScqSequential.AppendShows | include/event_dispatcher/queue/detail/scalable_circular_index_queue.hpp:71-73 | Storing at the next tail ticket represents the contents with the index appended, in all 2n slots |
| ScqSequential.HeadShows | include/event_dispatcher/queue/detail/scalable_circular_index_queue.hpp:98-123 | Passing the head ticket represents the contents without the oldest index, in all 2n slots |
| LockFreeSafety.StepKeepsInv | include/event_dispatcher/queue/bounded_lock_free_queue.hpp:66-184 | Every step of producers, consumers and closers keeps conservation, the tallies, the ring contents, the threads' hands and the closing protocol |
| LockFreeSafety.RunKeepsInv | include/event_dispatcher/queue/bounded_lock_free_queue.hpp:36-184 | Every state of every run satisfies the invariant |
| LockFreeSafety.MovesConserve | include/event_dispatcher/queue/bounded_lock_free_queue.hpp:72-86 | Whatever moves an index between a ring and the hands of a thread keeps every index in exactly one place |
| LockFreeTheorems.IndexConservation | include/event_dispatcher/queue/bounded_lock_free_queue.hpp:66-134 | Every index is once in the available or the published ring, or in one thread's hands and no other's, rollback after a throwing constructor included; the rings together never hold more than n |
| LockFreeTheorems.LifetimesAreSafe | include/event_dispatcher/queue/bounded_lock_free_queue.hpp:77-133 | Events are constructed only in empty slots and moved or destroyed only in live ones; occupied_count_ neither underflows nor exceeds the capacity |
| LockFreeTheorems.AcceptedLeaveOnce | include/event_dispatcher/queue/bounded_lock_free_queue.hpp:119-133 | Accepted events are published, in one thread's hands, popped or discarded; pops and discards are of distinct events and final |
| LockFreeTheorems.PopsAreInOrder | include/event_dispatcher/queue/bounded_lock_free_queue.hpp:119-133 | A pop claims the oldest accepted event that nobody claimed; that event is what it moves out and what it answers |
| LockFreeTheorems.AnswersAreDistinct | include/event_dispatcher/queue/bounded_lock_free_queue.hpp:119-133 | Any two pops of a run that answer, at the same or at different moments, by one thread or by two, answer different accepted events |
| LockFreeTheorems.ClosedGateAdmitsNobody | include/event_dispatcher/queue/bounded_lock_free_queue.hpp:223-245 | A closed gate stays closed and its active count only falls; once the producer gate is closed with nobody in it, as after quiescence, nothing is accepted and the published ring only shrinks |
| LockFreeCalls.PushAnswersForItself | include/event_dispatcher/queue/bounded_lock_free_queue.hpp:269-298 | The answer of a push, over any interleaving: success exactly if the call itself has added its own event to the accepted ones, once, and otherwise nothing was added; closed whenever the gate was closed when the call began; and closed, full and thrown each for a reason in one of the call's own steps |
| LockFreeCalls.SuccessesAreAccepted | include/event_dispatcher/queue/bounded_lock_free_queue.hpp:269-298 | At any moment the accepted events are as many as the pushes that have answered success and the publishers that have not returned |
| LockFreeReturns.PopAnswersForItself | include/event_dispatcher/queue/bounded_lock_free_queue.hpp:113-134 | The answer of a pop, over any interleaving: an event is the one accepted event that the call itself has claimed; empty and closed have claimed nothing, empty not after quiescence, closed only after it, and inside the gate only after the ring has answered empty |
| LockFreeReturns.CloseAnswersForItself | include/event_dispatcher/queue/bounded_lock_free_queue.hpp:163-184 | When close or close_and_discard returns, over any interleaving, the queue is quiesced with no producer inside; a discard has shut the consumers out and answers how many events it destroyed itself; a plain close destroys nothing and leaves the consumers alone |
| LockFreeTheorems.GateReturnsAlone | include/event_dispatcher/queue/bounded_lock_free_queue.hpp:366-372 | close_gate returns only with nobody inside: no producer when quiescence is declared, no producer or consumer during a discard |
| LockFreeTheorems.DiscardBalances | include/event_dispatcher/queue/bounded_lock_free_queue.hpp:169-184 | When close_and_discard returns, accepted events are popped, discarded or still published, and indices are available or published; the first count balances without the published ones, and all n indices are back, if and only if nothing is left published; the answers of all discards so far add up to the discarded events |
| LockFreeTheorems.DiscardIsComplete | include/event_dispatcher/queue/bounded_lock_free_queue.hpp:169-184 | If at no moment more than 2n consumers were inside, nothing is left published when close_and_discard returns: accepted = popped + discarded, all n indices are available, and a repeat answers 0 |
| LockFreeTheorems.RepeatDiscardsNothing | include/event_dispatcher/queue/bounded_lock_free_queue.hpp:169-184 | If at no moment more than 2n consumers were inside, a discard after a finished one answers 0 and the balance is final |
| LockFreeClosed.TrustedAtTheCheck | include/event_dispatcher/queue/bounded_lock_free_queue.hpp:119-123 | A pop that has dequeued nothing and is about to look at the quiescence flag can be trusted, if it answers closed, to leave nothing published if and only if the producer gate is closed with nobody in it and nothing is published; otherwise this assumes room, an open gate nobody is inside, and one thread free to push and to close in between |
| LockFreeClosed.PopIsTrustedExactly | include/event_dispatcher/queue/bounded_lock_free_queue.hpp:113-134 | As long as never more than 2n consumers are inside, a closed answer of a pop that is about to start can be trusted to leave nothing that is not being discarded if and only if the producer gate is then closed with nobody in it, as it is once a close has returned; otherwise this assumes an open gate nobody is inside, a slot in nobody's hands and one other free thread |
| LockFreeClosed.ClosedAfterClose | include/event_dispatcher/queue/bounded_lock_free_queue.hpp:113-134 | If never more than 2n consumers were inside, a pop that starts after quiescence and answers closed leaves nothing published, unless a discard has shut the consumers out |
| LockFreeAlone.LonePushSucceeds | include/event_dispatcher/queue/bounded_lock_free_queue.hpp:269-298 | If never more than 2n producers were inside, every push that nobody disturbs, called with an open gate, nobody inside and a free slot, succeeds and has its event accepted last, unless its constructor throws, when nothing is accepted |
| LockFreeAlone.PushAlone | include/event_dispatcher/queue/bounded_lock_free_queue.hpp:269-298 | Where the gate is open with nobody inside and a slot is free, a push can run alone to success |
| LockFreeCrowded.CrowdedPushMisses | include/event_dispatcher/queue/bounded_lock_free_queue.hpp:269-298 | For every capacity a run with 3n producers after which all calls have returned and all n slots are free, and an undisturbed push into the open queue answers full |
| LockFreeAlone.CloseAlone | include/event_dispatcher/queue/bounded_lock_free_queue.hpp:359-372 | A close with nobody inside quiesces and changes nothing else |
| LockFreeClosed.ClosedWithAnEventLeft | include/event_dispatcher/queue/bounded_lock_free_queue.hpp:119-123 | A run of two threads in which a pop answers closed while an accepted event is still published |
| LockFreeCrowded.CrowdedPopMisses | include/event_dispatcher/queue/bounded_lock_free_queue.hpp:113-134 | For every capacity a run with 3n consumers after which all calls have returned and the queue is closed, and then a pop answers closed with an accepted event left |
| LockFreeCrowded.CrowdedDiscardMisses | include/event_dispatcher/queue/bounded_lock_free_queue.hpp:169-184 | For every capacity a run with 3n consumers in which close_and_discard returns, with all calls back, leaving an accepted event that is neither popped nor discarded |
| LockFreeSequential.LockFree.constructor | include/event_dispatcher/queue/bounded_lock_free_queue.hpp:36-38 | A new queue is the empty open bounded queue |
| LockFreeSequential.LockFree.TryPush | include/event_dispatcher/queue/bounded_lock_free_queue.hpp:269-298 | One call at a time over two packed rings, a push is the push of the bounded closable queue: closed, full, thrown (with the slot put back) or appended |
| LockFreeSequential.LockFree.TryPop | include/event_dispatcher/queue/bounded_lock_free_queue.hpp:113-134 | A pop is the pop of the bounded closable queue |
| LockFreeSequential.LockFree.CloseProducers | include/event_dispatcher/queue/bounded_lock_free_queue.hpp:359-372 | Closing keeps the events and refuses later pushes |
| LockFreeSequential.LockFree.CloseAndDiscard | include/event_dispatcher/queue/bounded_lock_free_queue.hpp:169-184 | Discarding answers the number of queued events, empties the queue and makes all n indices available |
| LockFreeSequential.PushStored | include/event_dispatcher/queue/bounded_lock_free_queue.hpp:72-87 | Filling a reserved slot and publishing it appends the event |
| LockFreeSequential.PopStored | include/event_dispatcher/queue/bounded_lock_free_queue.hpp:125-131 | Emptying the oldest published slot and releasing it removes the oldest event |
| LockFreeSequential.RotateStored | include/event_dispatcher/queue/bounded_lock_free_queue.hpp:79-83 | Putting a reserved slot back changes no event |
| LockFreeSequential.Apart | include/event_dispatcher/queue/bounded_lock_free_queue.hpp:388-389 | Available and published indices are disjoint, without repetition, and n in all |
| BoundedFifo.AcceptedLeaveInOrder | include/event_dispatcher/queue/bounded_mutex_queue.hpp:63-167 | Over any sequence of calls, what was accepted is what was popped, then what was discarded, then what is queued, and the discarded ones are counted |
| BoundedFifo.RepliesAreExact | include/event_dispatcher/queue/bounded_mutex_queue.hpp:44-167 | What every call answers follows from the calls and answers before it: a pop answers an event exactly if more pushes succeeded than events were popped and discarded, and otherwise closed exactly after a close; a push answers closed exactly after a close, otherwise full exactly at capacity, otherwise thrown or success; a discard counts what is left |
| BoundedFifo.ClosedAndEmptyIsFinal | include/event_dispatcher/queue/bounded_mutex_queue.hpp:116-118 | Closed and empty is permanent: every later push and pop answers closed |
| BoundedFifo.FailedPushLeavesNoTrace | include/event_dispatcher/queue/bounded_mutex_queue.hpp:44-60 | A push that is refused or throws, anywhere in a sequence of calls, changes neither the outcome nor what is accepted |
| BoundedFifo.CapacityHolds | include/event_dispatcher/queue/bounded_mutex_queue.hpp:185-198 | No sequence of calls exceeds the capacity |
| BoundedMutexQueue.MutexQueue.constructor | include/event_dispatcher/queue/bounded_mutex_queue.hpp:33-37 | A new circular array represents the empty open queue |
| BoundedMutexQueue.MutexQueue.PushLocked | include/event_dispatcher/queue/bounded_mutex_queue.hpp:240-247 | The slot at tail is free; writing it appends the event to what the array represents |
| BoundedMutexQueue.MutexQueue.PopLocked | include/event_dispatcher/queue/bounded_mutex_queue.hpp:249-261 | The slot at head holds the oldest event; emptying it removes that event |
| BoundedMutexQueue.MutexQueue.Increment | include/event_dispatcher/queue/bounded_mutex_queue.hpp:263-266 | Counting from the next position meets the slots in the same circular order as counting from the old one, one place on |
| BoundedMutexQueue.MutexQueue.TryPush | include/event_dispatcher/queue/bounded_mutex_queue.hpp:63-78 | try_push and try_emplace are the push of the bounded closable queue; refused or thrown, the array is unchanged |
| BoundedMutexQueue.MutexQueue.TryPop | include/event_dispatcher/queue/bounded_mutex_queue.hpp:107-114 | try_pop is the pop of the bounded closable queue |
| BoundedMutexQueue.MutexQueue.CloseQueue | include/event_dispatcher/queue/bounded_mutex_queue.hpp:139-146 | close keeps the queued events |
| BoundedMutexQueue.MutexQueue.DiscardAll | include/event_dispatcher/queue/bounded_mutex_queue.hpp:157-162 | The discard loop empties every slot and ends with head already at tail |
| BoundedMutexQueue.MutexQueue.CloseAndDiscard | include/event_dispatcher/queue/bounded_mutex_queue.hpp:151-167 | close_and_discard answers the number of queued events and leaves a closed, empty queue |
| MutexWakeups.StepServes | include/event_dispatcher/queue/bounded_mutex_queue.hpp:119-261 | Pushes, pops, parking, single and broadcast notifications, spurious wake-ups, stops and closes keep parked threads served |
| MutexWakeups.NoLostWakeup | include/event_dispatcher/queue/bounded_mutex_queue.hpp:119-146 | While a consumer is parked, pending notifications and woken consumers are at least the queue size; while a producer is parked in an open queue they are at least the free slots, up to wake-ups absorbed by throwing copies; after a close a broadcast is pending |
| MutexWakeups.QuietMeansStuckForAReason | include/event_dispatcher/queue/bounded_mutex_queue.hpp:200-261 | With nobody about to act, a parked consumer has nothing to pop, a parked producer has no room if no copy threw, and they are not parked together |
| MutexWakeups.ConcurrentCallsAreFifo | include/event_dispatcher/queue/bounded_mutex_queue.hpp:63-167 | Every interleaving, waiting calls included, is a sequence of calls of one bounded queue, so accepted events are popped, discarded or queued in order |
| MutexCalls.CallsAreTheSteps | include/event_dispatcher/queue/bounded_mutex_queue.hpp:44-261 | Over every interleaving the calls that have been answered are exactly the calls the threads made, with their own arguments and in order, but for waits at an open full or empty queue; their answers are those of the bounded queue |
| MutexCalls.WaitPopReturns | include/event_dispatcher/queue/bounded_mutex_queue.hpp:119-135 | A wait_pop comes back with an event or closed, as the answer of its last look at the queue, or stopped while the queue was open and empty; never with empty and never for nothing |
| MutexCalls.WaitPushReturns | include/event_dispatcher/queue/bounded_mutex_queue.hpp:200-238 | A wait_push comes back having pushed its own event, or closed or thrown, or stopped while the queue was open and full; never with full |
| MutexWakeups.ThrowingCopyAbsorbsWakeup | include/event_dispatcher/queue/bounded_mutex_queue.hpp:200-217 | A run in which a copy that throws in a woken producer leaves another producer parked at an empty open queue |
| SubscriberSafety.StepKeeps | include/event_dispatcher/subscription/subscriber_state.hpp:97-338 | Every step keeps the counts, the mailbox, the shapes of the threads' calls and the order of invocations, and undoes no stop or deactivation |
| SubscriberSafety.StepKeepsInv | include/event_dispatcher/subscription/subscriber_state.hpp:97-338 | Every step of every thread keeps the invariant |
| SubscriberSafety.RunKeepsInv | include/event_dispatcher/subscription/subscriber_state.hpp:37-338 | Every state of every run satisfies the invariant, under all three policies |
| SubscriberTheorems.UnsubscribeIsSynchronous | include/event_dispatcher/subscription/subscriber_state.hpp:145-174 | When an unsubscribe not made from the subscriber's own callback returns, no thread is in the callback, none ever is again, and the callback is never entered again |
| SubscriberTheorems.InFlightCountsAdmitted | include/event_dispatcher/subscription/subscriber_state.hpp:241-266 | in_flight_ is the number of admitted invocations, and after active_ falls it never rises |
| SubscriberTheorems.RetiresOnce | include/event_dispatcher/subscription/subscriber_state.hpp:152-165 | The retirement callback runs at most once, and has run once no unsubscribe is about to run it |
| SubscriberTheorems.MetricsBalance | include/event_dispatcher/subscription/subscriber_state.hpp:97-143 | offered = delivered + dropped + rejected + mailbox entries + deliveries in transit in every state, exact at rest, with throwing callbacks and copies, drain and discard; every callback entry is counted as delivered once; errors never exceed deliveries plus those still to be counted, and not deliveries at rest |
| SubscriberTheorems.MailboxIsFifo | include/event_dispatcher/subscription/subscriber_state.hpp:283-338 | The mailbox never exceeds its capacity; accepted entries are those taken, those cleared and those still there, in order, and the callback gets taken ones in order |
| SubscriberTheorems.DrainInvokesAll | include/event_dispatcher/subscription/subscriber_state.hpp:314-338 | When the executor has exited the mailbox is empty; if the subscription is active and the mailbox was never told to discard, the callback was given exactly the accepted sequence (SubscriberDrains.DrainsLoseNothing says so of the calls made) |
| SubscriberTheorems.CallbacksDoNotOverlap | include/event_dispatcher/subscription/subscriber_state.hpp:107-112 | Serialized and isolated callbacks never run in two threads at once; isolated ones only on the executor |
| SubscriberOffers.OfferAnswersForItself | include/event_dispatcher/subscription/subscriber_state.hpp:97-114 | What an offer comes to, over any interleaving and with any calls nested in the callback: in one of its steps it is decided whether it is delivered, rejected, dropped or put into the mailbox, each exactly for its reason, and its own steps add exactly that: one entry with its own event and one delivery, with one error exactly if the callback threw; or one rejection; or one drop; or its own event in the mailbox |
| SubscriberOffers.DirectOfferFollowsActivity | include/event_dispatcher/subscription/subscriber_state.hpp:97-114 | A direct subscriber still active when an offer returns has been called with it; one inactive when it began has refused it |
| SubscriberStops.StopAnswersForItself | include/event_dispatcher/subscription/subscriber_state.hpp:118-143 | stop_delivery(drain), over any interleaving: its critical section closes the mailbox for good, a discard clears it and counts every entry as dropped, a drain leaves the entries; nothing else is added; and unless called by the executor it returns only when the executor has exited |
| SubscriberStops.UnsubscribeAnswersForItself | include/event_dispatcher/subscription/subscriber_state.hpp:145-174 | unsubscribe, over any interleaving: it deactivates for good, retires if it is the first, discards the mailbox, and unless called from this subscriber's own callback returns with nothing in flight |
| SubscriberStops.UnsubscribeCallIsSynchronous | include/event_dispatcher/subscription/subscriber_state.hpp:145-174 | When an unsubscribe not called from the subscriber's own callback has returned, no thread is in the callback, ever, and the callback is never entered again |
| SubscriberDrains.DrainsLoseNothing | include/event_dispatcher/subscription/subscriber_state.hpp:118-143 | If every stop_delivery was called with drain and nobody unsubscribed, nothing is ever cleared, and when the executor has exited the callback was given exactly the accepted events in order |
| SubscriberDrains.DroppedExactly | include/event_dispatcher/subscription/subscriber_state.hpp:118-131 | Under the isolated policy the dropped counter is at any time exactly the offers dropped at a full mailbox, the entries cleared by stops, and the entries taken that an inactive subscription did not deliver |
| SubscriberStandoff.GetsThroughExactly | include/event_dispatcher/subscription/subscriber_state.hpp:136-142 | When the callback on the executor is about to take the join mutex, it has a way past it if and only if the mutex is free at that moment |
| SubscriberStandoff.AloneGetsThrough | include/event_dispatcher/subscription/subscriber_state.hpp:136-142 | If no other thread is inside stop_delivery or unsubscribe of the same subscriber, the callback's call gets through |
| SubscriberStandoff.StandoffIsPermanent | include/event_dispatcher/subscription/subscriber_state.hpp:136-142 | A thread joining the executor and the executor's callback waiting in stop_delivery for the join mutex never move again |
| SubscriberStandoff.StandoffIsReachable | include/event_dispatcher/subscription/subscriber_state.hpp:136-142 | A run that reaches that state: a callback unsubscribes itself while another thread stops delivery |
| SubscriberCalls.SubscriberState.TryInvoke | include/event_dispatcher/subscription/subscriber_state.hpp:97-114 | One offer at a time: exactly one of callback, mailbox, drop and rejection, each exactly for its reason, with an error exactly if the callback threw; the metrics stay balanced |
| SubscriberCalls.SubscriberState.EnqueueIsolated | include/event_dispatcher/subscription/subscriber_state.hpp:283-312 | Every offered event has exactly one of three fates, each only for its reason: appended within the capacity of an accepting mailbox, dropped because a lossy mailbox is full, or rejected because the mailbox has closed or the copy threw |
| SubscriberCalls.SubscriberState.ExecuteCallback | include/event_dispatcher/subscription/subscriber_state.hpp:250-281 | The callback is entered once with the event, and whether it throws or not the balance of the metrics is kept and the frame is given back |
| SubscriberCalls.SubscriberState.ExecutorLoop | include/event_dispatcher/subscription/subscriber_state.hpp:314-338 | The loop gives every mailbox entry to the callback in order, or drops all if inactive, and exits only when stopping |
| SubscriberCalls.SubscriberState.StopMailbox | include/event_dispatcher/subscription/subscriber_state.hpp:122-132 | The critical section of stop_delivery: a drain keeps the entries, a discard drops and counts them |
| SubscriberCalls.SubscriberState.StopDelivery | include/event_dispatcher/subscription/subscriber_state.hpp:118-143 | After stop_delivery the mailbox is closed and empty; a drain of an active subscription has invoked all of it, and otherwise all of it is dropped |
| SubscriberCalls.SubscriberState.Unsubscribe | include/event_dispatcher/subscription/subscriber_state.hpp:145-174 | From outside, unsubscribe retires once, drops what is in the mailbox and closes it, and afterwards every offered event is delivered, dropped or rejected |
| DispatcherSafety.StepKeepsInv | include/event_dispatcher/dispatcher.hpp:180-343 | Every step of publishers, workers and shutdown callers keeps the counters, the flow of events, the lifecycle and what each control point relies on |
| DispatcherSafety.RunKeepsInv | include/event_dispatcher/dispatcher.hpp:44-343 | Every state of every run satisfies the invariant |
| DispatcherSafety.LeaderIsAlone | include/event_dispatcher/dispatcher.hpp:185-204 | At most one caller carries out the shutdown |
| DispatcherTheorems.FirstPolicyWins | include/event_dispatcher/dispatcher.hpp:180-227 | The policy recorded by the first caller stays in force, the lifecycle never goes back, and a returned shutdown left the dispatcher stopped for good |
| DispatcherCalls.ShutdownKeepsItsPolicy | include/event_dispatcher/dispatcher.hpp:180-227 | The step that takes the lifecycle away from running is made by a caller of shutdown, and from then on the lifecycle is the stopping state of the policy that this caller passed, or stopped |
| DispatcherTheorems.EveryEventIsSomewhere | include/event_dispatcher/dispatcher.hpp:259-343 | At any time accepted events are broadcast, in a worker's batch, discarded or queued, and the counters say so up to counts in progress |
| DispatcherTheorems.ShutdownBalances | include/event_dispatcher/dispatcher.hpp:206-227 | After shutdown and once publishing calls have returned, accepted = broadcast + dropped, the queue is empty and all workers have exited; under drain nothing was dropped and every accepted event was taken in order |
| DispatcherCalls.DrainsDropNothing | include/event_dispatcher/dispatcher.hpp:206-211 | If every shutdown is called with drain nothing is ever discarded or counted as dropped |
| DispatcherCalls.DiscardsLeaveNothing | include/event_dispatcher/dispatcher.hpp:206-211 | If every shutdown is called with discard_pending nothing is ever left in the closed queue |
| DispatcherCalls.PublishAnswersForItself | include/event_dispatcher/dispatcher.hpp:329-343 | The answer of a publication, over any interleaving: success exactly if the call itself has put its own event into the queue, once, and counted it as accepted; closed and full exactly if it has counted one rejection; thrown if it has counted nothing; each failure for a reason in one of its own steps; closed if the dispatcher did not run when it began |
| DispatcherOrder.OffersFollowQueueOrder | include/event_dispatcher/dispatcher.hpp:259-303 | With one worker and fixed membership the offers are always a prefix of queue order by snapshot order, and all of it between batches |
| DispatcherOrder.BatchingPreservesMeaning | include/event_dispatcher/dispatcher.hpp:259-303 | After a drained shutdown the log of offers is the accepted events in order, each to all members in order |
| DispatcherOrder.BatchSizeDoesNotMatter | include/event_dispatcher/dispatcher.hpp:270-276 | Two runs with any batch sizes and any throwing callbacks but the same accepted events have the same log of offers |
| DispatcherRounds.RoundOffersItsBatch | include/event_dispatcher/dispatcher.hpp:259-303 | A round of a worker, among any number of workers and under changing membership: it takes a batch of the batch size, or fewer if the queue was then empty, and offers exactly that batch, event by event, to every member of the list last published at one moment of the round, in order, and counts every event |
| DispatcherRounds.ErrorsAreThrows | include/event_dispatcher/dispatcher.hpp:288-303 | Errors are counted exactly where a callback throws |
| DispatcherLoops.SharedState.TryPublish | include/event_dispatcher/dispatcher.hpp:329-343 | A publication is rejected when not running, else is a push, and is counted as accepted or rejected |
| DispatcherLoops.SharedState.TryPublishBatch | include/event_dispatcher/dispatcher.hpp:102-112 | A batch is accepted exactly as far as there is room, as an ordered prefix; the status is that of the first refused event |
| DispatcherLoops.SharedState.BroadcastBatch | include/event_dispatcher/dispatcher.hpp:288-303 | The nested loops make the offers event by event, member by member, and count exactly the throwing callbacks |
| DispatcherLoops.SharedState.FillBatch | include/event_dispatcher/dispatcher.hpp:267-276 | A batch is the next events of the queue in order, as many as there are up to the batch size |
| DispatcherLoops.SharedState.Run | include/event_dispatcher/dispatcher.hpp:259-286 | At a closed queue the worker offers every queued event to every member in queue order and returns, whatever the batch size |
| RegistrySafety.StepKeepsInv | include/event_dispatcher/registry/snapshot_registry.hpp:77-150 | Every step of subscribers, retirements and deactivations keeps the lists and the half-built copy sound |
| RegistrySafety.CurrentAgrees | include/event_dispatcher/registry/snapshot_registry.hpp:77-141 | In every reachable state the active entries of current are the published live subscriptions in creation order, with strictly increasing ids below the last one |
| RegistrySafety.TombstonesDisappear | include/event_dispatcher/registry/snapshot_registry.hpp:95-140 | Whoever was inactive when a successful write took the mutex is gone from the list it publishes, also after a retirement that failed to allocate |
| RegistryCalls.SubscribeTakesEffect | include/event_dispatcher/registry/snapshot_registry.hpp:77-110 | A subscription that returns has published itself under the next id at the end of a list of everybody still active, over any interleaving; a refused one has changed nothing, one short of memory has only used up its id |
| RegistryCalls.RetireTakesEffect | include/event_dispatcher/registry/snapshot_registry.hpp:119-141 | A retirement that finds its id and can allocate has published, when it returns, a list without it that keeps everybody else still active; otherwise it has changed nothing |
| RegistryCalls.InactiveIsDeactivated | include/event_dispatcher/registry/snapshot_registry.hpp:97-101 | Exactly those subscriptions are inactive that somebody has deactivated |
| RegistryLoops.SnapshotRegistry.AllocateId | include/event_dispatcher/registry/snapshot_registry.hpp:143-150 | No id is ever handed out twice, each is greater than all before it, and a refusal means that every id has been handed out |
| RegistryLoops.SnapshotRegistry.CopySurvivors | include/event_dispatcher/registry/snapshot_registry.hpp:97-136 | The copying loop keeps exactly the active entries but the removed one, in order |
| RegistryLoops.SnapshotRegistry.Subscribe | include/event_dispatcher/registry/snapshot_registry.hpp:77-110 | A subscription publishes a new list of the active entries and itself; the acquired old list is untouched; an exhausted registry changes nothing |
| RegistryLoops.SnapshotRegistry.Retire | include/event_dispatcher/registry/snapshot_registry.hpp:119-141 | A retirement publishes a new list without the entry and without tombstones, or changes nothing if the id is unknown or the allocation fails |
| RegistryLoops.SurvivorsAreActive | include/event_dispatcher/registry/snapshot_registry.hpp:97-101 | The survivors are exactly the active entries other than the removed one |
| RegistryLoops.SurvivorsAreOrdered | include/event_dispatcher/registry/snapshot_registry.hpp:97-101 | The survivors keep the order of strictly increasing ids |

## Left out

- Weak memory orderings, cache-line padding and the `is_lock_free` queries.
- Threshold-based empty answers of the concurrent ring (lines 85 and 132 of the ring) while other operations overlap: no claim that the ring was empty then.
- ScqAlone.ModerateDequeueIsExact: for at most 2n dequeuers inside at any moment; with 3n it is false (ScqStranding), and for numbers in between the exact bound, which depends on n, is not determined.
- LockFreeTheorems.DiscardIsComplete, LockFreeClosed.ClosedAfterClose, LockFreeAlone.LonePushSucceeds: for at most 2n threads inside, for the same reason.
- LockFreeClosed.PopIsTrustedExactly: before the producers are shut out it speaks of states in which somebody is free to push and close; whether threads that are already in the middle of their calls could still publish is not classified.
- The state machine of the queue has abstract rings whose operations are atomic; what it assumes of them is proved about the SCQ ring (ScqTheorems, ScqAlone), but the two machines are not composed step by step, and the ring is not shown to be linearizable (ScqTheorems.FirstInFirstOut is the order in real time).
- `try_dequeue(true)` and `enqueue(index, true)`: the concurrent ring models both and the safety theorems cover them; the theorems on thresholds and lone dequeues are about `false`, the only value the queue passes.
- Lock-freedom as a liveness property: only solo progress and the ticket budget are proved.
- Waiting in the lock-free queue: its epochs, `wait_push`, `wait_pop` and timed polling; closing notifies a single waiter there, and no claim is made about who wakes.
- The destructors of the queues, the subscriber and the registry.
- The overflow check of the gate's active count (`std::terminate` at 2^63 - 1 operations inside).
- MutexWakeups.NoLostWakeup: for producers up to wake-ups absorbed by copies that threw.
- Clocks: deadlines, `slow_callback_threshold` and the slow-callback counter.
- The boolean that `try_invoke` returns in the concurrent model: it is the fate of the offer (rejected or not), and SubscriberCalls answers it.
- `wait_push` and `wait_push_until` are one step kind whose expiry is a free choice; which of the two refusals is reported is not recorded.
- Event types that cannot be copied under the isolated policy, and the error handler: reporting an error changes nothing that is modelled.
- SubscriberCalls.SubscriberState.StopDelivery: the executor's remaining work is done inside the join, one call at a time.
- Calls between different subscribers: a thread's calls into one subscriber are modelled with arbitrary nesting in its own callback, other subscribers are not.
- In the dispatcher model the delivery to one subscriber is a single offer, `stop_delivery` on shutdown is not a step, and `shutdown` from a worker or a callback, which the code refuses, is not modelled.
- The dispatcher over the lock-free queue: drain accounting needs "closed means drained", which that queue gives only to pops that start after the close.
- Registry: building the new list is a step per entry, but finding the retired id and allocating the list are one step with taking the writer mutex; the reference counting of snapshots is a matter of values here.
- `active_count`, `stop_delivery` of the registry, configuration checks, worker pool, subscription handles, pop results: thin or easy members.
- Allocation and thread-creation failure other than a failed retirement, a failed subscription and a throwing event construction.
- 64-bit wrap-around of metrics.
- Examples, benchmarks and packaging.
