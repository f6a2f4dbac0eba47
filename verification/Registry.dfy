/** The copy-on-write subscriber registry under concurrency.  A writer holds the writer mutex and
    builds the next list entry by entry, while subscriptions are deactivated at any moment; readers
    load the current list, which is a value and never changes. */
module Registry {
  import opened Wrappers

  type Id = nat

  const LAST_ID: nat := 0xFFFF_FFFF_FFFF_FFFF

  datatype Task = Add(id: Id) | Remove(id: Id)

  /** `stale` records who was inactive when the writer took the mutex. */
  datatype Local =
    | Idle
    | Copying(task: Task, at: nat, next: seq<Id>, stale: set<Id>)

  /** `published` is the history: every subscription in the order of its publication. */
  datatype State = State(
    current: seq<Id>,
    nextId: nat,
    inactive: set<Id>,
    lock: Option<nat>,
    threads: seq<Local>,
    published: seq<Id>)

  datatype Step =
    /** `unlucky`: an allocation fails after the id has been drawn. */
    | Subscribe(thread: nat, unlucky: bool)
    | Deactivate(id: Id)
    /** `unlucky`: the new list cannot be numbered. */
    | Retire(thread: nat, id: Id, unlucky: bool)
    | Advance(thread: nat)

  predicate Init(s: State) {
    && s.current == [] && s.nextId == 1 && s.inactive == {} && s.lock == None && s.published == []
    && forall t | 0 <= t < |s.threads| :: s.threads[t] == Idle
  }

  predicate Enabled(s: State, step: Step) {
    match step
    case Subscribe(t, _) => t < |s.threads| && s.threads[t].Idle? && s.lock == None
    // A handle exists once the subscription is published.
    case Deactivate(id) => id in s.published
    case Retire(t, id, _) => t < |s.threads| && s.threads[t].Idle? && s.lock == None && id in s.inactive
    case Advance(t) => t < |s.threads| && s.threads[t].Copying?
  }

  function StartCopy(s: State, t: nat, task: Task): State
    requires t < |s.threads|
  {
    s.(lock := Some(t), threads := s.threads[t := Copying(task, 0, [], s.inactive)])
  }

  /** `allocate_id` throws instead of wrapping around. */
  function DoSubscribe(s: State, t: nat, unlucky: bool): State
    requires t < |s.threads|
  {
    if s.nextId == LAST_ID then s
    else
      var numbered := s.(nextId := s.nextId + 1);
      if unlucky then numbered else StartCopy(numbered, t, Add(s.nextId))
  }

  function DoRetire(s: State, t: nat, id: Id, unlucky: bool): State
    requires t < |s.threads|
  {
    if id !in s.current || unlucky then s else StartCopy(s, t, Remove(id))
  }

  predicate Kept(s: State, task: Task, id: Id) {
    id !in s.inactive && (task.Remove? ==> id != task.id)
  }

  function DoCopy(s: State, t: nat, task: Task, at: nat, next: seq<Id>, stale: set<Id>): State
    requires t < |s.threads|
  {
    if at < |s.current| then
      var id := s.current[at];
      s.(threads := s.threads[t := Copying(task, at + 1, if Kept(s, task, id) then next + [id] else next, stale)])
    else if task.Add? then
      s.(current := next + [task.id], published := s.published + [task.id], lock := None, threads := s.threads[t := Idle])
    else
      s.(current := next, lock := None, threads := s.threads[t := Idle])
  }

  function Do(s: State, step: Step): State
    requires Enabled(s, step)
  {
    match step
    case Subscribe(t, unlucky) => DoSubscribe(s, t, unlucky)
    case Deactivate(id) => s.(inactive := s.inactive + {id})
    case Retire(t, id, unlucky) => DoRetire(s, t, id, unlucky)
    case Advance(t) =>
      var l := s.threads[t];
      DoCopy(s, t, l.task, l.at, l.next, l.stale)
  }

  ghost predicate Next(s: State, s': State) {
    exists step :: Enabled(s, step) && s' == Do(s, step)
  }

  ghost predicate StepAt(run: seq<State>, i: nat)
    requires i + 1 < |run|
  {
    Next(run[i], run[i + 1])
  }

  ghost predicate IsRun(run: seq<State>) {
    && run != []
    && Init(run[0])
    && forall i: nat | i + 1 < |run| :: StepAt(run, i)
  }
}
