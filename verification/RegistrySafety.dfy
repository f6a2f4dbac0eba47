/** The registry agrees with the set of live subscriptions, over every interleaving. */
module RegistrySafety {
  import opened Wrappers
  import opened Registry

  predicate Increasing(ids: seq<Id>) {
    forall i, j | 0 <= i < j < |ids| :: ids[i] < ids[j]
  }

  /** The active ones, in order. */
  function Live(ids: seq<Id>, inactive: set<Id>): seq<Id> {
    if ids == [] then []
    else (if ids[0] in inactive then [] else [ids[0]]) + Live(ids[1..], inactive)
  }

  // ---------------------------------------------------------------- the invariant

  ghost predicate ListsSound(s: State) {
    && Increasing(s.current) && Increasing(s.published)
    && (forall x | x in s.published :: x < s.nextId)
    && (forall x | x in s.current :: x in s.published)
    && (forall x | x in s.published && x !in s.inactive :: x in s.current)
    && (forall x | x in s.inactive :: x in s.published)
    && 0 < s.nextId <= LAST_ID
  }

  /** A half-built list: the kept part of what has been scanned. */
  ghost predicate CopySound(s: State, l: Local) {
    l.Copying? ==>
      && l.at <= |s.current|
      && Increasing(l.next)
      && (forall x | x in l.next :: x in s.current[..l.at] && x !in l.stale)
      && (forall x | x in s.current[..l.at] && Kept(s, l.task, x) :: x in l.next)
      && l.stale <= s.inactive
      && (l.task.Add? ==> l.task.id < s.nextId && forall x | x in s.published :: x < l.task.id)
      && (l.task.Remove? ==> l.task.id in l.stale)
  }

  ghost predicate Inv(s: State) {
    && ListsSound(s)
    && (forall t | 0 <= t < |s.threads| :: s.threads[t].Copying? <==> s.lock == Some(t))
    && (forall t | 0 <= t < |s.threads| :: CopySound(s, s.threads[t]))
  }

  // ---------------------------------------------------------------- one step

  lemma ScanOne(current: seq<Id>, at: nat)
    requires at < |current| && Increasing(current)
    ensures forall x :: x in current[..at + 1] <==> x in current[..at] || x == current[at]
    ensures forall x | x in current[..at] :: x < current[at]
  {
    assert current[..at + 1] == current[..at] + [current[at]];
  }

  lemma AppendIncreasing(ids: seq<Id>, id: Id)
    requires Increasing(ids) && forall x | x in ids :: x < id
    ensures Increasing(ids + [id])
  {
    assert forall i | 0 <= i < |ids| :: ids[i] in ids;
  }

  lemma CopyStep(s: State, s': State, t: nat, task: Task, at: nat, next: seq<Id>, stale: set<Id>)
    requires ListsSound(s) && t < |s.threads| && s.threads[t] == Copying(task, at, next, stale) && CopySound(s, s.threads[t])
    requires at < |s.current| && s' == DoCopy(s, t, task, at, next, stale)
    ensures ListsSound(s') && CopySound(s', s'.threads[t])
  {
    var id := s.current[at];
    ScanOne(s.current, at);
    AppendIncreasing(next, id);
    var next' := s'.threads[t].next;
    assert forall x :: x in next' <==> x in next || (x == id && Kept(s, task, id));
  }

  lemma PublishStep(s: State, s': State, t: nat, task: Task, at: nat, next: seq<Id>, stale: set<Id>)
    requires ListsSound(s) && t < |s.threads| && s.threads[t] == Copying(task, at, next, stale) && CopySound(s, s.threads[t])
    requires at >= |s.current| && s' == DoCopy(s, t, task, at, next, stale)
    ensures ListsSound(s')
    ensures forall x | x in stale :: x !in s'.current
  {
    assert s.current[..at] == s.current;
    assert forall x | x in next :: x in s.published;
    if task.Add? {
      AppendIncreasing(next, task.id);
      AppendIncreasing(s.published, task.id);
      assert forall x :: x in s'.current <==> x in next || x == task.id;
      assert forall x :: x in s'.published <==> x in s.published || x == task.id;
    }
    forall x | x in s'.published && x !in s'.inactive
      ensures x in s'.current
    {
      assert x in s.published ==> Kept(s, task, x);
    }
  }

  lemma StartStep(s: State, s': State, t: nat, task: Task)
    requires ListsSound(s) && t < |s.threads| && s' == StartCopy(s, t, task)
    requires task.Add? ==> task.id < s.nextId && forall x | x in s.published :: x < task.id
    requires task.Remove? ==> task.id in s.inactive
    ensures ListsSound(s') && CopySound(s', s'.threads[t])
  {
  }

  lemma DeactivateStep(s: State, s': State, id: Id, l: Local)
    requires ListsSound(s) && id in s.published && s' == s.(inactive := s.inactive + {id})
    requires CopySound(s, l)
    ensures ListsSound(s') && CopySound(s', l)
  {
  }

  lemma StepKeepsInv(s: State, s': State, step: Step)
    requires Inv(s) && Enabled(s, step) && s' == Do(s, step)
    ensures Inv(s')
  {
    match step
    case Subscribe(t, unlucky) =>
      if s.nextId != LAST_ID && !unlucky {
        StartStep(s.(nextId := s.nextId + 1), s', t, Add(s.nextId));
      }
    case Deactivate(id) =>
      DeactivateStep(s, s', id, Idle);
      forall t | 0 <= t < |s.threads|
        ensures CopySound(s', s'.threads[t])
      {
        DeactivateStep(s, s', id, s.threads[t]);
      }
    case Retire(t, id, unlucky) =>
      if id in s.current && !unlucky {
        StartStep(s, s', t, Remove(id));
      }
    case Advance(t) =>
      var l := s.threads[t];
      if l.at < |s.current| {
        CopyStep(s, s', t, l.task, l.at, l.next, l.stale);
      } else {
        PublishStep(s, s', t, l.task, l.at, l.next, l.stale);
      }
  }

  lemma StepAtKeepsInv(run: seq<State>, i: nat)
    requires IsRun(run) && 0 < i < |run| && Inv(run[i - 1])
    ensures Inv(run[i])
  {
    assert StepAt(run, i - 1);
    var step :| Enabled(run[i - 1], step) && run[i] == Do(run[i - 1], step);
    StepKeepsInv(run[i - 1], run[i], step);
  }

  lemma {:induction false} RunKeepsInv(run: seq<State>, i: nat)
    requires IsRun(run) && i < |run|
    ensures Inv(run[i])
  {
    if i == 0 {
    } else {
      RunKeepsInv(run, i - 1);
      StepAtKeepsInv(run, i);
    }
  }

  // ---------------------------------------------------------------- the theorems

  lemma FirstIsLeast(ids: seq<Id>)
    requires Increasing(ids) && ids != []
    ensures Increasing(ids[1..])
    ensures forall x | x in ids[1..] :: ids[0] < x
    ensures forall x :: x in ids <==> x == ids[0] || x in ids[1..]
  {
    assert ids == [ids[0]] + ids[1..];
  }

  lemma {:induction false} LiveMembers(ids: seq<Id>, inactive: set<Id>)
    requires Increasing(ids)
    ensures forall x :: x in Live(ids, inactive) <==> x in ids && x !in inactive
    ensures Increasing(Live(ids, inactive))
  {
    if ids == [] {
    } else {
      FirstIsLeast(ids);
      LiveMembers(ids[1..], inactive);
      PrependIncreasing(ids[0], Live(ids[1..], inactive));
    }
  }

  lemma PrependIncreasing(id: Id, ids: seq<Id>)
    requires Increasing(ids)
    ensures (forall x | x in ids :: id < x) ==> Increasing([id] + ids)
  {
    assert forall i | 0 <= i < |ids| :: ids[i] in ids;
  }

  lemma {:induction false} SameIncreasing(a: seq<Id>, b: seq<Id>)
    requires Increasing(a) && Increasing(b) && forall x :: x in a <==> x in b
    ensures a == b
  {
    assert a != [] ==> a[0] in b;
    assert b != [] ==> b[0] in a;
    if a != [] && b != [] {
      FirstIsLeast(a);
      FirstIsLeast(b);
      SameIncreasing(a[1..], b[1..]);
      assert a == [a[0]] + a[1..] && b == [b[0]] + b[1..];
    }
  }

  /** The active entries of the current list are exactly the published live subscriptions, in the
      order of their creation, with strictly increasing ids. */
  lemma CurrentAgrees(run: seq<State>, i: nat)
    requires IsRun(run) && i < |run|
    ensures Live(run[i].current, run[i].inactive) == Live(run[i].published, run[i].inactive)
    ensures Increasing(run[i].current) && Increasing(run[i].published)
    ensures forall x | x in run[i].published :: x < LAST_ID
  {
    RunKeepsInv(run, i);
    var s := run[i];
    LiveMembers(s.current, s.inactive);
    LiveMembers(s.published, s.inactive);
    SameIncreasing(Live(s.current, s.inactive), Live(s.published, s.inactive));
  }

  /** Whoever was inactive when a successful write began is gone from the list that it publishes:
      also one that an earlier retirement could not remove. */
  lemma TombstonesDisappear(run: seq<State>, i: nat, t: nat)
    requires IsRun(run) && i + 1 < |run| && t < |run[i].threads| && run[i].threads[t].Copying?
    requires t < |run[i + 1].threads| && run[i + 1].threads[t].Idle?
    ensures forall x | x in run[i].threads[t].stale :: x !in run[i + 1].current
    ensures run[i].threads[t].task.Remove? ==> run[i].threads[t].task.id !in run[i + 1].current
    ensures run[i].threads[t].task.Add? ==> run[i].threads[t].task.id in run[i + 1].current
  {
    RunKeepsInv(run, i);
    assert StepAt(run, i);
    FinishesItsCopy(run[i], run[i + 1], t);
  }

  lemma FinishesItsCopy(s: State, s': State, t: nat)
    requires Inv(s) && Next(s, s') && t < |s.threads| && t < |s'.threads| && s.threads[t].Copying? && s'.threads[t].Idle?
    ensures forall x | x in s.threads[t].stale :: x !in s'.current
    ensures s.threads[t].task.Remove? ==> s.threads[t].task.id in s.threads[t].stale
    ensures s.threads[t].task.Add? ==> s.threads[t].task.id in s'.current
  {
    var step :| Enabled(s, step) && s' == Do(s, step);
    var l := s.threads[t];
    assert step == Advance(t);
    PublishStep(s, s', t, l.task, l.at, l.next, l.stale);
    assert CopySound(s, l);
  }
}
