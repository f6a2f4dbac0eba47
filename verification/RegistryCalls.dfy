/** What the calls of the registry have done when they return, over every interleaving. */
module RegistryCalls {
  import opened Wrappers
  import opened Registry
  import opened RegistrySafety

  // ---------------------------------------------------------------- runs with their steps

  ghost predicate Steps(run: seq<State>, steps: seq<Step>, i: nat)
    requires |run| == |steps| + 1 && i < |steps|
  {
    Enabled(run[i], steps[i]) && run[i + 1] == Do(run[i], steps[i])
  }

  ghost predicate IsTrace(run: seq<State>, steps: seq<Step>) {
    && |run| == |steps| + 1 && Init(run[0])
    && forall i | 0 <= i < |steps| :: Steps(run, steps, i)
  }

  lemma TraceIsRun(run: seq<State>, steps: seq<Step>)
    requires IsTrace(run, steps)
    ensures IsRun(run)
  {
    forall i: nat | i + 1 < |run|
      ensures StepAt(run, i)
    {
      assert Steps(run, steps, i);
    }
  }

  /** Every run is the run of some steps. */
  lemma {:induction false} RunHasTrace(run: seq<State>) returns (steps: seq<Step>)
    requires IsRun(run)
    ensures IsTrace(run, steps)
    decreases |run|
  {
    if |run| == 1 {
      steps := [];
    } else {
      var front := run[..|run| - 1];
      forall i: nat | i + 1 < |front|
        ensures StepAt(front, i)
      {
        assert StepAt(run, i);
      }
      var before := RunHasTrace(front);
      assert StepAt(run, |run| - 2);
      var step :| Enabled(run[|run| - 2], step) && run[|run| - 1] == Do(run[|run| - 2], step);
      steps := before + [step];
      forall i | 0 <= i < |steps|
        ensures Steps(run, steps, i)
      {
        if i < |before| {
          assert Steps(front, before, i);
        }
      }
    }
  }

  lemma StepFacts(run: seq<State>, steps: seq<Step>, m: nat)
    requires IsTrace(run, steps) && m < |steps|
    ensures Inv(run[m]) && Inv(run[m + 1]) && Enabled(run[m], steps[m]) && run[m + 1] == Do(run[m], steps[m])
  {
    TraceIsRun(run, steps);
    RunKeepsInv(run, m);
    RunKeepsInv(run, m + 1);
    assert Steps(run, steps, m);
  }

  // ---------------------------------------------------------------- who is inactive

  /** Exactly those are inactive that somebody has deactivated. */
  lemma {:induction false} InactiveIsDeactivated(run: seq<State>, steps: seq<Step>, n: nat)
    requires IsTrace(run, steps) && n <= |steps|
    ensures forall id :: id in run[n].inactive <==> exists m :: 0 <= m < n && steps[m] == Deactivate(id)
  {
    if n > 0 {
      InactiveIsDeactivated(run, steps, n - 1);
      assert Steps(run, steps, n - 1);
      forall id
        ensures id in run[n].inactive <==> exists m :: 0 <= m < n && steps[m] == Deactivate(id)
      {
        if id in run[n].inactive && id !in run[n - 1].inactive {
          assert steps[n - 1] == Deactivate(id);
        }
      }
    }
  }

  // ---------------------------------------------------------------- a writer at work

  /** Thread t calls the registry in step i and is back at j. */
  ghost predicate Call(run: seq<State>, steps: seq<Step>, i: nat, j: nat, t: nat) {
    && IsTrace(run, steps) && i < j <= |steps|
    && (forall m | i <= m <= j :: t < |run[m].threads|)
    && run[i].threads[t].Idle?
    && (forall m | i < m < j :: run[m].threads[t].Copying?)
    && run[j].threads[t].Idle?
  }

  /** While a writer copies, nobody else changes what it copies from, and it keeps its task. */
  ghost predicate Works(first: State, s: State, t: nat, task: Task) {
    && t < |s.threads| && s.threads[t].Copying? && s.threads[t].task == task && s.threads[t].stale == first.inactive
    && s.current == first.current && s.published == first.published
  }

  lemma WorksOn(first: State, s: State, s': State, step: Step, t: nat, task: Task)
    requires Inv(s) && Enabled(s, step) && s' == Do(s, step) && Works(first, s, t, task)
    ensures t < |s'.threads|
    ensures s'.threads[t].Copying? ==> Works(first, s', t, task) && s'.nextId == s.nextId
    ensures s'.threads[t].Idle? ==> step == Advance(t) && s.threads[t].at >= |s.current| && s'.nextId == s.nextId
  {
    assert s.lock == Some(t);
  }

  lemma {:induction false} CallWorks(run: seq<State>, steps: seq<Step>, i: nat, m: nat, j: nat, t: nat, task: Task)
    requires Call(run, steps, i, j, t) && i < m < j && Works(run[i], run[i + 1], t, task)
    ensures Works(run[i], run[m], t, task) && run[m].nextId == run[i + 1].nextId
  {
    if m > i + 1 {
      CallWorks(run, steps, i, m - 1, j, t, task);
      WorksAt(run, steps, run[i], m - 1, t, task);
    }
  }

  lemma WorksAt(run: seq<State>, steps: seq<Step>, first: State, m: nat, t: nat, task: Task)
    requires IsTrace(run, steps) && m < |steps| && Works(first, run[m], t, task)
    ensures t < |run[m + 1].threads|
    ensures run[m + 1].threads[t].Copying? ==> Works(first, run[m + 1], t, task) && run[m + 1].nextId == run[m].nextId
    ensures run[m + 1].threads[t].Idle? ==>
              && steps[m] == Advance(t) && run[m].threads[t].at >= |run[m].current| && run[m + 1].nextId == run[m].nextId
  {
    StepFacts(run, steps, m);
    WorksOn(first, run[m], run[m + 1], steps[m], t, task);
  }

  lemma LastAt(run: seq<State>, steps: seq<Step>, first: State, m: nat, t: nat, task: Task)
    requires IsTrace(run, steps) && m < |steps| && Works(first, run[m], t, task) && first.inactive <= run[m].inactive
    requires steps[m] == Advance(t) && run[m].threads[t].at >= |run[m].current|
    requires (task.Remove? ==> task.id in first.inactive) && (task.Add? ==> task.id !in first.inactive)
    ensures Publishes(first, run[m + 1], task)
  {
    StepFacts(run, steps, m);
    LastStep(first, run[m], run[m + 1], t, task);
  }

  lemma {:induction false} InactiveGrows(run: seq<State>, steps: seq<Step>, i: nat, j: nat)
    requires IsTrace(run, steps) && i <= j <= |steps|
    ensures run[i].inactive <= run[j].inactive
  {
    if i < j {
      InactiveGrows(run, steps, i, j - 1);
      assert Steps(run, steps, j - 1);
    }
  }

  /** The list that a writer publishes: it keeps everybody who is still active but the one it removes,
      drops everybody who was inactive when it began, and adds its own. */
  ghost predicate Publishes(first: State, s: State, task: Task) {
    && (forall x | x in first.current && x !in s.inactive && (task.Remove? ==> x != task.id) :: x in s.current)
    && (forall x | x in s.current :: x !in first.inactive && (x in first.current || (task.Add? && x == task.id)))
    && (task.Remove? ==> task.id !in s.current && s.published == first.published)
    && (task.Add? ==> s.current != [] && s.current[|s.current| - 1] == task.id && s.published == first.published + [task.id])
  }

  lemma LastStep(first: State, s: State, s': State, t: nat, task: Task)
    requires Inv(s) && Works(first, s, t, task) && s.threads[t].at >= |s.current| && first.inactive <= s.inactive
    requires s' == Do(s, Advance(t)) && (task.Remove? ==> task.id in first.inactive) && (task.Add? ==> task.id !in first.inactive)
    ensures Publishes(first, s', task)
  {
    var l := s.threads[t];
    assert CopySound(s, l);
    assert s.current[..l.at] == s.current;
    if task.Remove? {
      assert s'.current == l.next;
    } else {
      assert s'.current == l.next + [task.id];
    }
  }

  lemma CallPublishes(run: seq<State>, steps: seq<Step>, i: nat, j: nat, t: nat, task: Task)
    requires Call(run, steps, i, j, t) && i + 1 < j && Works(run[i], run[i + 1], t, task)
    requires (task.Remove? ==> task.id in run[i].inactive) && (task.Add? ==> task.id !in run[i].inactive)
    ensures Publishes(run[i], run[j], task) && run[j].nextId == run[i + 1].nextId
  {
    CallWorks(run, steps, i, j - 1, j, t, task);
    WorksAt(run, steps, run[i], j - 1, t, task);
    InactiveGrows(run, steps, i, j - 1);
    LastAt(run, steps, run[i], j - 1, t, task);
  }

  // ---------------------------------------------------------------- subscribe and retire

  /** A subscription that is not refused and not short of memory has published itself when it returns,
      under the next id, at the end of a list that keeps everybody still active; one that is refused
      changes nothing, and one that is short of memory has only used up its id. */
  lemma SubscribeTakesEffect(run: seq<State>, steps: seq<Step>, i: nat, j: nat, t: nat, unlucky: bool)
    requires Call(run, steps, i, j, t) && steps[i] == Subscribe(t, unlucky)
    ensures var s, s' := run[i], run[j];
            if s.nextId == LAST_ID then s' == s
            else if unlucky then s' == s.(nextId := s.nextId + 1)
            else s'.nextId == s.nextId + 1 && s.nextId !in s.published && Publishes(s, s', Add(s.nextId))
  {
    StepFacts(run, steps, i);
    var s := run[i];
    if s.nextId != LAST_ID && !unlucky {
      assert s.nextId !in s.inactive;
      CallPublishes(run, steps, i, j, t, Add(s.nextId));
    }
  }

  /** A retirement that finds the id and can allocate has published a list without it when it returns,
      which keeps everybody else still active; otherwise it changes nothing. */
  lemma RetireTakesEffect(run: seq<State>, steps: seq<Step>, i: nat, j: nat, t: nat, id: Id, unlucky: bool)
    requires Call(run, steps, i, j, t) && steps[i] == Retire(t, id, unlucky)
    ensures if unlucky || id !in run[i].current then run[j] == run[i] else Publishes(run[i], run[j], Remove(id))
    ensures !unlucky ==> id !in run[j].current
  {
    StepFacts(run, steps, i);
    if id in run[i].current && !unlucky {
      CallPublishes(run, steps, i, j, t, Remove(id));
    }
  }
}
