/** The writing operations of the registry as one writer runs them, with nobody deactivating in
    between: each builds a new array and publishes it; a published array is never written. */
module RegistryLoops {
  import opened Wrappers
  import opened Registry

  class Entry {
    const id: Id
    var active: bool

    constructor (id: Id)
      ensures this.id == id && active
    {
      this.id := id;
      active := true;
    }
  }

  predicate IdsIncrease(entries: seq<Entry>) {
    forall i, j | 0 <= i < j < |entries| :: entries[i].id < entries[j].id
  }

  /** The entries that a writer keeps: the active ones, without the one it removes. */
  ghost function Survivors(entries: seq<Entry>, removed: Option<Id>): (kept: seq<Entry>)
    reads entries
  {
    if entries == [] then []
    else
      var last := entries[|entries| - 1];
      Survivors(entries[..|entries| - 1], removed) + (if last.active && removed != Some(last.id) then [last] else [])
  }

  /** Survivors are the active entries of the list but the removed one, in its order. */
  lemma {:induction false} SurvivorsAreActive(entries: seq<Entry>, removed: Option<Id>)
    ensures forall e | e in Survivors(entries, removed) :: e in entries && e.active && removed != Some(e.id)
    ensures forall e | e in entries && e.active && removed != Some(e.id) :: e in Survivors(entries, removed)
  {
    if entries == [] {
    } else {
      var front, last := entries[..|entries| - 1], entries[|entries| - 1];
      SurvivorsAreActive(front, removed);
      assert entries == front + [last];
      assert forall e :: e in entries <==> e in front || e == last;
    }
  }

  lemma AppendEntry(entries: seq<Entry>, last: Entry)
    requires IdsIncrease(entries) && forall e | e in entries :: e.id < last.id
    ensures IdsIncrease(entries + [last])
  {
    assert forall i | 0 <= i < |entries| :: entries[i] in entries;
  }

  lemma {:induction false} SurvivorsAreOrdered(entries: seq<Entry>, removed: Option<Id>)
    requires IdsIncrease(entries)
    ensures IdsIncrease(Survivors(entries, removed))
  {
    if entries == [] {
    } else {
      var front, last := entries[..|entries| - 1], entries[|entries| - 1];
      SurvivorsAreOrdered(front, removed);
      SurvivorsAreActive(front, removed);
      forall e | e in Survivors(front, removed)
        ensures e.id < last.id
      {
        assert e in front;
      }
      AppendEntry(Survivors(front, removed), last);
    }
  }

  /** A new entry fits behind the survivors. */
  lemma NewEntryFits(entries: seq<Entry>, bound: Id)
    requires IdsIncrease(entries) && forall i | 0 <= i < |entries| :: entries[i].id < bound
    ensures IdsIncrease(Survivors(entries, None))
    ensures forall e | e in Survivors(entries, None) :: e.id < bound
  {
    SurvivorsAreOrdered(entries, None);
    SurvivorsAreActive(entries, None);
    forall e | e in Survivors(entries, None)
      ensures e.id < bound
    {
      assert e in entries;
    }
  }

  /** The id that joins all those below the next is the next. */
  lemma NextIsDrawn(issued: set<Id>, next: Id, id: Id, issued': set<Id>, next': Id)
    requires forall x :: x in issued <==> 0 < x < next
    requires forall x :: x in issued' <==> 0 < x < next'
    requires 0 < next && id !in issued && issued' == issued + {id}
    ensures id == next && next' == next + 1
  {
    assert id in issued' && id > 0;
    assert next in issued' ==> next == id;
    assert id < next';
    assert id - 1 in issued' || id == 1;
    assert next' - 1 in issued';
  }

  class SnapshotRegistry {
    var current: array<Entry>
    var nextId: Id

    /** The ids that have been handed out. */
    ghost var issued: set<Id>

    /** They are exactly the positive ones below the next. */
    ghost predicate Numbered()
      reads this
    {
      0 < nextId <= LAST_ID && forall x :: x in issued <==> 0 < x < nextId
    }

    ghost predicate Valid()
      reads this, current
    {
      && Numbered()
      && IdsIncrease(current[..])
      && (forall i | 0 <= i < current.Length :: current[i].id < nextId)
    }

    constructor ()
      ensures Valid() && fresh(current) && current[..] == []
    {
      current := new Entry[0];
      nextId, issued := 1, {};
    }

    /** A registry hands out no id twice: each is greater than all before it, and it refuses only when
        there is none left. */
    method AllocateId() returns (id: Option<Id>)
      requires Numbered()
      modifies this`nextId, this`issued
      ensures Numbered()
      ensures id.Some? ==> id.value !in old(issued) && (forall x | x in old(issued) :: x < id.value) && issued == old(issued) + {id.value}
      ensures id.None? ==> issued == old(issued) && nextId == old(nextId) && forall x | 0 < x < LAST_ID :: x in issued
    {
      if nextId == LAST_ID {
        return None;
      }
      id := Some(nextId);
      issued := issued + {nextId};
      nextId := nextId + 1;
    }

    /** So ids are handed out in order, up to the last. */
    method DrawId() returns (id: Option<Id>)
      requires Numbered()
      modifies this`nextId, this`issued
      ensures Numbered()
      ensures id == if old(nextId) == LAST_ID then None else Some(old(nextId))
      ensures nextId == if id.None? then old(nextId) else old(nextId) + 1
    {
      ghost var all, upcoming := issued, nextId;
      id := AllocateId();
      if id.None? {
        assert upcoming !in all;
      } else {
        NextIsDrawn(all, upcoming, id.value, issued, nextId);
      }
    }

    /** The loop that both writers share. */
    method CopySurvivors(previous: array<Entry>, removed: Option<Id>) returns (next: seq<Entry>)
      ensures next == Survivors(previous[..], removed)
    {
      next := [];
      for i := 0 to previous.Length
        invariant next == Survivors(previous[..i], removed)
      {
        assert previous[..i + 1][..i] == previous[..i];
        var entry := previous[i];
        if entry.active && removed != Some(entry.id) {
          next := next + [entry];
        }
      }
      assert previous[..previous.Length] == previous[..];
    }

    /** Publishes a list that has been built. */
    method Publish(next: seq<Entry>)
      modifies this`current
      ensures fresh(current) && current[..] == next
    {
      current := new Entry[|next|](i requires 0 <= i < |next| => next[i]);
    }

    method Subscribe() returns (entry: Option<Entry>)
      requires Valid()
      modifies this
      ensures Valid()
      ensures old(nextId) == LAST_ID ==> entry == None && current == old(current) && nextId == old(nextId)
      ensures old(nextId) < LAST_ID ==>
                && entry.Some? && fresh(entry.value) && entry.value.id == old(nextId) && entry.value.active
                && fresh(current) && current[..] == old(Survivors(current[..], None)) + [entry.value]
                && nextId == old(nextId) + 1
      ensures old(current)[..] == old(current[..])
    {
      NewEntryFits(current[..], nextId);
      var id := DrawId();
      if id.None? {
        return None;
      }
      var state := new Entry(id.value);
      var next := CopySurvivors(current, None);
      AppendEntry(next, state);
      Publish(next + [state]);
      return Some(state);
    }

    /** `found`: the id is in the list; otherwise, or if the new list cannot be allocated, nothing changes. */
    method Retire(id: Id, allocationFails: bool) returns (found: bool)
      requires Valid()
      modifies this`current
      ensures Valid()
      ensures found <==> exists i :: 0 <= i < old(current).Length && old(current)[i].id == id
      ensures !found || allocationFails ==> current == old(current)
      ensures found && !allocationFails ==> fresh(current) && current[..] == old(Survivors(current[..], Some(id)))
      ensures old(current)[..] == old(current[..])
    {
      found := false;
      for i := 0 to current.Length
        invariant found <==> exists j :: 0 <= j < i && current[j].id == id
      {
        if current[i].id == id {
          found := true;
        }
      }
      if !found || allocationFails {
        return;
      }
      var next := CopySurvivors(current, Some(id));
      SurvivorsAreOrdered(current[..], Some(id));
      SurvivorsAreActive(current[..], Some(id));
      Publish(next);
    }
  }
}
