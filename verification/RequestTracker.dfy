/**
 The request tracker: wrapping u32 ids and the table of pending one-shot senders.  A sender is named by
 the call that registered it.
 */
module RequestTracker {
  import opened Wrappers

  const U32 := 0x1_0000_0000

  /** How a sender left the table. */
  datatype Fate<P> = Delivered(payload: P) | Cleared | Removed | Overwritten

  /** The tracker as a value: all `fetch_add`s so far, the table, and the fate of every former entry. */
  datatype Table<P> = Table(allocations: nat, pending: map<nat, nat>, fates: map<nat, Fate<P>>)

  /** The id computed by the `fetch_add` that follows `index` others. */
  function IdAt(index: nat): (id: nat)
    ensures id < U32
  {
    (index % U32 + 1) % U32
  }

  function AfterInsert<P>(t: Table<P>, id: nat, call: nat): Table<P> {
    t.(pending := t.pending[id := call],
       fates := if id in t.pending then t.fates[t.pending[id] := Overwritten] else t.fates)
  }

  function AfterResolve<P>(t: Table<P>, id: nat, payload: P): Table<P> {
    if id in t.pending
    then t.(pending := t.pending - {id}, fates := t.fates[t.pending[id] := Delivered(payload)])
    else t
  }

  function AfterRemove<P>(t: Table<P>, id: nat): Table<P> {
    if id in t.pending
    then t.(pending := t.pending - {id}, fates := t.fates[t.pending[id] := Removed])
    else t
  }

  function AfterClear<P>(t: Table<P>): Table<P> {
    t.(pending := map[], fates := t.fates + map call | call in t.pending.Values :: Cleared)
  }

  /** Each call has at most one sender, which is either in the table or has met one fate. */
  ghost predicate Sound<P>(t: Table<P>) {
    && (forall i, j :: i in t.pending && j in t.pending && t.pending[i] == t.pending[j] ==> i == j)
    && (forall i :: i in t.pending ==> t.pending[i] !in t.fates)
  }

  /** The calls that have ever registered. */
  function Registered<P>(t: Table<P>): set<nat> {
    t.pending.Values + t.fates.Keys
  }

  /** No operation loses, duplicates or re-fires a sender: the registered calls stay the disjoint union
      of those in the table and those with a fate, and a fate once met never changes. */
  ghost predicate Conserves<P>(t: Table<P>, u: Table<P>) {
    && Sound(u)
    && Registered(u) == Registered(t)
    && (forall c :: c in t.fates ==> c in u.fates && u.fates[c] == t.fates[c])
  }

  lemma ResolveConserves<P>(t: Table<P>, id: nat, payload: P)
    requires Sound(t)
    ensures Conserves(t, AfterResolve(t, id, payload))
    ensures id in t.pending ==> AfterResolve(t, id, payload).fates == t.fates[t.pending[id] := Delivered(payload)]
  {
    if id in t.pending {
      var u := AfterResolve(t, id, payload);
      assert t.pending[id] in t.pending.Values;
      forall c | c in t.pending.Values && c != t.pending[id]
        ensures c in u.pending.Values
      {
        var i :| i in t.pending && t.pending[i] == c;
        assert i in u.pending && u.pending[i] == c;
      }
    }
  }

  lemma RemoveConserves<P>(t: Table<P>, id: nat)
    requires Sound(t)
    ensures Conserves(t, AfterRemove(t, id))
  {
    if id in t.pending {
      var u := AfterRemove(t, id);
      assert t.pending[id] in t.pending.Values;
      forall c | c in t.pending.Values && c != t.pending[id]
        ensures c in u.pending.Values
      {
        var i :| i in t.pending && t.pending[i] == c;
        assert i in u.pending && u.pending[i] == c;
      }
    }
  }

  lemma ClearConserves<P>(t: Table<P>)
    requires Sound(t)
    ensures Conserves(t, AfterClear(t)) && AfterClear(t).pending == map[]
  {
    forall c | c in t.fates
      ensures c !in t.pending.Values
    {
      assert forall i :: i in t.pending ==> t.pending[i] != c;
    }
  }

  lemma InsertAdds<P>(t: Table<P>, id: nat, call: nat)
    requires Sound(t) && call !in Registered(t)
    ensures
      var u := AfterInsert(t, id, call);
      && Sound(u) && Registered(u) == Registered(t) + {call}
      && (forall c :: c in t.fates ==> c in u.fates && u.fates[c] == t.fates[c])
  {
    var u := AfterInsert(t, id, call);
    assert id in u.pending && u.pending[id] == call;
    forall c | c in t.pending.Values
      ensures c in Registered(u)
    {
      var i :| i in t.pending && t.pending[i] == c;
      assert i == id || (i in u.pending && u.pending[i] == c);
    }
    forall i | i in t.pending
      ensures t.pending[i] != call
    {
      assert t.pending[i] in t.pending.Values;
    }
  }

  // ── The object ───────────────────────────────────────────────

  /** `RequestTracker`: each method is one atomic step of the machine in `Correlation`, except
      `Register`, which is an uninterrupted registration. */
  class Tracker<P> {
    var counter: nat
    var pending: map<nat, nat>
    ghost var allocations: nat
    ghost var fates: map<nat, Fate<P>>

    ghost predicate Valid()
      reads this
    {
      counter == allocations % U32
    }

    ghost function Abs(): Table<P>
      reads this
    {
      Table(allocations, pending, fates)
    }

    constructor ()
      ensures Valid() && Abs() == Table(0, map[], map[])
    {
      counter, pending, allocations, fates := 0, map[], 0, map[];
    }

    /** `counter.fetch_add(1).wrapping_add(1)`. */
    method FetchAdd() returns (id: nat)
      requires Valid()
      modifies this`counter, this`allocations
      ensures Valid()
      ensures id == IdAt(old(allocations)) && allocations == old(allocations) + 1
    {
      id := (counter + 1) % U32;
      counter := (counter + 1) % U32;
      allocations := allocations + 1;
    }

    method Register(call: nat) returns (id: nat)
      requires Valid()
      modifies this
      ensures Valid() && 0 < id < U32
      ensures
        var used := if IdAt(old(allocations)) == 0 then 2 else 1;
        && id == IdAt(old(allocations) + used - 1)
        && Abs() == AfterInsert(old(Abs()).(allocations := old(allocations) + used), id, call)
    {
      id := FetchAdd();
      if id == 0 {
        id := FetchAdd();
      }
      if id in pending {
        fates := fates[pending[id] := Overwritten];
      }
      pending := pending[id := call];
    }

    method Resolve(id: nat, payload: P) returns (found: bool)
      requires Valid()
      modifies this
      ensures Valid() && found == (id in old(pending))
      ensures Abs() == AfterResolve(old(Abs()), id, payload)
    {
      found := id in pending;
      if found {
        fates := fates[pending[id] := Delivered(payload)];
        pending := pending - {id};
      }
    }

    /** The clean-up of `wait_for` after a timeout or a dropped sender. */
    method Remove(id: nat)
      requires Valid()
      modifies this
      ensures Valid() && Abs() == AfterRemove(old(Abs()), id)
    {
      if id in pending {
        fates := fates[pending[id] := Removed];
        pending := pending - {id};
      }
    }

    method Clear()
      requires Valid()
      modifies this
      ensures Valid() && Abs() == AfterClear(old(Abs()))
    {
      fates := fates + map call | call in pending.Values :: Cleared;
      pending := map[];
    }
  }
}
