/** The two open-addressing sets of the program.

    IdSet, of src/js.c, starts with 64 slots and looks for what it adds; NodeSet, of src/dom.c,
    starts with 16 and does not. Both double once half of the slots are taken, so a free slot always
    ends a probe, and both are proved to be mathematical sets.
*/
module ProbeSets {
  import opened Results
  import opened Probing

  /** Ids of elements, in src/js.c. */
  class IdSet {
    const hash: string -> nat
    var slots: array<Option<string>>
    var count: nat

    ghost predicate Valid()
      reads this, slots
    {
      if slots.Length == 0 then count == 0
      else Table(slots[..], hash, count, 64) && Unique(slots[..])
    }

    ghost function Ids(): set<string>
      reads this, slots
    {
      Contents(slots[..])
    }

    constructor (hash: string -> nat)
      ensures Valid() && Ids() == {} && fresh(slots)
    {
      this.hash := hash;
      slots, count := new Option<string>[0], 0;
    }

    /** True exactly for an id not seen before. */
    method Add(id: string) returns (added: bool)
      requires Valid()
      modifies this, slots
      ensures Valid() && Ids() == old(Ids()) + {id}
      ensures added <==> id !in old(Ids())
      ensures count == old(count) + if added then 1 else 0
      ensures slots == old(slots) || fresh(slots)
    {
      hide Contents, Filled, Reachable;
      if count >= slots.Length / 2 {
        Grow();
      }
      TableRoom(slots[..], hash, count, 64);
      ghost var was := slots[..];
      var slot, d, found := FindKey(slots, hash, id);
      if found {
        assert was == slots[..];
        InSet(was, id);
        return false;
      }
      Put(slot, d, id);
      added := true;
    }

    /** The new element goes into the slot the probe ended at. */
    method Put(slot: nat, ghost d: nat, id: string)
      requires slots.Length > 0 && Table(slots[..], hash, count, 64) && Unique(slots[..]) && count < slots.Length / 2
      requires d < slots.Length && slot == At(Home(hash, id, slots.Length), d, slots.Length)
      requires id !in Contents(slots[..]) && slots[slot].None?
      requires forall e :: 0 <= e < d ==> slots[At(Home(hash, id, slots.Length), e, slots.Length)].Some?
      modifies `count, slots
      ensures Valid() && slots.Length > 0 && Ids() == old(Ids()) + {id} && count == old(count) + 1
    {
      hide Contents, Filled, Reachable;
      ghost var was := slots[..];
      assert forall e :: 0 <= e < d ==> was[At(Home(hash, id, |was|), e, |was|)] == slots[At(Home(hash, id, |was|), e, |was|)];
      ReachableUpdate(was, hash, id, d);
      FilledUpdate(was, slot, id);
      ContentsUpdate(was, slot, id);
      UniqueUpdate(was, slot, id);
      slots[slot] := Some(id);
      assert slots[..] == was[slot := Some(id)];
      count := count + 1;
    }

    method Grow()
      requires Valid() && count >= slots.Length / 2
      modifies this
      ensures Valid() && Ids() == old(Ids()) && count == old(count) && fresh(slots)
      ensures slots.Length > 0 && count < slots.Length / 2
    {
      hide Contents, Filled, Reachable;
      var capacity := if slots.Length > 0 then slots.Length * 2 else 64;
      var bigger := new Option<string>[capacity](_ => None);
      assert bigger[..] == seq(capacity, _ => Option<string>.None);
      if slots.Length > 0 {
        DoublingFirst(slots.Length, 64);
      } else {
        EmptyIs(slots[..]);
      }
      TableSizes(slots[..], hash, count, 64);
      Rehash(slots, hash, bigger);
      slots := bigger;
    }
  }

  lemma {:induction false} EmptyIs<T>(slots: seq<Option<T>>)
    requires slots == []
    ensures Filled(slots) == 0 && Unique(slots)
  {
  }

  lemma {:induction false} TableSizes<T>(slots: seq<Option<T>>, hash: T -> nat, count: nat, first: nat)
    ensures slots != [] && Table(slots, hash, count, first) && first > 0 ==> |slots| >= first && count == Filled(slots)
  {
    if slots != [] && Table(slots, hash, count, first) && first > 0 {
      DoublingFirst(|slots|, first);
    }
  }

  lemma {:induction false} TableRoom<T>(slots: seq<Option<T>>, hash: T -> nat, count: nat, first: nat)
    requires slots != [] && Table(slots, hash, count, first)
    ensures Filled(slots) < |slots| && Reachable(slots, hash)
  {
  }

  lemma {:induction false} InSet<T>(slots: seq<Option<T>>, x: T)
    requires x in Contents(slots)
    ensures Contents(slots) == Contents(slots) + {x}
  {
  }

  /** Nodes closed early by the parser, in src/dom.c. It does not look for what it adds. */
  class NodeSet {
    const hash: nat -> nat
    var slots: array<Option<nat>>
    var count: nat

    ghost predicate Valid()
      reads this, slots
    {
      if slots.Length == 0 then count == 0 else Table(slots[..], hash, count, 16)
    }

    ghost function Nodes(): set<nat>
      reads this, slots
    {
      Contents(slots[..])
    }

    constructor (hash: nat -> nat)
      ensures Valid() && Nodes() == {} && fresh(slots)
    {
      this.hash := hash;
      slots, count := new Option<nat>[0], 0;
    }

    method HasNode(n: nat) returns (has: bool)
      requires Valid()
      ensures has <==> n in Nodes()
    {
      hide Filled, Reachable;
      if slots.Length == 0 {
        return false;
      }
      hide Contents;
      TableRoom(slots[..], hash, count, 16);
      ghost var d;
      var slot;
      slot, d, has := FindKey(slots, hash, n);
    }

    method Add(n: nat)
      requires Valid()
      modifies this, slots
      ensures Valid() && Nodes() == old(Nodes()) + {n} && count == old(count) + 1
      ensures slots == old(slots) || fresh(slots)
    {
      hide Contents, Filled, Reachable;
      if count >= slots.Length / 2 {
        Grow();
      }
      TableRoom(slots[..], hash, count, 16);
      MoveOne(n, false, hash, slots);
      count := count + 1;
    }

    method Grow()
      requires Valid() && count >= slots.Length / 2
      modifies this
      ensures Valid() && Nodes() == old(Nodes()) && count == old(count) && fresh(slots)
      ensures slots.Length > 0 && count < slots.Length / 2
    {
      hide Contents, Filled, Reachable;
      var capacity := if slots.Length > 0 then slots.Length * 2 else 16;
      var bigger := new Option<nat>[capacity](_ => None);
      assert bigger[..] == seq(capacity, _ => Option<nat>.None);
      if slots.Length > 0 {
        DoublingFirst(slots.Length, 16);
      } else {
        EmptyIs(slots[..]);
      }
      TableSizes(slots[..], hash, count, 16);
      Rehash(slots, hash, bigger);
      slots := bigger;
    }
  }
}
