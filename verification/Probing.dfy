/** Linear probing, as the sets of src/js.c and src/dom.c do it, for any hash function.

    A table is a sequence of slots. An element stands behind an unbroken run of taken slots that
    starts at its home (Reachable); that is what makes a free slot mean absence. Inserting at the
    first free slot and rehashing into a bigger table keep it.
*/
module Probing {
  import opened Results

  /** The slot d probes after start, around the end. */
  function At(start: nat, d: nat, capacity: nat): (i: nat)
    requires start < capacity && d <= capacity
    ensures i < capacity
  {
    if start + d < capacity then start + d else start + d - capacity
  }

  /** How many probes lead from start to k. */
  function Distance(start: nat, k: nat, capacity: nat): (d: nat)
    requires start < capacity && k < capacity
    ensures d < capacity && At(start, d, capacity) == k
  {
    if k >= start then k - start else k + capacity - start
  }

  function Home<T>(hash: T -> nat, x: T, capacity: nat): (i: nat)
    requires capacity > 0
    ensures i < capacity
  {
    hash(x) % capacity
  }

  function Contents<T>(slots: seq<Option<T>>): set<T> {
    set k | 0 <= k < |slots| && slots[k].Some? :: slots[k].value
  }

  function Filled<T>(slots: seq<Option<T>>): (n: nat)
    ensures n <= |slots|
    decreases |slots|
  {
    if slots == [] then 0
    else Filled(slots[..|slots| - 1]) + if slots[|slots| - 1].Some? then 1 else 0
  }

  /** Every slot from an element's home up to the element is taken. */
  ghost predicate Reachable<T>(slots: seq<Option<T>>, hash: T -> nat) {
    forall k, d :: 0 <= k < |slots| && slots[k].Some? && 0 <= d < Distance(Home(hash, slots[k].value, |slots|), k, |slots|)
      ==> slots[At(Home(hash, slots[k].value, |slots|), d, |slots|)].Some?
  }

  ghost predicate Unique<T>(slots: seq<Option<T>>) {
    forall j, k :: 0 <= j < k < |slots| && slots[j].Some? && slots[k].Some? ==> slots[j] != slots[k]
  }

  lemma {:induction false} SomeFree<T>(slots: seq<Option<T>>) returns (k: nat)
    requires Filled(slots) < |slots|
    ensures k < |slots| && slots[k].None?
    decreases |slots|
  {
    k := |slots| - 1;
    if slots[k].Some? {
      k := SomeFree(slots[..k]);
    }
  }

  lemma {:induction false} FilledUpdate<T>(slots: seq<Option<T>>, k: nat, x: T)
    requires k < |slots| && slots[k].None?
    ensures Filled(slots[k := Some(x)]) == Filled(slots) + 1
    decreases |slots|
  {
    var n := |slots| - 1;
    if k < n {
      assert slots[k := Some(x)][..n] == slots[..n][k := Some(x)];
      FilledUpdate(slots[..n], k, x);
    } else {
      assert slots[k := Some(x)][..n] == slots[..n];
    }
  }

  lemma {:induction false} FilledNone<T>(n: nat)
    ensures Filled(seq(n, _ => Option<T>.None)) == 0
  {
    if n > 0 {
      FilledNone<T>(n - 1);
      assert seq(n, _ => Option<T>.None)[..n - 1] == seq(n - 1, _ => Option<T>.None);
    }
  }

  lemma {:induction false} ContentsUpdate<T>(slots: seq<Option<T>>, k: nat, x: T)
    requires k < |slots| && slots[k].None?
    ensures Contents(slots[k := Some(x)]) == Contents(slots) + {x}
  {
    var after := slots[k := Some(x)];
    forall y | y in Contents(slots) + {x} ensures y in Contents(after) {
      if y == x {
        assert after[k] == Some(x);
      } else {
        var j :| 0 <= j < |slots| && slots[j].Some? && slots[j].value == y;
        assert after[j] == slots[j];
      }
    }
  }

  /** Taking the first free slot from its home keeps every element reachable. */
  lemma {:induction false} ReachableUpdate<T>(slots: seq<Option<T>>, hash: T -> nat, x: T, d: nat)
    requires Reachable(slots, hash) && d < |slots|
    requires forall e :: 0 <= e < d ==> slots[At(Home(hash, x, |slots|), e, |slots|)].Some?
    requires slots[At(Home(hash, x, |slots|), d, |slots|)].None?
    ensures Reachable(slots[At(Home(hash, x, |slots|), d, |slots|) := Some(x)], hash)
  {
    hide Home;
    var home := Home(hash, x, |slots|);
    var k := At(home, d, |slots|);
    assert Distance(home, k, |slots|) == d;
  }

  /** A free slot before any match means there is none. */
  lemma {:induction false} Absent<T>(slots: seq<Option<T>>, hash: T -> nat, x: T, d: nat)
    requires Reachable(slots, hash) && d < |slots|
    requires forall e :: 0 <= e < d ==> slots[At(Home(hash, x, |slots|), e, |slots|)] != Some(x)
    requires slots[At(Home(hash, x, |slots|), d, |slots|)].None?
    ensures x !in Contents(slots)
  {
    hide Home;
    var home := Home(hash, x, |slots|);
    forall k | 0 <= k < |slots|
      ensures slots[k] != Some(x)
    {
      var e := Distance(home, k, |slots|);
      assert At(home, e, |slots|) == k;
      if slots[k].Some? {
        var other := Home(hash, slots[k].value, |slots|);
        assert d < Distance(other, k, |slots|) ==> slots[At(other, d, |slots|)].Some?;
      }
    }
  }

  /** The first free slot from start on: there is one, so the loop ends. */
  method FindFree<T>(slots: array<Option<T>>, start: nat) returns (slot: nat, ghost d: nat)
    requires start < slots.Length && Filled(slots[..]) < slots.Length
    ensures d < slots.Length && slot == At(start, d, slots.Length) && slots[slot].None?
    ensures forall e :: 0 <= e < d ==> slots[At(start, e, slots.Length)].Some?
  {
    ghost var free := SomeFree(slots[..]);
    slot, d := start, 0;
    while slots[slot].Some?
      invariant d < slots.Length && slot == At(start, d, slots.Length)
      invariant forall e :: 0 <= e < d ==> slots[At(start, e, slots.Length)].Some?
      decreases slots.Length - d
    {
      assert d < Distance(start, free, slots.Length) by {
        assert slots[..][free] == slots[free];
        assert At(start, Distance(start, free, slots.Length), slots.Length) == free;
        assert d == Distance(start, slot, slots.Length);
      }
      d := d + 1;
      slot := if slot + 1 == slots.Length then 0 else slot + 1;
    }
  }

  /** The slot of x, or the first free one. */
  method FindKey<T(==)>(slots: array<Option<T>>, hash: T -> nat, x: T) returns (slot: nat, ghost d: nat, found: bool)
    requires slots.Length > 0 && Filled(slots[..]) < slots.Length && Reachable(slots[..], hash)
    ensures d < slots.Length && slot == At(Home(hash, x, slots.Length), d, slots.Length)
    ensures found <==> x in Contents(slots[..])
    ensures !found ==> slots[slot].None?
    ensures !found ==> forall e :: 0 <= e < d ==> slots[At(Home(hash, x, slots.Length), e, slots.Length)].Some?
  {
    ghost var free := SomeFree(slots[..]);
    var start := Home(hash, x, slots.Length);
    hide Home, Reachable, Filled;
    slot, d := start, 0;
    while slots[slot].Some?
      invariant d < slots.Length && slot == At(start, d, slots.Length)
      invariant forall e :: 0 <= e < d ==> slots[At(start, e, slots.Length)].Some?
      invariant forall e :: 0 <= e < d ==> slots[At(start, e, slots.Length)] != Some(x)
      decreases slots.Length - d
    {
      if slots[slot].value == x {
        assert slots[..][slot] == Some(x);
        return slot, d, true;
      }
      assert d < Distance(start, free, slots.Length) by {
        assert slots[..][free] == slots[free];
        assert At(start, Distance(start, free, slots.Length), slots.Length) == free;
        assert d == Distance(start, slot, slots.Length);
      }
      d := d + 1;
      slot := if slot + 1 == slots.Length then 0 else slot + 1;
    }
    found := false;
    assert forall e :: 0 <= e < d ==> slots[..][At(start, e, slots.Length)] == slots[At(start, e, slots.Length)];
    Absent(slots[..], hash, x, d);
  }

  /** A table as the sets use it: some slot is always free, and its size is a doubling of the first. */
  ghost predicate Table<T>(slots: seq<Option<T>>, hash: T -> nat, count: nat, first: nat) {
    && Doubling(|slots|, first) && count == Filled(slots) && 2 * count <= |slots| && Reachable(slots, hash)
  }

  predicate Doubling(capacity: nat, first: nat) {
    capacity == first || (capacity > 0 && capacity % 2 == 0 && Doubling(capacity / 2, first))
  }

  lemma {:induction false} DoublingFirst(capacity: nat, first: nat)
    requires Doubling(capacity, first) && first > 0
    ensures capacity >= first && Doubling(2 * capacity, first)
    decreases capacity
  {
    if capacity != first {
      DoublingFirst(capacity / 2, first);
    }
    assert 2 * capacity / 2 == capacity;
  }

  /** Puts every element of a table into an empty one with room. */
  method Rehash<T>(slots: array<Option<T>>, hash: T -> nat, bigger: array<Option<T>>)
    requires slots != bigger && bigger.Length > slots.Length
    requires bigger[..] == seq(bigger.Length, _ => Option<T>.None)
    modifies bigger
    ensures Contents(bigger[..]) == Contents(slots[..]) && Filled(bigger[..]) == Filled(slots[..])
    ensures Reachable(bigger[..], hash) && (Unique(slots[..]) ==> Unique(bigger[..]))
  {
    FilledNone<T>(bigger.Length);
    var i := 0;
    assert slots[..0] == [];
    while i < slots.Length
      invariant i <= slots.Length && slots[..] == old(slots[..])
      invariant Contents(bigger[..]) == Contents(slots[..i]) && Filled(bigger[..]) == Filled(slots[..i])
      invariant Reachable(bigger[..], hash) && (Unique(slots[..]) ==> Unique(bigger[..]))
    {
      SplitLast(slots[..], i);
      assert slots[..][i] == slots[i] && slots[..][..i] == slots[..i] && slots[..][..i + 1] == slots[..i + 1];
      if slots[i].Some? {
        MoveOne(slots[i].value, Unique(slots[..]), hash, bigger);
      }
      i := i + 1;
    }
    assert slots[..i] == slots[..];
  }

  method MoveOne<T>(x: T, ghost unique: bool, hash: T -> nat, bigger: array<Option<T>>)
    requires bigger.Length > 0 && Filled(bigger[..]) < bigger.Length && Reachable(bigger[..], hash)
    requires unique ==> Unique(bigger[..]) && x !in Contents(bigger[..])
    modifies bigger
    ensures Contents(bigger[..]) == old(Contents(bigger[..])) + {x} && Filled(bigger[..]) == old(Filled(bigger[..])) + 1
    ensures Reachable(bigger[..], hash) && (unique ==> Unique(bigger[..]))
  {
    hide Contents, Filled, Reachable;
    ghost var was := bigger[..];
    var home := Home(hash, x, bigger.Length);
    var slot, d := FindFree(bigger, home);
    assert forall e :: 0 <= e < d ==> was[At(home, e, bigger.Length)] == bigger[At(home, e, bigger.Length)];
    ReachableUpdate(was, hash, x, d);
    FilledUpdate(was, slot, x);
    ContentsUpdate(was, slot, x);
    if unique {
      UniqueUpdate(was, slot, x);
    }
    bigger[slot] := Some(x);
    assert bigger[..] == was[slot := Some(x)];
  }

  lemma {:induction false} UniqueUpdate<T>(slots: seq<Option<T>>, k: nat, x: T)
    requires Unique(slots) && k < |slots| && slots[k].None? && x !in Contents(slots)
    ensures Unique(slots[k := Some(x)])
  {
    assert forall j :: 0 <= j < |slots| && slots[j].Some? ==> slots[j].value in Contents(slots);
  }

  lemma {:induction false} SplitLast<T>(slots: seq<Option<T>>, i: nat)
    requires i < |slots|
    ensures Contents(slots[..i + 1]) == Contents(slots[..i]) + (if slots[i].Some? then {slots[i].value} else {})
    ensures Filled(slots[..i + 1]) == Filled(slots[..i]) + if slots[i].Some? then 1 else 0
    ensures Unique(slots) && slots[i].Some? ==> slots[i].value !in Contents(slots[..i])
    ensures Filled(slots[..i]) <= i
  {
    var a, b := slots[..i], slots[..i + 1];
    assert b[..i] == a;
    forall y | y in Contents(a) ensures y in Contents(b) {
      var j :| 0 <= j < |a| && a[j].Some? && a[j].value == y;
      assert b[j] == a[j];
    }
    assert slots[i].Some? ==> b[i].value in Contents(b);
  }
}
