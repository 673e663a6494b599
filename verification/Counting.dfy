/** How often things occur in lists.

    The protocols of the tabs and of XMLHttpRequest hand tasks, jobs and fetches from list to list.
    That none is lost or copied is a sum over all lists of how often each id occurs in them, which
    every step keeps.
*/
module Counting {
  function Times(ids: seq<nat>, t: nat): nat {
    multiset(ids)[t]
  }

  lemma {:induction false} TimesJoin(a: seq<nat>, b: seq<nat>, t: nat)
    ensures Times(a + b, t) == Times(a, t) + Times(b, t)
  {
  }

  lemma {:induction false} TimesOne(x: nat, t: nat)
    ensures Times([x], t) == (if x == t then 1 else 0) && Times([], t) == 0
  {
  }

  lemma {:induction false} TimesIn(ids: seq<nat>, t: nat)
    ensures Times(ids, t) > 0 <==> t in ids
  {
  }

  lemma {:induction false} TimesFirst(ids: seq<nat>, t: nat)
    requires ids != []
    ensures Times(ids, t) == Times([ids[0]], t) + Times(ids[1..], t)
  {
    assert ids == [ids[0]] + ids[1..];
    TimesJoin([ids[0]], ids[1..], t);
  }

  lemma {:induction false} TimesWithout(ids: seq<nat>, i: nat, t: nat)
    requires i < |ids|
    ensures Times(ids, t) == Times([ids[i]], t) + Times(ids[..i] + ids[i + 1..], t)
  {
    assert ids == ids[..i] + ([ids[i]] + ids[i + 1..]);
    TimesJoin(ids[..i], [ids[i]] + ids[i + 1..], t);
    TimesJoin([ids[i]], ids[i + 1..], t);
    TimesJoin(ids[..i], ids[i + 1..], t);
  }
}
