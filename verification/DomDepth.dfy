/** The depth check of src/dom.c: a walk with an explicit stack meets exactly the subtree. */
module DomDepth {
  import opened Results
  import opened HtmlArena
  import opened DomForest

  type Item = (nat, nat)

  ghost function Ids(stack: seq<Item>): set<nat> {
    set i | 0 <= i < |stack| :: stack[i].0
  }

  ghost predicate Within(nodes: seq<Node>, rank: seq<nat>, n: nat, budget: nat, x: nat)
    requires Ranked(nodes, rank) && n < |nodes|
  {
    x < |nodes| && Under(nodes, rank, x, n) && rank[n] <= rank[x] <= rank[n] + budget
  }

  /** The height of the subtree of n is at most budget. */
  ghost predicate Low(nodes: seq<Node>, rank: seq<nat>, n: nat, budget: nat)
    requires Ranked(nodes, rank) && n < |nodes|
  {
    forall x :: 0 <= x < |nodes| && Under(nodes, rank, x, n) ==> rank[x] <= rank[n] + budget
  }

  ghost predicate Waiting(nodes: seq<Node>, rank: seq<nat>, n: nat, budget: nat, done: set<nat>, item: Item)
    requires Ranked(nodes, rank) && n < |nodes|
  {
    && Within(nodes, rank, n, budget, item.0) && item.1 == rank[item.0] - rank[n]
    && item.0 !in done && From(nodes, n, done, item.0)
  }

  ghost predicate Once(stack: seq<Item>) {
    forall i, j :: 0 <= i < j < |stack| ==> stack[i].0 != stack[j].0
  }

  /** The done nodes are within the budget and what is below them is done or waiting. */
  ghost predicate Covered(nodes: seq<Node>, rank: seq<nat>, n: nat, budget: nat, done: set<nat>, waiting: set<nat>)
    requires Ranked(nodes, rank) && n < |nodes|
  {
    && n in done + waiting
    && (forall x :: x in done ==> Within(nodes, rank, n, budget, x) && From(nodes, n, done, x))
    && (forall x, k :: x in done && 0 <= k < |nodes[x].children| ==> nodes[x].children[k] in done + waiting)
  }

  ghost predicate Frontier(nodes: seq<Node>, rank: seq<nat>, n: nat, budget: nat, stack: seq<Item>, done: set<nat>)
    requires Ranked(nodes, rank) && n < |nodes|
  {
    && (forall i :: 0 <= i < |stack| ==> Waiting(nodes, rank, n, budget, done, stack[i]))
    && Once(stack)
    && Covered(nodes, rank, n, budget, done, Ids(stack))
  }

  ghost predicate From(nodes: seq<Node>, n: nat, done: set<nat>, x: nat) {
    x == n || (x < |nodes| && nodes[x].parent.Some? && nodes[x].parent.value in done)
  }

  function Items(children: seq<nat>, depth: nat): seq<Item> {
    seq(|children|, i requires 0 <= i < |children| => (children[i], depth))
  }

  lemma {:induction false} ChildWithin(nodes: seq<Node>, rank: seq<nat>, n: nat, budget: nat, x: nat, k: nat)
    requires Linked(nodes) && Ranked(nodes, rank) && n < |nodes|
    requires Within(nodes, rank, n, budget, x) && k < |nodes[x].children|
    ensures var y := nodes[x].children[k];
      && y < |nodes| && y != n && y != x && nodes[y].parent == Some(x) && rank[y] == rank[x] + 1
      && Under(nodes, rank, y, n)
      && (rank[x] < rank[n] + budget ==> Within(nodes, rank, n, budget, y))
  {
  }

  lemma {:induction false} IdsSplit(rest: seq<Item>, kids: seq<Item>, item: Item)
    ensures Ids(rest + [item]) == Ids(rest) + {item.0}
    ensures Ids(rest + kids) == Ids(rest) + Ids(kids)
  {
    var a, b := rest + [item], rest + kids;
    forall x | x in Ids(rest) + {item.0} ensures x in Ids(a) {
      if x == item.0 {
        assert a[|rest|].0 == x;
      } else {
        var i :| 0 <= i < |rest| && rest[i].0 == x;
        assert a[i].0 == x;
      }
    }
    forall x | x in Ids(rest) + Ids(kids) ensures x in Ids(b) {
      if x in Ids(rest) {
        var i :| 0 <= i < |rest| && rest[i].0 == x;
        assert b[i].0 == x;
      } else {
        var i :| 0 <= i < |kids| && kids[i].0 == x;
        assert b[|rest| + i].0 == x;
      }
    }
  }

  lemma {:induction false} ItemIds(children: seq<nat>, depth: nat)
    ensures forall k :: 0 <= k < |children| ==> children[k] in Ids(Items(children, depth))
  {
    forall k | 0 <= k < |children|
      ensures children[k] in Ids(Items(children, depth))
    {
      assert Items(children, depth)[k].0 == children[k];
    }
  }

  /** A child of the node taken off the stack is new. */
  lemma {:induction false} NewChild(nodes: seq<Node>, rank: seq<nat>, n: nat, budget: nat, rest: seq<Item>,
                                    done: set<nat>, item: Item, k: nat)
    requires Linked(nodes) && Ranked(nodes, rank) && n < |nodes|
    requires Frontier(nodes, rank, n, budget, rest + [item], done)
    requires Waiting(nodes, rank, n, budget, done, item)
    requires k < |nodes[item.0].children| && item.1 < budget
    ensures var y := nodes[item.0].children[k];
      && Waiting(nodes, rank, n, budget, done + {item.0}, (y, item.1 + 1))
      && forall i :: 0 <= i < |rest| ==> rest[i].0 != y
  {
    hide Under, Within;
    var x := item.0;
    var y := nodes[x].children[k];
    WithinBounds(nodes, rank, n, budget, x);
    ChildWithin(nodes, rank, n, budget, x, k);
    assert !From(nodes, n, done, y);
    forall i | 0 <= i < |rest|
      ensures rest[i].0 != y
    {
      assert Waiting(nodes, rank, n, budget, done, (rest + [item])[i]);
    }
  }

  lemma {:induction false} StillWaiting(nodes: seq<Node>, rank: seq<nat>, n: nat, budget: nat, rest: seq<Item>,
                                        done: set<nat>, item: Item)
    requires Ranked(nodes, rank) && n < |nodes|
    requires Frontier(nodes, rank, n, budget, rest + [item], done)
    ensures Waiting(nodes, rank, n, budget, done, item)
    ensures forall i :: 0 <= i < |rest| ==> Waiting(nodes, rank, n, budget, done + {item.0}, rest[i])
    ensures Once(rest)
  {
    hide Within, Covered;
    var stack := rest + [item];
    assert stack[|rest|] == item;
    forall i | 0 <= i < |rest|
      ensures Waiting(nodes, rank, n, budget, done + {item.0}, rest[i])
    {
      assert stack[i] == rest[i];
    }
    assert forall i :: 0 <= i < |rest| ==> stack[i] == rest[i];
  }

  lemma {:induction false} StillCovered(nodes: seq<Node>, rank: seq<nat>, n: nat, budget: nat, done: set<nat>,
                                        waiting: set<nat>, x: nat, kids: set<nat>)
    requires Ranked(nodes, rank) && n < |nodes|
    requires Covered(nodes, rank, n, budget, done, waiting + {x})
    requires Within(nodes, rank, n, budget, x) && From(nodes, n, done, x)
    requires forall k :: 0 <= k < |nodes[x].children| ==> nodes[x].children[k] in kids
    ensures Covered(nodes, rank, n, budget, done + {x}, waiting + kids)
  {
    hide Under;
  }

  /** Replacing the top of the stack by its children. */
  lemma {:induction false} Advance(nodes: seq<Node>, rank: seq<nat>, n: nat, budget: nat, rest: seq<Item>,
                                   done: set<nat>, item: Item)
    requires Linked(nodes) && Ranked(nodes, rank) && n < |nodes|
    requires Frontier(nodes, rank, n, budget, rest + [item], done)
    requires item.0 < |nodes| && (nodes[item.0].children != [] ==> item.1 < budget)
    ensures Frontier(nodes, rank, n, budget, rest + Items(nodes[item.0].children, item.1 + 1), done + {item.0})
  {
    hide Within, Covered, Waiting;
    var children := nodes[item.0].children;
    var kids := Items(children, item.1 + 1);
    var next := rest + kids;
    StillWaiting(nodes, rank, n, budget, rest, done, item);
    IdsSplit(rest, kids, item);
    ItemIds(children, item.1 + 1);
    WaitingFrom(nodes, rank, n, budget, done, item);
    StillCovered(nodes, rank, n, budget, done, Ids(rest), item.0, Ids(kids));
    forall k | 0 <= k < |children|
      ensures Waiting(nodes, rank, n, budget, done + {item.0}, kids[k])
      ensures forall i :: 0 <= i < |rest| ==> rest[i].0 != kids[k].0
    {
      NewChild(nodes, rank, n, budget, rest, done, item, k);
    }
    assert Distinct(children);
    forall i | 0 <= i < |next|
      ensures Waiting(nodes, rank, n, budget, done + {item.0}, next[i])
    {
      assert next[i] == if i < |rest| then rest[i] else kids[i - |rest|];
    }
    OnceJoined(rest, kids);
  }

  lemma {:induction false} OnceJoined(rest: seq<Item>, kids: seq<Item>)
    requires Once(rest) && Once(kids)
    requires forall i, k :: 0 <= i < |rest| && 0 <= k < |kids| ==> rest[i].0 != kids[k].0
    ensures Once(rest + kids)
  {
  }

  lemma {:induction false} WaitingFrom(nodes: seq<Node>, rank: seq<nat>, n: nat, budget: nat, done: set<nat>, item: Item)
    requires Ranked(nodes, rank) && n < |nodes|
    requires Waiting(nodes, rank, n, budget, done, item)
    ensures Within(nodes, rank, n, budget, item.0) && From(nodes, n, done, item.0) && item.0 !in done
    ensures item.0 < |nodes| && item.1 == rank[item.0] - rank[n] <= budget
  {
  }

  lemma {:induction false} WithinBounds(nodes: seq<Node>, rank: seq<nat>, n: nat, budget: nat, x: nat)
    requires Ranked(nodes, rank) && n < |nodes| && Within(nodes, rank, n, budget, x)
    ensures x < |nodes| && rank[n] <= rank[x] <= rank[n] + budget
  {
  }

  ghost function IdsBelow(n: nat): set<nat> {
    if n == 0 then {} else IdsBelow(n - 1) + {n - 1}
  }

  lemma {:induction false} IdsBelowMembers(n: nat)
    ensures forall x: nat :: x in IdsBelow(n) <==> x < n
  {
    if n > 0 {
      IdsBelowMembers(n - 1);
    }
  }

  /** fits_below: the walk succeeds exactly when the subtree of n is at most budget levels high. */
  method FitsBelow(nodes: seq<Node>, ghost rank: seq<nat>, n: nat, budget: nat) returns (fits: bool)
    requires Linked(nodes) && Ranked(nodes, rank) && n < |nodes|
    ensures fits == Low(nodes, rank, n, budget)
  {
    hide Linked, Ranked, Under, Low, Frontier, Waiting, Within, Items, IdsBelow;
    var stack: seq<Item> := [(n, 0)];
    fits := true;
    ghost var done: set<nat> := {};
    Begin(nodes, rank, n, budget);
    IdsBelowMembers(|nodes|);
    while |stack| > 0 && fits
      invariant fits ==> done <= IdsBelow(|nodes|) && Frontier(nodes, rank, n, budget, stack, done)
      invariant !fits ==> !Low(nodes, rank, n, budget)
      decreases fits, IdsBelow(|nodes|) - done
    {
      var item := stack[|stack| - 1];
      ghost var before := stack;
      stack := stack[..|stack| - 1];
      assert before == stack + [item];
      StillWaiting(nodes, rank, n, budget, stack, done, item);
      WaitingFrom(nodes, rank, n, budget, done, item);
      var children := nodes[item.0].children;
      if |children| == 0 {
        Advance(nodes, rank, n, budget, stack, done, item);
        NoItems(children, item.1 + 1, stack);
        done := done + {item.0};
      } else if item.1 >= budget {
        TooHigh(nodes, rank, n, budget, item.0);
        fits := false;
      } else {
        Advance(nodes, rank, n, budget, stack, done, item);
        stack := PushAll(stack, children, item.1 + 1);
        done := done + {item.0};
      }
    }
    if fits {
      AllMet(nodes, rank, n, budget, done);
    }
  }

  method PushAll(rest: seq<Item>, children: seq<nat>, depth: nat) returns (stack: seq<Item>)
    ensures stack == rest + Items(children, depth)
  {
    stack := rest;
    for i := 0 to |children|
      invariant stack == rest + Items(children, depth)[..i]
    {
      stack := stack + [(children[i], depth)];
    }
  }

  lemma {:induction false} NoItems(children: seq<nat>, depth: nat, stack: seq<Item>)
    requires children == []
    ensures stack + Items(children, depth) == stack
  {
  }

  lemma {:induction false} TooHigh(nodes: seq<Node>, rank: seq<nat>, n: nat, budget: nat, x: nat)
    requires Linked(nodes) && Ranked(nodes, rank) && n < |nodes|
    requires Within(nodes, rank, n, budget, x) && rank[x] - rank[n] >= budget && nodes[x].children != []
    ensures !Low(nodes, rank, n, budget)
  {
    ChildWithin(nodes, rank, n, budget, x, 0);
  }

  lemma {:induction false} Begin(nodes: seq<Node>, rank: seq<nat>, n: nat, budget: nat)
    requires Ranked(nodes, rank) && n < |nodes|
    ensures Frontier(nodes, rank, n, budget, [(n, 0)], {})
  {
    assert [(n, 0)][0].0 in Ids([(n, 0)]);
  }

  lemma {:induction false} AllMet(nodes: seq<Node>, rank: seq<nat>, n: nat, budget: nat, done: set<nat>)
    requires Linked(nodes) && Ranked(nodes, rank) && n < |nodes|
    requires Frontier(nodes, rank, n, budget, [], done)
    ensures Low(nodes, rank, n, budget)
  {
    forall x | 0 <= x < |nodes| && Under(nodes, rank, x, n)
      ensures rank[x] <= rank[n] + budget
    {
      Closure(nodes, rank, n, done, x);
    }
  }
}
