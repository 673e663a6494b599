/** Documents as forests: child lists and parent links that agree, and a rank that counts
    ancestors. */
module DomForest {
  import opened Results
  import opened HtmlArena

  /** TAI_DOM_MAX_DEPTH and TAI_DOCUMENT_SCRIPT_NODE_LIMIT. */
  const MAX_DEPTH: nat := 512
  const SCRIPT_NODE_LIMIT: nat := 1000000

  predicate Distinct(ids: seq<nat>) {
    forall j, k :: 0 <= j < k < |ids| ==> ids[j] != ids[k]
  }

  ghost predicate Linked(nodes: seq<Node>) {
    && (forall x, k :: 0 <= x < |nodes| && 0 <= k < |nodes[x].children| ==>
          nodes[x].children[k] < |nodes| && nodes[nodes[x].children[k]].parent == Some(x))
    && (forall x :: 0 <= x < |nodes| && nodes[x].parent.Some? ==> nodes[x].parent.value < |nodes|)
    && (forall x, p :: 0 <= x < |nodes| && 0 <= p < |nodes| && nodes[x].parent == Some(p) ==> x in nodes[p].children)
    && (forall x :: 0 <= x < |nodes| ==> Distinct(nodes[x].children))
  }

  /** rank[x] is the number of ancestors of x; that there is such a rank rules out cycles. */
  ghost predicate Ranked(nodes: seq<Node>, rank: seq<nat>) {
    && |rank| == |nodes|
    && (forall x :: 0 <= x < |nodes| ==>
          if nodes[x].parent.Some? then nodes[x].parent.value < |nodes| else rank[x] == 0)
    && (forall x, p :: 0 <= x < |nodes| && 0 <= p < |nodes| && nodes[x].parent == Some(p) ==> rank[x] == rank[p] + 1)
  }

  /** The nodes a script can hold: whole trees, none of them too deep. */
  ghost predicate Reachable(nodes: seq<Node>, rank: seq<nat>, live: set<nat>)
    requires Ranked(nodes, rank)
  {
    && (forall x :: x in live ==> x < |nodes| && rank[x] <= MAX_DEPTH)
    && (forall x :: 0 <= x < |nodes| && nodes[x].parent.Some? ==> (x in live <==> nodes[x].parent.value in live))
  }

  /** No node at all has more ancestors than this. */
  ghost predicate Bounded(rank: seq<nat>, bound: nat) {
    forall x :: 0 <= x < |rank| ==> rank[x] <= bound
  }

  ghost predicate Under(nodes: seq<Node>, rank: seq<nat>, x: nat, a: nat)
    requires Ranked(nodes, rank) && x < |nodes|
    decreases rank[x]
  {
    x == a || (nodes[x].parent.Some? && Under(nodes, rank, nodes[x].parent.value, a))
  }

  lemma {:induction false} UnderRank(nodes: seq<Node>, rank: seq<nat>, x: nat, a: nat)
    requires Ranked(nodes, rank) && x < |nodes| && a < |nodes|
    requires Under(nodes, rank, x, a)
    ensures rank[x] >= rank[a] && (rank[x] == rank[a] ==> x == a)
    decreases rank[x]
  {
    if x != a {
      UnderRank(nodes, rank, nodes[x].parent.value, a);
    }
  }

  /** A set of nodes that holds a and every child of its members holds all that is under a. */
  lemma {:induction false} Closure(nodes: seq<Node>, rank: seq<nat>, a: nat, members: set<nat>, x: nat)
    requires Linked(nodes) && Ranked(nodes, rank) && a in members && x < |nodes|
    requires forall y, k :: y in members && y < |nodes| && 0 <= k < |nodes[y].children| ==> nodes[y].children[k] in members
    requires Under(nodes, rank, x, a)
    ensures x in members
    decreases rank[x]
  {
    if x != a {
      Closure(nodes, rank, a, members, nodes[x].parent.value);
    }
  }

  // ----- Moving a subtree -----

  /** The ranks after the subtree of c moves so that c has rank level. */
  ghost function Shifted(nodes: seq<Node>, rank: seq<nat>, c: nat, level: nat): (r: seq<nat>)
    requires Ranked(nodes, rank) && c < |nodes|
    ensures |r| == |nodes|
    ensures forall x :: 0 <= x < |nodes| ==>
      r[x] == if Under(nodes, rank, x, c) then rank[x] - rank[c] + level else rank[x]
  {
    assert forall x :: 0 <= x < |nodes| && Under(nodes, rank, x, c) ==> rank[x] >= rank[c] by {
      forall x | 0 <= x < |nodes| && Under(nodes, rank, x, c) ensures rank[x] >= rank[c] {
        UnderRank(nodes, rank, x, c);
      }
    }
    seq(|nodes|, x requires 0 <= x < |nodes| =>
      if Under(nodes, rank, x, c) then rank[x] - rank[c] + level else rank[x])
  }

  ghost predicate SameParents(nodes: seq<Node>, nodes': seq<Node>, c: nat) {
    |nodes| == |nodes'| && forall x :: 0 <= x < |nodes| && x != c ==> nodes'[x].parent == nodes[x].parent
  }

  /** Giving c another parent, or none, moves exactly its subtree. */
  lemma {:induction false} Moved(nodes: seq<Node>, rank: seq<nat>, nodes': seq<Node>, c: nat, level: nat)
    requires Ranked(nodes, rank) && c < |nodes| == |nodes'|
    requires SameParents(nodes, nodes', c)
    requires match nodes'[c].parent
             case None => level == 0
             case Some(p) => p < |nodes| && !Under(nodes, rank, p, c) && level == rank[p] + 1
    ensures Ranked(nodes', Shifted(nodes, rank, c, level))
  {
    var r := Shifted(nodes, rank, c, level);
    forall x | 0 <= x < |nodes'|
      ensures nodes'[x].parent.Some? ==> nodes'[x].parent.value < |nodes|
      ensures nodes'[x].parent.None? ==> r[x] == 0
      ensures forall p :: 0 <= p < |nodes| && nodes'[x].parent == Some(p) ==> r[x] == r[p] + 1
    {
      if x != c && nodes[x].parent.Some? {
        assert Under(nodes, rank, x, c) == Under(nodes, rank, nodes[x].parent.value, c);
      }
    }
  }

  function Detached(nodes: seq<Node>, c: nat): (r: seq<Node>)
    requires c < |nodes|
    requires nodes[c].parent.Some? ==> nodes[c].parent.value < |nodes|
    ensures |r| == |nodes|
  {
    if nodes[c].parent.None? then nodes
    else Unlinked(nodes, c)[c := Unlinked(nodes, c)[c].(parent := None)]
  }

  /** c before ref, or at the end. */
  function Placed(ids: seq<nat>, ref: Option<nat>, c: nat): seq<nat> {
    if ids == [] || (ref.Some? && ids[0] == ref.value) then [c] + ids
    else [ids[0]] + Placed(ids[1..], ref, c)
  }

  function Attached(nodes: seq<Node>, p: nat, c: nat, ref: Option<nat>): (r: seq<Node>)
    requires c < |nodes| && p < |nodes|
    ensures |r| == |nodes| && r[c].parent == Some(p)
  {
    var grown := nodes[p := nodes[p].(children := Placed(nodes[p].children, ref, c))];
    grown[c := grown[c].(parent := Some(p))]
  }

  function Inserted(nodes: seq<Node>, p: nat, c: nat, ref: Option<nat>): (r: seq<Node>)
    requires c < |nodes| && p < |nodes|
    requires nodes[c].parent.Some? ==> nodes[c].parent.value < |nodes|
    ensures |r| == |nodes| && r[c].parent == Some(p)
  {
    Attached(Detached(nodes, c), p, c, ref)
  }

  lemma {:induction false} WithoutMembers(ids: seq<nat>, c: nat)
    requires Distinct(ids)
    ensures forall x :: x in Without(ids, c) <==> x in ids && x != c
    ensures Distinct(Without(ids, c))
    decreases |ids|
  {
    if ids != [] {
      var rest := ids[1..];
      assert ids == [ids[0]] + rest;
      assert Distinct(rest) && ids[0] !in rest;
      WithoutMembers(rest, c);
    }
  }

  lemma {:induction false} PlacedAt(ids: seq<nat>, ref: Option<nat>, c: nat, i: nat)
    requires i <= |ids|
    requires ref.Some? ==> (forall k :: 0 <= k < i ==> ids[k] != ref.value)
    requires if i < |ids| then ref == Some(ids[i]) else ref.None? || i == |ids|
    ensures Placed(ids, ref, c) == ids[..i] + [c] + ids[i..]
    decreases i
  {
    if i > 0 {
      PlacedAt(ids[1..], ref, c, i - 1);
      assert ids[1..][..i - 1] == ids[1..i] && ids[1..][i - 1..] == ids[i..];
      assert [ids[0]] + ids[1..i] == ids[..i];
    }
  }

  lemma {:induction false} PlacedMembers(ids: seq<nat>, ref: Option<nat>, c: nat)
    requires Distinct(ids)
    requires c !in ids
    ensures forall x :: x in Placed(ids, ref, c) <==> x in ids || x == c
    ensures Distinct(Placed(ids, ref, c))
    decreases |ids|
  {
    if ids == [] || (ref.Some? && ids[0] == ref.value) {
      assert forall k :: 1 <= k < |[c] + ids| ==> ([c] + ids)[k] == ids[k - 1];
    } else {
      var rest := ids[1..];
      assert ids == [ids[0]] + rest;
      assert Distinct(rest) && ids[0] !in rest;
      PlacedMembers(rest, ref, c);
    }
  }

  /** The lists of a forest in which c is nobody's child. */
  ghost predicate Free(nodes: seq<Node>, c: nat) {
    c < |nodes| && nodes[c].parent.None? && forall x :: 0 <= x < |nodes| ==> c !in nodes[x].children
  }

  lemma {:induction false} DetachLinked(nodes: seq<Node>, c: nat)
    requires Linked(nodes) && c < |nodes|
    requires nodes[c].parent.Some? ==> nodes[c].parent.value < |nodes|
    ensures Linked(Detached(nodes, c)) && Free(Detached(nodes, c), c)
    ensures SameParents(nodes, Detached(nodes, c), c)
  {
    hide Linked, Free;
    DetachedParents(nodes, c);
    if nodes[c].parent.Some? {
      var p := nodes[c].parent.value;
      WithoutMembers(nodes[p].children, c);
      TakenOut(nodes, Detached(nodes, c), p, c);
    } else {
      NobodysChild(nodes, c);
    }
  }

  lemma {:induction false} DetachedParents(nodes: seq<Node>, c: nat)
    requires c < |nodes| && Linked(nodes)
    requires nodes[c].parent.Some? ==> nodes[c].parent.value < |nodes|
    ensures SameParents(nodes, Detached(nodes, c), c) && Detached(nodes, c)[c].parent == None
    ensures nodes[c].parent.Some? ==> Distinct(nodes[nodes[c].parent.value].children)
  {
  }

  lemma {:induction false} NobodysChild(nodes: seq<Node>, c: nat)
    requires Linked(nodes) && c < |nodes| && nodes[c].parent.None?
    ensures Free(nodes, c)
  {
  }

  lemma {:induction false} TakenOut(nodes: seq<Node>, nodes': seq<Node>, p: nat, c: nat)
    requires Linked(nodes) && c < |nodes| && p < |nodes| && nodes[c].parent == Some(p)
    requires SameParents(nodes, nodes', c) && nodes'[c].parent == None
    requires forall x :: 0 <= x < |nodes| && x != p ==> nodes'[x].children == nodes[x].children
    requires forall x :: x in nodes'[p].children <==> x in nodes[p].children && x != c
    requires Distinct(nodes'[p].children)
    ensures Linked(nodes') && Free(nodes', c)
  {
    forall x, k | 0 <= x < |nodes| && 0 <= k < |nodes'[x].children|
      ensures nodes'[x].children[k] < |nodes| && nodes'[nodes'[x].children[k]].parent == Some(x)
    {
      assert nodes'[x].children[k] in nodes'[x].children;
      assert nodes'[x].children[k] in nodes[x].children;
    }
  }

  lemma {:induction false} AttachedAt(nodes: seq<Node>, p: nat, c: nat, ref: Option<nat>, x: nat)
    requires p < |nodes| && c < |nodes| && p != c && x < |nodes|
    ensures var nodes' := Attached(nodes, p, c, ref);
      && nodes'[x].children == (if x == p then Placed(nodes[p].children, ref, c) else nodes[x].children)
      && nodes'[x].parent == if x == c then Some(p) else nodes[x].parent
  {
  }

  lemma {:induction false} LinkedChild(nodes: seq<Node>, p: nat, c: nat, ref: Option<nat>, x: nat, k: nat)
    requires Linked(nodes) && Free(nodes, c) && p < |nodes| && p != c && x < |nodes|
    requires k < |Attached(nodes, p, c, ref)[x].children|
    requires forall y :: y in Placed(nodes[p].children, ref, c) <==> y in nodes[p].children || y == c
    ensures var y := Attached(nodes, p, c, ref)[x].children[k];
      y < |nodes| && Attached(nodes, p, c, ref)[y].parent == Some(x)
  {
    hide Placed, Distinct, Attached;
    var y := Attached(nodes, p, c, ref)[x].children[k];
    AttachedAt(nodes, p, c, ref, x);
    assert y in Attached(nodes, p, c, ref)[x].children;
    if y != c {
      assert y in nodes[x].children;
    }
    AttachedAt(nodes, p, c, ref, y);
  }

  lemma {:induction false} LinkedParent(nodes: seq<Node>, p: nat, c: nat, ref: Option<nat>, x: nat, q: nat)
    requires Linked(nodes) && Free(nodes, c) && p < |nodes| && p != c && x < |nodes| && q < |nodes|
    requires Attached(nodes, p, c, ref)[x].parent == Some(q)
    requires forall y :: y in Placed(nodes[p].children, ref, c) <==> y in nodes[p].children || y == c
    ensures x in Attached(nodes, p, c, ref)[q].children
  {
    hide Placed, Distinct, Attached;
    AttachedAt(nodes, p, c, ref, x);
    AttachedAt(nodes, p, c, ref, q);
    if x != c {
      assert x in nodes[q].children;
    }
  }

  lemma {:induction false} AttachLinked(nodes: seq<Node>, p: nat, c: nat, ref: Option<nat>)
    requires Linked(nodes) && Free(nodes, c) && p < |nodes| && p != c
    ensures Linked(Attached(nodes, p, c, ref)) && SameParents(nodes, Attached(nodes, p, c, ref), c)
  {
    PlacedMembers(nodes[p].children, ref, c);
    var nodes' := Attached(nodes, p, c, ref);
    hide Placed, Distinct, Attached;
    forall x | 0 <= x < |nodes|
      ensures Distinct(nodes'[x].children) && nodes'[x].parent == if x == c then Some(p) else nodes[x].parent
    {
      AttachedAt(nodes, p, c, ref, x);
    }
    forall x, k | 0 <= x < |nodes| && 0 <= k < |nodes'[x].children|
      ensures nodes'[x].children[k] < |nodes| && nodes'[nodes'[x].children[k]].parent == Some(x)
    {
      LinkedChild(nodes, p, c, ref, x, k);
    }
    forall x, q | 0 <= x < |nodes| && 0 <= q < |nodes| && nodes'[x].parent == Some(q)
      ensures x in nodes'[q].children
    {
      LinkedParent(nodes, p, c, ref, x, q);
    }
  }

  lemma {:induction false} InsertLinked(nodes: seq<Node>, p: nat, c: nat, ref: Option<nat>)
    requires Linked(nodes) && p < |nodes| && c < |nodes| && p != c
    ensures Linked(Inserted(nodes, p, c, ref)) && SameParents(nodes, Inserted(nodes, p, c, ref), c)
  {
    hide Linked, Attached, Detached, Free;
    DetachRange(nodes, c);
    DetachLinked(nodes, c);
    AttachLinked(Detached(nodes, c), p, c, ref);
  }

  lemma {:induction false} DetachRange(nodes: seq<Node>, c: nat)
    requires Linked(nodes) && c < |nodes|
    ensures nodes[c].parent.Some? ==> nodes[c].parent.value < |nodes|
  {
  }

  /** There is at most one rank. */
  lemma {:induction false} RankUnique(nodes: seq<Node>, r: seq<nat>, s: seq<nat>)
    requires Ranked(nodes, r) && Ranked(nodes, s)
    ensures r == s
  {
    forall x | 0 <= x < |nodes| ensures r[x] == s[x] {
      RankUniqueAt(nodes, r, s, x);
    }
  }

  lemma {:induction false} RankUniqueAt(nodes: seq<Node>, r: seq<nat>, s: seq<nat>, x: nat)
    requires Ranked(nodes, r) && Ranked(nodes, s) && x < |nodes|
    ensures r[x] == s[x]
    decreases r[x]
  {
    if nodes[x].parent.Some? {
      RankUniqueAt(nodes, r, s, nodes[x].parent.value);
    }
  }

  lemma {:induction false} WithoutPlaced(ids: seq<nat>, ref: Option<nat>, c: nat)
    requires c !in ids
    ensures Without(Placed(ids, ref, c), c) == ids
    decreases |ids|
  {
    if ids == [] || (ref.Some? && ids[0] == ref.value) {
      assert ([c] + ids)[1..] == ids;
      WithoutNone(ids, c);
    } else {
      var rest := ids[1..];
      assert ids == [ids[0]] + rest;
      WithoutPlaced(rest, ref, c);
      assert Placed(ids, ref, c)[1..] == Placed(rest, ref, c);
    }
  }

  lemma {:induction false} WithoutNone(ids: seq<nat>, c: nat)
    requires c !in ids
    ensures Without(ids, c) == ids
  {
    if ids != [] {
      assert ids == [ids[0]] + ids[1..];
      WithoutNone(ids[1..], c);
    }
  }

  /** Taking out a node just inserted restores the document, wherever it was put. */
  lemma {:induction false} InsertThenRemove(nodes: seq<Node>, p: nat, c: nat, ref: Option<nat>)
    requires Linked(nodes) && p < |nodes| && c < |nodes| && p != c && nodes[c].parent == None
    ensures Detached(Inserted(nodes, p, c, ref), c) == nodes
  {
    assert c !in nodes[p].children;
    WithoutPlaced(nodes[p].children, ref, c);
    hide Linked, Placed, Without;
    assert Inserted(nodes, p, c, ref) == Attached(nodes, p, c, ref);
    assert Attached(nodes, p, c, ref)[p].children == Placed(nodes[p].children, ref, c);
  }
}
