/** The array work of tai_node_set_inner_html in src/dom.c.

    The nodes of a parsed fragment join the document with new ids, and one node adopts all children
    of another. Both keep a forest: parent and child links agree, children are distinct, and the
    ranks that count ancestors follow the move.
*/
module DomAdopt {
  import opened Results
  import opened HtmlArena
  import opened DomForest

  function Renumbered(x: Node, offset: nat): Node {
    Node(x.content,
         if x.parent.Some? then Some(x.parent.value + offset) else None,
         seq(|x.children|, k requires 0 <= k < |x.children| => x.children[k] + offset))
  }

  function RenumberedAll(fragment: seq<Node>, offset: nat): (r: seq<Node>)
    ensures |r| == |fragment|
  {
    seq(|fragment|, i requires 0 <= i < |fragment| => Renumbered(fragment[i], offset))
  }

  /** Two forests side by side. */
  function Joined(nodes: seq<Node>, fragment: seq<Node>): (r: seq<Node>)
    ensures |r| == |nodes| + |fragment|
  {
    nodes + RenumberedAll(fragment, |nodes|)
  }

  lemma {:induction false} JoinedAt(nodes: seq<Node>, fragment: seq<Node>, x: nat)
    requires x < |nodes| + |fragment|
    ensures Joined(nodes, fragment)[x] ==
      if x < |nodes| then nodes[x] else Renumbered(fragment[x - |nodes|], |nodes|)
  {
  }

  lemma {:induction false} LinkedChildren(nodes: seq<Node>, x: nat, k: nat)
    requires Linked(nodes) && x < |nodes| && k < |nodes[x].children|
    ensures nodes[x].children[k] < |nodes| && nodes[nodes[x].children[k]].parent == Some(x)
  {
  }

  lemma {:induction false} JoinedChild(nodes: seq<Node>, fragment: seq<Node>, x: nat, k: nat)
    requires Linked(nodes) && Linked(fragment)
    requires x < |nodes| + |fragment| && k < |Joined(nodes, fragment)[x].children|
    ensures var all := Joined(nodes, fragment);
      all[x].children[k] < |all| && all[all[x].children[k]].parent == Some(x)
  {
    hide Joined, Linked;
    JoinedAt(nodes, fragment, x);
    if x < |nodes| {
      LinkedChildren(nodes, x, k);
      JoinedAt(nodes, fragment, nodes[x].children[k]);
    } else {
      LinkedChildren(fragment, x - |nodes|, k);
      JoinedAt(nodes, fragment, fragment[x - |nodes|].children[k] + |nodes|);
    }
  }

  lemma {:induction false} JoinedParent(nodes: seq<Node>, fragment: seq<Node>, x: nat)
    requires Linked(nodes) && Linked(fragment) && x < |nodes| + |fragment|
    ensures var all := Joined(nodes, fragment);
      all[x].parent.Some? ==> all[x].parent.value < |all| && x in all[all[x].parent.value].children
  {
    hide Joined;
    JoinedAt(nodes, fragment, x);
    var off := |nodes|;
    if x < off {
      if nodes[x].parent.Some? {
        JoinedAt(nodes, fragment, nodes[x].parent.value);
      }
    } else if fragment[x - off].parent.Some? {
      var q := fragment[x - off].parent.value;
      JoinedAt(nodes, fragment, q + off);
      RenumberedIn(fragment[q], off, x - off);
    }
  }

  lemma {:induction false} RenumberedIn(x: Node, offset: nat, y: nat)
    requires y in x.children
    ensures y + offset in Renumbered(x, offset).children
  {
    var k :| 0 <= k < |x.children| && x.children[k] == y;
    assert Renumbered(x, offset).children[k] == y + offset;
  }

  lemma {:induction false} JoinedDistinct(nodes: seq<Node>, fragment: seq<Node>, x: nat)
    requires Linked(nodes) && Linked(fragment) && x < |nodes| + |fragment|
    ensures Distinct(Joined(nodes, fragment)[x].children)
  {
    hide Joined;
    JoinedAt(nodes, fragment, x);
    if x >= |nodes| {
      assert Distinct(fragment[x - |nodes|].children);
    }
  }

  lemma {:induction false} JoinLinked(nodes: seq<Node>, fragment: seq<Node>)
    requires Linked(nodes) && Linked(fragment)
    ensures Linked(Joined(nodes, fragment))
  {
    hide Joined;
    var all := Joined(nodes, fragment);
    forall x | 0 <= x < |all|
      ensures all[x].parent.Some? ==> all[x].parent.value < |all|
      ensures forall p :: 0 <= p < |all| && all[x].parent == Some(p) ==> x in all[p].children
      ensures Distinct(all[x].children)
    {
      JoinedParent(nodes, fragment, x);
      JoinedDistinct(nodes, fragment, x);
    }
    forall x, k | 0 <= x < |all| && 0 <= k < |all[x].children|
      ensures all[x].children[k] < |all| && all[all[x].children[k]].parent == Some(x)
    {
      JoinedChild(nodes, fragment, x, k);
    }
  }

  lemma {:induction false} JoinRanked(nodes: seq<Node>, rank: seq<nat>, fragment: seq<Node>, levels: seq<nat>)
    requires Ranked(nodes, rank) && Ranked(fragment, levels)
    ensures Ranked(Joined(nodes, fragment), rank + levels)
  {
    hide Joined;
    var all, r := Joined(nodes, fragment), rank + levels;
    var off := |nodes|;
    forall x | 0 <= x < |all|
      ensures if all[x].parent.Some? then all[x].parent.value < |all| else r[x] == 0
      ensures forall p :: 0 <= p < |all| && all[x].parent == Some(p) ==> r[x] == r[p] + 1
    {
      JoinedAt(nodes, fragment, x);
      if x < off {
        assert r[x] == rank[x];
        if nodes[x].parent.Some? {
          assert r[nodes[x].parent.value] == rank[nodes[x].parent.value];
        }
      } else {
        assert r[x] == levels[x - off];
        if fragment[x - off].parent.Some? {
          assert r[fragment[x - off].parent.value + off] == levels[fragment[x - off].parent.value];
        }
      }
    }
  }

  // ----- Moving all children of one node to another -----

  ghost predicate Beneath(nodes: seq<Node>, rank: seq<nat>, x: nat, b: nat)
    requires Ranked(nodes, rank) && x < |nodes|
  {
    x != b && Under(nodes, rank, x, b)
  }

  ghost function Adopted(nodes: seq<Node>, n: nat, b: nat): (r: seq<Node>)
    requires n < |nodes| && b < |nodes|
    ensures |r| == |nodes|
  {
    seq(|nodes|, x requires 0 <= x < |nodes| =>
      Node(nodes[x].content,
           if nodes[x].parent == Some(b) then Some(n) else nodes[x].parent,
           if x == n then nodes[b].children else if x == b then [] else nodes[x].children))
  }

  ghost function AdoptedRank(nodes: seq<Node>, rank: seq<nat>, n: nat, b: nat): (r: seq<nat>)
    requires Ranked(nodes, rank) && n < |nodes| && b < |nodes|
    ensures |r| == |nodes|
    ensures forall x :: 0 <= x < |nodes| ==>
      r[x] + rank[b] == rank[x] + if Beneath(nodes, rank, x, b) then rank[n] else rank[b]
  {
    assert forall x :: 0 <= x < |nodes| && Beneath(nodes, rank, x, b) ==> rank[x] >= rank[b] by {
      forall x | 0 <= x < |nodes| && Beneath(nodes, rank, x, b) ensures rank[x] >= rank[b] {
        UnderRank(nodes, rank, x, b);
      }
    }
    seq(|nodes|, x requires 0 <= x < |nodes| =>
      if Beneath(nodes, rank, x, b) then rank[x] - rank[b] + rank[n] else rank[x])
  }

  lemma {:induction false} AdoptLinked(nodes: seq<Node>, n: nat, b: nat)
    requires Linked(nodes) && n < |nodes| && b < |nodes| && n != b && nodes[n].children == []
    ensures Linked(Adopted(nodes, n, b))
  {
    var nodes' := Adopted(nodes, n, b);
    forall x, k | 0 <= x < |nodes'| && 0 <= k < |nodes'[x].children|
      ensures nodes'[x].children[k] < |nodes'| && nodes'[nodes'[x].children[k]].parent == Some(x)
    {
      if x == n {
        assert nodes[nodes[b].children[k]].parent == Some(b);
      } else {
        assert nodes'[x].children[k] == nodes[x].children[k];
      }
    }
  }

  lemma {:induction false} AdoptRanked(nodes: seq<Node>, rank: seq<nat>, n: nat, b: nat)
    requires Ranked(nodes, rank) && n < |nodes| && b < |nodes| && n != b && !Under(nodes, rank, n, b)
    ensures Ranked(Adopted(nodes, n, b), AdoptedRank(nodes, rank, n, b))
  {
    var nodes' := Adopted(nodes, n, b);
    var r := AdoptedRank(nodes, rank, n, b);
    forall x | 0 <= x < |nodes'|
      ensures nodes'[x].parent.Some? ==> nodes'[x].parent.value < |nodes|
      ensures nodes'[x].parent.None? ==> r[x] == 0
      ensures forall p :: 0 <= p < |nodes| && nodes'[x].parent == Some(p) ==> r[x] == r[p] + 1
    {
      if nodes[x].parent.Some? {
        var q := nodes[x].parent.value;
        assert x != b ==> Under(nodes, rank, x, b) == Under(nodes, rank, q, b);
        if x == b && Under(nodes, rank, q, b) {
          UnderRank(nodes, rank, q, b);
        }
      }
    }
  }
}
