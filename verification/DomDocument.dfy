/** The script mutation interface of src/dom.c on a document's node array. */
module DomDocument {
  import opened Results
  import opened HtmlMachine
  import opened HtmlArena
  import opened DomForest
  import opened DomDepth

  datatype Status =
    | Done | NodeLimit | WrongDocument | Cycle | NotChild | ReferenceNotChild | ParseError | DepthLimit

  // ----- What a move does to the forest -----

  ghost predicate Forest(nodes: seq<Node>, rank: seq<nat>, live: set<nat>) {
    Linked(nodes) && Ranked(nodes, rank) && Reachable(nodes, rank, live)
  }

  /** The outcome of inserting c under p before ref, in the order the checks are made. */
  ghost function InsertStatus(nodes: seq<Node>, rank: seq<nat>, p: nat, c: nat, ref: Option<nat>): Status
    requires Ranked(nodes, rank)
  {
    if p >= |nodes| || c >= |nodes| || (ref.Some? && ref.value >= |nodes|) then WrongDocument
    else if ref.Some? && nodes[ref.value].parent != Some(p) then ReferenceNotChild
    else if ref == Some(c) then Done
    else if Under(nodes, rank, p, c) then Cycle
    else if rank[p] + 1 > MAX_DEPTH || !Low(nodes, rank, c, MAX_DEPTH - (rank[p] + 1)) then DepthLimit
    else Done
  }

  lemma {:induction false} LiveUnder(nodes: seq<Node>, rank: seq<nat>, live: set<nat>, x: nat, a: nat)
    requires Forest(nodes, rank, live) && x < |nodes| && a < |nodes| && Under(nodes, rank, x, a)
    ensures x in live <==> a in live
    decreases rank[x]
  {
    if x != a {
      LiveUnder(nodes, rank, live, nodes[x].parent.value, a);
    }
  }

  /** Moving the subtree of a live node under a live node, or to the top, keeps live trees whole and
      low enough. */
  lemma {:induction false} MoveReachable(nodes: seq<Node>, rank: seq<nat>, live: set<nat>, nodes': seq<Node>, c: nat, level: nat)
    requires Linked(nodes) && Ranked(nodes, rank) && Reachable(nodes, rank, live) && c in live
    requires level <= MAX_DEPTH && Low(nodes, rank, c, MAX_DEPTH - level)
    requires SameParents(nodes, nodes', c)
    requires nodes'[c].parent.Some? ==> nodes'[c].parent.value in live
    requires Ranked(nodes', Shifted(nodes, rank, c, level))
    ensures Reachable(nodes', Shifted(nodes, rank, c, level), live)
  {
    hide Linked, Under;
    var r := Shifted(nodes, rank, c, level);
    forall x | x in live
      ensures x < |nodes'| && r[x] <= MAX_DEPTH
    {
      if Under(nodes, rank, x, c) {
        assert rank[x] <= rank[c] + (MAX_DEPTH - level);
      }
    }
    hide Low, Shifted;
  }

  /** Such a move leaves every other node where it was. */
  lemma {:induction false} MoveBounded(nodes: seq<Node>, rank: seq<nat>, live: set<nat>, c: nat, level: nat, bound: nat)
    requires Forest(nodes, rank, live) && c in live && c < |nodes|
    requires level <= MAX_DEPTH && Low(nodes, rank, c, MAX_DEPTH - level)
    requires MAX_DEPTH <= bound && Bounded(rank, bound)
    ensures Bounded(Shifted(nodes, rank, c, level), bound)
  {
  }

  lemma {:induction false} DetachBounded(nodes: seq<Node>, rank: seq<nat>, live: set<nat>, c: nat, bound: nat)
    requires Forest(nodes, rank, live) && c in live
    requires MAX_DEPTH <= bound && Bounded(rank, bound)
    ensures c < |nodes| && Bounded(Shifted(nodes, rank, c, 0), bound)
  {
    hide Linked, Ranked, Reachable, Under, Low, Bounded;
    LiveRange(nodes, rank, live, c);
    LiveLow(nodes, rank, live, c);
    MoveBounded(nodes, rank, live, c, 0, bound);
  }

  lemma {:induction false} NewBounded(rank: seq<nat>, bound: nat)
    requires Bounded(rank, bound)
    ensures Bounded(rank + [0], bound)
  {
  }

  lemma {:induction false} DetachKeeps(nodes: seq<Node>, rank: seq<nat>, live: set<nat>, c: nat)
    requires Forest(nodes, rank, live) && c in live
    ensures Forest(Detached(nodes, c), Shifted(nodes, rank, c, 0), live)
  {
    hide Linked, Ranked, Reachable, Under, Low;
    LiveRange(nodes, rank, live, c);
    DetachLinked(nodes, c);
    DetachedParent(nodes, c);
    Moved(nodes, rank, Detached(nodes, c), c, 0);
    LiveLow(nodes, rank, live, c);
    MoveReachable(nodes, rank, live, Detached(nodes, c), c, 0);
  }

  lemma {:induction false} DetachedParent(nodes: seq<Node>, c: nat)
    requires c < |nodes| && (nodes[c].parent.Some? ==> nodes[c].parent.value < |nodes|)
    ensures Detached(nodes, c)[c].parent == None && |Detached(nodes, c)| == |nodes|
  {
  }

  lemma {:induction false} LiveRange(nodes: seq<Node>, rank: seq<nat>, live: set<nat>, c: nat)
    requires Ranked(nodes, rank) && Reachable(nodes, rank, live) && c in live
    ensures c < |nodes| == |rank| && rank[c] <= MAX_DEPTH
    ensures nodes[c].parent.Some? ==> nodes[c].parent.value < |nodes| && nodes[c].parent.value in live
  {
  }

  lemma {:induction false} LiveLow(nodes: seq<Node>, rank: seq<nat>, live: set<nat>, c: nat)
    requires Forest(nodes, rank, live) && c in live
    ensures Low(nodes, rank, c, MAX_DEPTH)
  {
    forall x | 0 <= x < |nodes| && Under(nodes, rank, x, c)
      ensures rank[x] <= rank[c] + MAX_DEPTH
    {
      LiveUnder(nodes, rank, live, x, c);
    }
  }

  lemma {:induction false} InsertKeeps(nodes: seq<Node>, rank: seq<nat>, live: set<nat>, p: nat, c: nat, ref: Option<nat>)
    requires p < |nodes| == |rank| && c < |nodes|
    requires nodes[c].parent.Some? ==> nodes[c].parent.value < |nodes|
    requires Forest(nodes, rank, live) && p in live && c in live
    requires !Under(nodes, rank, p, c) && rank[p] + 1 <= MAX_DEPTH
    requires Low(nodes, rank, c, MAX_DEPTH - (rank[p] + 1))
    ensures Forest(Inserted(nodes, p, c, ref), Shifted(nodes, rank, c, rank[p] + 1), live)
  {
    hide Linked, Ranked, Reachable, Low, Under, Inserted, SameParents;
    LiveRange(nodes, rank, live, p);
    LiveRange(nodes, rank, live, c);
    SelfUnder(nodes, rank, c);
    var nodes' := Inserted(nodes, p, c, ref);
    InsertLinked(nodes, p, c, ref);
    Moved(nodes, rank, nodes', c, rank[p] + 1);
    MoveReachable(nodes, rank, live, nodes', c, rank[p] + 1);
  }

  predicate Inserts(nodes: seq<Node>, p: nat, c: nat) {
    p < |nodes| && c < |nodes| && (nodes[c].parent.Some? ==> nodes[c].parent.value < |nodes|)
  }

  /** A child other than c is still there when c has been taken out. */
  lemma {:induction false} StillChild(nodes: seq<Node>, p: nat, r: nat, c: nat)
    requires Linked(nodes) && p < |nodes| && r < |nodes| && c < |nodes| && r != c
    requires nodes[r].parent == Some(p)
    requires nodes[c].parent.Some? ==> nodes[c].parent.value < |nodes|
    ensures r in Detached(nodes, c)[p].children
  {
    if nodes[c].parent == Some(p) {
      WithoutMembers(nodes[p].children, c);
    }
  }

  lemma {:induction false} SelfUnder(nodes: seq<Node>, rank: seq<nat>, c: nat)
    requires Ranked(nodes, rank) && c < |nodes|
    ensures Under(nodes, rank, c, c)
  {
  }

  lemma {:induction false} NewLinked(nodes: seq<Node>, content: Content)
    requires Linked(nodes)
    ensures Linked(nodes + [Node(content, None, [])])
  {
    var nodes' := nodes + [Node(content, None, [])];
    assert forall x :: 0 <= x < |nodes| ==> nodes'[x] == nodes[x];
    assert nodes'[|nodes|].children == [];
  }

  lemma {:induction false} NewKeeps(nodes: seq<Node>, rank: seq<nat>, live: set<nat>, content: Content)
    requires Forest(nodes, rank, live)
    ensures Forest(nodes + [Node(content, None, [])], rank + [0], live + {|nodes|})
  {
    hide Linked;
    var nodes' := nodes + [Node(content, None, [])];
    NewLinked(nodes, content);
    assert forall x :: 0 <= x < |nodes| ==> nodes'[x] == nodes[x] && (rank + [0])[x] == rank[x];
  }

  // ----- Replacing all children -----

  /** The first k children of n have lost their parent. */
  ghost function Cleared(nodes: seq<Node>, n: nat, k: nat): (r: seq<Node>)
    requires n < |nodes| && k <= |nodes[n].children|
    ensures |r| == |nodes|
  {
    var ids := nodes[n].children;
    seq(|nodes|, x requires 0 <= x < |nodes| =>
      Node(nodes[x].content, if x in ids[..k] then None else nodes[x].parent,
           if x == n then ids[k..] else nodes[x].children))
  }

  lemma {:induction false} ClearedNone(nodes: seq<Node>, n: nat)
    requires n < |nodes|
    ensures Cleared(nodes, n, 0) == nodes && nodes[n := nodes[n].(children := nodes[n].children)] == nodes
  {
  }

  lemma {:induction false} DetachFirst(v: seq<Node>, n: nat, c: nat)
    requires n < |v| && c < |v| && c != n && v[c].parent == Some(n)
    requires v[n].children != [] && v[n].children[0] == c
    ensures Detached(v, c) == v[n := v[n].(children := v[n].children[1..])][c := v[c].(parent := None)]
  {
    WithoutAt(v[n].children, c, 0);
    assert v[n].children[..0] + v[n].children[1..] == v[n].children[1..];
  }

  lemma {:induction false} ClearedNext(nodes: seq<Node>, n: nat, k: nat)
    requires n < |nodes| && k < |nodes[n].children|
    requires nodes[n].children[k] < |nodes| && nodes[n].children[k] != n
    ensures var c, v := nodes[n].children[k], Cleared(nodes, n, k);
      Cleared(nodes, n, k + 1) == v[n := v[n].(children := nodes[n].children[k + 1..])][c := v[c].(parent := None)]
  {
    var ids := nodes[n].children;
    assert ids[..k + 1] == ids[..k] + [ids[k]];
  }

  lemma {:induction false} NextChild(nodes: seq<Node>, n: nat, k: nat)
    requires Linked(nodes) && n < |nodes| && k < |nodes[n].children| && n !in nodes[n].children
    ensures var c, v := nodes[n].children[k], Cleared(nodes, n, k);
      c < |nodes| && c != n && v[c].parent == Some(n) && v[n].children == nodes[n].children[k..]
  {
    var ids := nodes[n].children;
    assert Distinct(ids) && ids[k] in ids;
  }

  lemma {:induction false} ClearedStep(nodes: seq<Node>, n: nat, k: nat)
    requires Linked(nodes) && n < |nodes| && k < |nodes[n].children| && n !in nodes[n].children
    ensures var c, v := nodes[n].children[k], Cleared(nodes, n, k);
      && c < |nodes| && c != n && v[c].parent == Some(n)
      && Cleared(nodes, n, k + 1) == Detached(v, c)
      && Cleared(nodes, n, k + 1) == v[n := v[n].(children := nodes[n].children[k + 1..])][c := v[c].(parent := None)]
  {
    hide Linked, Cleared, Detached;
    NextChild(nodes, n, k);
    DetachFirst(Cleared(nodes, n, k), n, nodes[n].children[k]);
    assert nodes[n].children[k..][1..] == nodes[n].children[k + 1..];
    ClearedNext(nodes, n, k);
  }

  /** The first child, linked by hand. */
  lemma {:induction false} FirstChild(nodes: seq<Node>, n: nat, t: nat)
    requires n < |nodes| && t < |nodes| && n != t
    requires nodes[n].children == [] && nodes[t].parent.None?
    ensures Inserted(nodes, n, t, None) == nodes[n := nodes[n].(children := [t])][t := nodes[t].(parent := Some(n))]
  {
    assert [t] + [] == [t];
  }

  lemma {:induction false} ClearedAll(nodes: seq<Node>, n: nat)
    requires n < |nodes|
    ensures Cleared(nodes, n, |nodes[n].children|)[n].children == []
  {
  }

  /** A node appended before its list is replaced is not among the children. */
  lemma {:induction false} ClearedOther(nodes: seq<Node>, leaf: Node, n: nat)
    requires Linked(nodes) && n < |nodes|
    ensures Cleared(nodes + [leaf], n, |nodes[n].children|) ==
      Cleared(nodes, n, |nodes[n].children|) + [Node(leaf.content, leaf.parent, leaf.children)]
  {
  }

  lemma {:induction false} ChildLive(nodes: seq<Node>, rank: seq<nat>, live: set<nat>, n: nat, c: nat)
    requires Forest(nodes, rank, live) && n in live && n < |nodes| && c < |nodes| && nodes[c].parent == Some(n)
    ensures c in live && |rank| == |nodes| && Shifted(nodes, rank, c, 0)[n] == rank[n]
  {
    if Under(nodes, rank, n, c) {
      UnderRank(nodes, rank, n, c);
    }
  }

  lemma {:induction false} NotOwnChild(nodes: seq<Node>, rank: seq<nat>, n: nat)
    requires Linked(nodes) && Ranked(nodes, rank) && n < |nodes|
    ensures n !in nodes[n].children
  {
  }

  lemma {:induction false} RelabelKeeps(nodes: seq<Node>, rank: seq<nat>, live: set<nat>, n: nat, content: Content)
    requires Forest(nodes, rank, live) && n < |nodes|
    ensures Forest(nodes[n := nodes[n].(content := content)], rank, live)
  {
    var nodes' := nodes[n := nodes[n].(content := content)];
    assert forall x :: 0 <= x < |nodes| ==> nodes'[x].parent == nodes[x].parent && nodes'[x].children == nodes[x].children;
  }

  lemma {:induction false} LeafOnly(nodes: seq<Node>, rank: seq<nat>, x: nat, t: nat)
    requires Linked(nodes) && Ranked(nodes, rank) && x < |nodes| && t < |nodes|
    requires nodes[t].children == [] && Under(nodes, rank, x, t)
    ensures x == t
    decreases rank[x]
  {
    if x != t {
      LeafOnly(nodes, rank, nodes[x].parent.value, t);
    }
  }

  lemma {:induction false} LeafLow(nodes: seq<Node>, rank: seq<nat>, t: nat, budget: nat, n: nat)
    requires Linked(nodes) && Ranked(nodes, rank) && t < |nodes| && nodes[t].children == [] && n < |nodes|
    ensures Low(nodes, rank, t, budget) && (n != t ==> !Under(nodes, rank, n, t))
  {
    forall x | 0 <= x < |nodes| && Under(nodes, rank, x, t)
      ensures x == t
    {
      LeafOnly(nodes, rank, x, t);
    }
  }

  /** The outcome of setting the text content of n. */
  ghost function TextStatus(nodes: seq<Node>, rank: seq<nat>, n: nat, text: string): Status
    requires Ranked(nodes, rank)
  {
    if n >= |nodes| then WrongDocument
    else if nodes[n].content.Text? || text == "" then Done
    else if |nodes| >= SCRIPT_NODE_LIMIT then NodeLimit
    else if rank[n] >= MAX_DEPTH then DepthLimit
    else Done
  }

  /** The document with n's text set: a text node's own text, or an element's only child. */
  ghost function WithText(nodes: seq<Node>, n: nat, text: string): seq<Node>
    requires n < |nodes|
  {
    if nodes[n].content.Text? then nodes[n := nodes[n].(content := Text(text))]
    else
      var cleared := Cleared(nodes, n, |nodes[n].children|);
      if text == "" then cleared
      else cleared[n := cleared[n].(children := [|nodes|])] + [Node(Text(text), Some(n), [])]
  }

  /** The text node that comes under n, which its new parent lets a script hold. */
  ghost function NewText(nodes: seq<Node>, n: nat, text: string): set<nat> {
    if n < |nodes| && nodes[n].content.Element? && text != "" then {|nodes|} else {}
  }

  /** Clearing the children of a live node makes them roots and leaves nothing deeper. */
  lemma {:induction false} ClearKeeps(nodes: seq<Node>, rank: seq<nat>, live: set<nat>, n: nat, k: nat, bound: nat)
      returns (r: seq<nat>)
    requires Forest(nodes, rank, live) && n in live && n < |nodes| == |rank| && k <= |nodes[n].children|
    requires MAX_DEPTH <= bound && Bounded(rank, bound)
    ensures Forest(Cleared(nodes, n, k), r, live) && Bounded(r, bound) && |r| == |nodes| && r[n] == rank[n]
    decreases k
  {
    hide Linked, Ranked, Reachable, Under, Shifted, Detached, Cleared, Bounded;
    if k == 0 {
      ClearedNone(nodes, n);
      r := rank;
    } else {
      var r0 := ClearKeeps(nodes, rank, live, n, k - 1, bound);
      var v, c := Cleared(nodes, n, k - 1), nodes[n].children[k - 1];
      NotOwnChild(nodes, rank, n);
      ClearedStep(nodes, n, k - 1);
      ChildLive(v, r0, live, n, c);
      DetachKeeps(v, r0, live, c);
      DetachBounded(v, r0, live, c, bound);
      r := Shifted(v, r0, c, 0);
    }
  }

  /** Setting the text of a live node keeps the forest, and a new text node is live. */
  lemma {:induction false} TextKeeps(nodes: seq<Node>, rank: seq<nat>, live: set<nat>, n: nat, text: string, bound: nat)
      returns (r: seq<nat>)
    requires Forest(nodes, rank, live) && n in live && n < |nodes|
    requires MAX_DEPTH <= bound && Bounded(rank, bound) && TextStatus(nodes, rank, n, text) == Done
    ensures Forest(WithText(nodes, n, text), r, live + NewText(nodes, n, text)) && Bounded(r, bound)
  {
    hide Linked, Ranked, Reachable, Under, Cleared, Bounded, Inserted, Shifted, Low;
    LiveRange(nodes, rank, live, n);
    assert live + {} == live;
    if nodes[n].content.Text? {
      RelabelKeeps(nodes, rank, live, n, Text(text));
      r := rank;
    } else {
      var cleared, t := Cleared(nodes, n, |nodes[n].children|), |nodes|;
      r := ClearKeeps(nodes, rank, live, n, |nodes[n].children|, bound);
      if text != "" {
        NewKeeps(cleared, r, live, Text(text));
        NewBounded(r, bound);
        ClearedAll(nodes, n);
        var v, r0 := cleared + [Node(Text(text), None, [])], r + [0];
        LeafLow(v, r0, t, MAX_DEPTH - (r0[n] + 1), n);
        FirstChild(v, n, t);
        InsertKeeps(v, r0, live + {t}, n, t, None);
        MoveBounded(v, r0, live + {t}, t, r0[n] + 1, bound);
        r := Shifted(v, r0, t, r0[n] + 1);
        assert WithText(nodes, n, text) == Inserted(v, n, t, None);
      }
    }
  }

  // ----- What the parser leaves -----

  ghost function Levels(nodes: seq<Node>): (r: seq<nat>)
    requires Forward(nodes)
    ensures |r| == |nodes|
    ensures forall x :: 0 <= x < |nodes| ==> r[x] == Level(nodes, x)
  {
    seq(|nodes|, x requires 0 <= x < |nodes| => Level(nodes, x))
  }

  /** A settled array with an empty stack is a forest whose levels are within the cap. */
  lemma {:induction false} SettledForest(arena: seq<Node>, limit: nat)
    requires Forward(arena) && Settled(arena, [], limit)
    ensures Linked(arena) && Ranked(arena, Levels(arena)) && Bounded(Levels(arena), limit)
  {
    forall x | 0 <= x < |arena|
      ensures Distinct(arena[x].children)
    {
    }
  }

  lemma {:induction false} ArenaForest(arena: seq<Node>)
    requires Forward(arena) && Settled(arena, [], MAX_DEPTH)
    ensures Forest(arena, Levels(arena), IdsBelow(|arena|)) && Bounded(Levels(arena), MAX_DEPTH)
  {
    SettledForest(arena, MAX_DEPTH);
    IdsBelowMembers(|arena|);
    hide Settled, Level, Linked, IdsBelow;
  }

  class Document {
    var nodes: seq<Node>
    ghost var rank: seq<nat>
    ghost var live: set<nat>
    /** The most ancestors any node can have, script-held or not. */
    ghost var bound: nat

    /** The document is a forest, no node a script can hold is too deep, and no other node is more
        than one level deeper. */
    ghost predicate Valid()
      reads this
    {
      Forest(nodes, rank, live) && MAX_DEPTH <= bound <= MAX_DEPTH + 1 && Bounded(rank, bound)
    }

    /** A handle of this document, or of another one. */
    ghost predicate Handle(n: nat)
      reads this
    {
      n < |nodes| ==> n in live
    }

    constructor ()
      ensures Valid() && nodes == [] && live == {} && bound == MAX_DEPTH
    {
      nodes, rank, live, bound := [], [], {}, MAX_DEPTH;
    }

    /** The document of an array the parser has filled under the cap of a page. */
    constructor FromArena(arena: seq<Node>)
      requires Forward(arena) && Settled(arena, [], MAX_DEPTH)
      ensures Valid() && nodes == arena && bound == MAX_DEPTH
      ensures live == IdsBelow(|arena|)
    {
      hide Forward, Settled, Level, Levels, Forest, Bounded, IdsBelow;
      ArenaForest(arena);
      nodes, rank, bound := arena, Levels(arena), MAX_DEPTH;
      live := IdsBelow(|arena|);
    }

    method CreateElement(name: Name, attributes: Attributes) returns (status: Status, id: nat)
      requires Valid()
      modifies this
      ensures Valid()
      ensures status == if |old(nodes)| >= SCRIPT_NODE_LIMIT then NodeLimit else Done
      ensures status == Done ==>
        id == |old(nodes)| && nodes == old(nodes) + [Node(Element(name, attributes), None, [])]
      ensures status != Done ==> nodes == old(nodes)
      ensures live == old(live) + (if status == Done then {id} else {}) && bound == old(bound)
    {
      hide Bounded;
      id := 0;
      if |nodes| >= SCRIPT_NODE_LIMIT {
        return NodeLimit, id;
      }
      NewKeeps(nodes, rank, live, Element(name, attributes));
      NewBounded(rank, bound);
      id := |nodes|;
      nodes := nodes + [Node(Element(name, attributes), None, [])];
      rank, live := rank + [0], live + {id};
      status := Done;
    }

    method Ancestors(n: nat) returns (depth: nat)
      requires Valid() && n < |nodes|
      ensures depth == rank[n]
    {
      hide Linked, Reachable;
      depth := 0;
      var m: Option<nat> := nodes[n].parent;
      while m.Some?
        invariant m.Some? ==> m.value < |nodes|
        invariant depth + (if m.Some? then rank[m.value] + 1 else 0) == rank[n]
        decreases if m.Some? then rank[m.value] + 1 else 0
      {
        depth := depth + 1;
        m := nodes[m.value].parent;
      }
    }

    method IsUnder(x: nat, a: nat) returns (under: bool)
      requires Valid() && x < |nodes|
      ensures under == Under(nodes, rank, x, a)
    {
      hide Linked, Reachable;
      var m: Option<nat> := Some(x);
      while m.Some?
        invariant m.Some? ==> m.value < |nodes|
        invariant Under(nodes, rank, x, a) == (m.Some? && Under(nodes, rank, m.value, a))
        decreases if m.Some? then rank[m.value] + 1 else 0
      {
        if m.value == a {
          return true;
        }
        m := nodes[m.value].parent;
      }
      under := false;
    }

    method Detach(c: nat)
      requires Valid() && c in live
      modifies this
      ensures Valid() && nodes == Detached(old(nodes), c)
      ensures live == old(live) && bound == old(bound) && rank == old(Shifted(nodes, rank, c, 0))
    {
      hide Linked, Ranked, Reachable, Under, Bounded;
      LiveRange(nodes, rank, live, c);
      DetachKeeps(nodes, rank, live, c);
      DetachBounded(nodes, rank, live, c, bound);
      rank := Shifted(nodes, rank, c, 0);
      if nodes[c].parent.None? {
        assert nodes == Detached(old(nodes), c);
        return;
      }
      var o := nodes[c].parent.value;
      var ids := nodes[o].children;
      var i := 0;
      while i < |ids| && ids[i] != c
        invariant i <= |ids|
        invariant forall k :: 0 <= k < i ==> ids[k] != c
      {
        i := i + 1;
      }
      WithoutAt(ids, c, i);
      if i < |ids| {
        nodes := nodes[o := nodes[o].(children := ids[..i] + ids[i + 1..])];
      }
      nodes := nodes[c := nodes[c].(parent := None)];
      assert nodes == Detached(old(nodes), c);
    }

    method RemoveChild(p: nat, c: nat) returns (status: Status)
      requires Valid() && Handle(c)
      modifies this
      ensures Valid() && live == old(live) && bound == old(bound)
      ensures status ==
        if p >= |old(nodes)| || c >= |old(nodes)| then WrongDocument
        else if old(nodes)[c].parent != Some(p) then NotChild
        else Done
      ensures nodes == if status == Done then Detached(old(nodes), c) else old(nodes)
    {
      hide Linked, Ranked, Reachable, Under;
      if p >= |nodes| || c >= |nodes| {
        return WrongDocument;
      }
      if nodes[c].parent != Some(p) {
        return NotChild;
      }
      Detach(c);
      status := Done;
    }

    method InsertBefore(p: nat, c: nat, ref: Option<nat>) returns (status: Status, changed: bool)
      requires Valid() && Handle(p) && Handle(c)
      modifies this
      ensures Valid() && live == old(live) && bound == old(bound)
      ensures status == old(InsertStatus(nodes, rank, p, c, ref))
      ensures changed <==> status == Done && ref != Some(c)
      ensures changed ==> old(Inserts(nodes, p, c)) && nodes == Inserted(old(nodes), p, c, ref)
      ensures !changed ==> nodes == old(nodes)
    {
      hide Linked, Ranked, Reachable, Under, Low, Shifted;
      changed := false;
      if p >= |nodes| || c >= |nodes| || (ref.Some? && ref.value >= |nodes|) {
        return WrongDocument, changed;
      }
      if ref.Some? && nodes[ref.value].parent != Some(p) {
        return ReferenceNotChild, changed;
      }
      if ref == Some(c) {
        return Done, changed;
      }
      var cyclic := IsUnder(p, c);
      if cyclic {
        return Cycle, changed;
      }
      var above := Ancestors(p);
      var depth := above + 1;
      if depth > MAX_DEPTH {
        return DepthLimit, changed;
      }
      var fits := FitsBelow(nodes, rank, c, MAX_DEPTH - depth);
      if !fits {
        return DepthLimit, changed;
      }
      Place(p, c, ref);
      return Done, true;
    }

    /** The edit itself: nothing below can fail. */
    method Place(p: nat, c: nat, ref: Option<nat>)
      requires Valid() && p in live && c in live && p < |nodes| && c < |nodes|
      requires ref.Some? ==> ref.value < |nodes| && nodes[ref.value].parent == Some(p) && ref.value != c
      requires !Under(nodes, rank, p, c) && rank[p] + 1 <= MAX_DEPTH
      requires Low(nodes, rank, c, MAX_DEPTH - (rank[p] + 1))
      modifies this
      ensures Valid() && live == old(live) && bound == old(bound)
      ensures old(Inserts(nodes, p, c)) && nodes == Inserted(old(nodes), p, c, ref)
    {
      hide Linked, Ranked, Reachable, Under, Low, Shifted, Detached, Bounded;
      LiveRange(nodes, rank, live, c);
      SelfUnder(nodes, rank, c);
      InsertKeeps(nodes, rank, live, p, c, ref);
      MoveBounded(nodes, rank, live, c, rank[p] + 1, bound);
      ghost var level := rank[p] + 1;
      ghost var rank' := Shifted(nodes, rank, c, level);
      if ref.Some? {
        StillChild(nodes, p, ref.value, c);
      }
      Detach(c);
      var ids := nodes[p].children;
      var index := |ids|;
      if ref.Some? {
        index := 0;
        while ids[index] != ref.value
          invariant index < |ids|
          invariant forall k :: 0 <= k < index ==> ids[k] != ref.value
          invariant ref.value in ids[index..]
          decreases |ids| - index
        {
          index := index + 1;
        }
      }
      PlacedAt(ids, ref, c, index);
      nodes := nodes[p := nodes[p].(children := ids[..index] + [c] + ids[index..])];
      nodes := nodes[c := nodes[c].(parent := Some(p))];
      assert nodes == Inserted(old(nodes), p, c, ref);
      rank := rank';
    }

    /** Gives the children of n no parent and n the given child list, here still empty. */
    method FreeChildren(n: nat) returns (removed: seq<nat>)
      requires Valid() && n in live && n < |nodes|
      modifies this
      ensures Valid() && live == old(live) && bound == old(bound) && removed == old(nodes)[n].children
      ensures nodes == Cleared(old(nodes), n, |old(nodes)[n].children|)
      ensures n < |rank| == |old(rank)| && rank[n] == old(rank)[n]
    {
      hide Linked, Ranked, Reachable, Under, Shifted, Detached, Cleared, Bounded;
      removed := nodes[n].children;
      ghost var base := nodes;
      LiveRange(nodes, rank, live, n);
      ClearedNone(base, n);
      NotOwnChild(nodes, rank, n);
      var i := 0;
      while i < |removed|
        invariant i <= |removed| && |nodes| == |base|
        invariant rank == old(rank) && live == old(live) && bound == old(bound)
        invariant nodes == Cleared(base, n, i)[n := Cleared(base, n, i)[n].(children := removed)]
      {
        ClearedStep(base, n, i);
        nodes := nodes[removed[i] := nodes[removed[i]].(parent := None)];
        i := i + 1;
      }
      nodes := nodes[n := nodes[n].(children := [])];
      ClearedAll(base, n);
      assert nodes == Cleared(base, n, i);
      rank := ClearKeeps(base, rank, live, n, i, bound);
    }

    /** Replaces the children of an element by one text node, none for the empty text. */
    method SetTextContent(n: nat, text: string) returns (status: Status, removed: seq<nat>)
      requires Valid() && Handle(n)
      modifies this
      ensures Valid() && bound == old(bound)
      ensures status == old(TextStatus(nodes, rank, n, text))
      ensures status != Done ==> nodes == old(nodes) && live == old(live) && removed == []
      ensures status == Done ==> nodes == WithText(old(nodes), n, text)
      ensures status == Done && nodes[n].content.Element? ==> removed == old(nodes)[n].children
      ensures live == old(live) + (if status == Done then NewText(old(nodes), n, text) else {})
    {
      hide Linked, Ranked, Reachable, Under, Low, Shifted, Detached, Cleared, Bounded;
      removed := [];
      if n >= |nodes| {
        return WrongDocument, removed;
      }
      LiveRange(nodes, rank, live, n);
      if nodes[n].content.Text? {
        RelabelKeeps(nodes, rank, live, n, Text(text));
        nodes := nodes[n := nodes[n].(content := Text(text))];
        return Done, removed;
      }
      if text != "" {
        if |nodes| >= SCRIPT_NODE_LIMIT {
          return NodeLimit, removed;
        }
        var above := Ancestors(n);
        if above >= MAX_DEPTH {
          return DepthLimit, removed;
        }
        ghost var before, rank0, live0 := nodes, rank, live;
        NewKeeps(nodes, rank, live, Text(text));
        NewBounded(rank, bound);
        var t := |nodes|;
        nodes := nodes + [Node(Text(text), None, [])];
        rank, live := rank + [0], live + {t};
        ClearedAll(nodes, n);
        removed := FreeChildren(n);
        ClearedOther(before, Node(Text(text), None, []), n);
        nodes := nodes[n := nodes[n].(children := [t])];
        nodes := nodes[t := nodes[t].(parent := Some(n))];
        assert nodes == WithText(before, n, text);
        rank := TextKeeps(before, rank0, live0, n, text, bound);
      } else {
        removed := FreeChildren(n);
      }
      status := Done;
    }
  }
}
