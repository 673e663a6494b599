/** tai_node_set_inner_html of src/dom.c: parse a fragment under the depth cap of its place, then
    adopt the children of its last body. */
module DomInnerHtml {
  import opened Results
  import opened HtmlMachine
  import opened HtmlOrder
  import opened HtmlArena
  import opened HtmlBuilder
  import opened DomForest
  import opened DomDepth
  import opened DomDocument
  import opened DomAdopt

  // ----- The last body in pre-order -----

  function LastNamed(w: seq<Entry>, name: Name): Option<nat> {
    if w == [] then None
    else if HasName(w[|w| - 1].content, name) then Some(w[|w| - 1].id)
    else LastNamed(w[..|w| - 1], name)
  }

  lemma {:induction false} LastNamedConcat(v: seq<Entry>, w: seq<Entry>, name: Name)
    ensures LastNamed(v + w, name) == if LastNamed(w, name).Some? then LastNamed(w, name) else LastNamed(v, name)
    decreases |w|
  {
    if w == [] {
      assert v + w == v;
    } else {
      assert (v + w)[..|v + w| - 1] == v + w[..|w| - 1];
      LastNamedConcat(v, w[..|w| - 1], name);
    }
  }

  /** The walks of the trees on a stack, top first. */
  ghost function WalkStack(nodes: seq<Node>, stack: seq<nat>): seq<Entry>
    requires Forward(nodes)
    requires forall i :: 0 <= i < |stack| ==> stack[i] < |nodes|
  {
    if stack == [] then []
    else Walk(TreeOf(nodes, stack[|stack| - 1]), 0) + WalkStack(nodes, stack[..|stack| - 1])
  }

  function Reversed(s: seq<nat>): (r: seq<nat>)
    ensures |r| == |s| && forall k :: 0 <= k < |s| ==> r[k] == s[|s| - 1 - k]
  {
    seq(|s|, k requires 0 <= k < |s| => s[|s| - 1 - k])
  }

  /** Depth plays no part in the order or the names. */
  lemma {:induction false} LastNamedDepth(t: Tree, d: nat, e: nat, name: Name)
    ensures |Walk(t, d)| == |Walk(t, e)| >= 1
    ensures LastNamed(Walk(t, d), name) == LastNamed(Walk(t, e), name)
    decreases t, 1
  {
    LastNamedDepths(t.kids, d + 1, e + 1, name);
    LastNamedConcat([Entry(t.id, t.content, d)], WalkAll(t.kids, d + 1), name);
    LastNamedConcat([Entry(t.id, t.content, e)], WalkAll(t.kids, e + 1), name);
    hide LastNamed;
    LastNamedOne(Entry(t.id, t.content, d), name);
    LastNamedOne(Entry(t.id, t.content, e), name);
  }

  lemma {:induction false} LastNamedOne(e: Entry, name: Name)
    ensures LastNamed([e], name) == if HasName(e.content, name) then Some(e.id) else None
  {
    assert LastNamed([e][..0], name) == None;
  }

  lemma {:induction false} LastNamedDepths(ts: seq<Tree>, d: nat, e: nat, name: Name)
    ensures |WalkAll(ts, d)| == |WalkAll(ts, e)|
    ensures LastNamed(WalkAll(ts, d), name) == LastNamed(WalkAll(ts, e), name)
    decreases ts, 0
  {
    if ts != [] {
      var front, last := ts[..|ts| - 1], ts[|ts| - 1];
      LastNamedDepths(front, d, e, name);
      LastNamedDepth(last, d, e, name);
      LastNamedConcat(WalkAll(front, d), Walk(last, d), name);
      LastNamedConcat(WalkAll(front, e), Walk(last, e), name);
    }
  }

  /** Pushing the children of x, last first, in place of x. */
  lemma {:induction false} WalkPushed(nodes: seq<Node>, rest: seq<nat>, kids: seq<nat>, name: Name)
    requires Forward(nodes)
    requires forall i :: 0 <= i < |rest| ==> rest[i] < |nodes|
    requires forall i :: 0 <= i < |kids| ==> kids[i] < |nodes|
    ensures var stack := rest + Reversed(kids);
      && |WalkStack(nodes, stack)| == |WalkAll(TreesOf(nodes, kids), 1)| + |WalkStack(nodes, rest)|
      && LastNamed(WalkStack(nodes, stack), name) ==
           LastNamed(WalkAll(TreesOf(nodes, kids), 1) + WalkStack(nodes, rest), name)
    decreases |kids|
  {
    hide Walk, TreeOf, LastNamed, WalkStack;
    var stack := rest + Reversed(kids);
    if kids == [] {
      assert stack == rest;
      assert WalkAll(TreesOf(nodes, kids), 1) + WalkStack(nodes, rest) == WalkStack(nodes, rest);
    } else {
      hide WalkAll, TreesOf;
      var front, last := kids[..|kids| - 1], kids[|kids| - 1];
      assert kids == front + [last];
      var rest' := rest + [last];
      assert stack == rest' + Reversed(front);
      WalkPushed(nodes, rest', front, name);
      PushedOne(nodes, rest, front, last, name);
    }
  }

  lemma {:induction false} PushedOne(nodes: seq<Node>, rest: seq<nat>, front: seq<nat>, last: nat, name: Name)
    requires Forward(nodes) && last < |nodes|
    requires forall i :: 0 <= i < |rest| ==> rest[i] < |nodes|
    requires forall i :: 0 <= i < |front| ==> front[i] < |nodes|
    ensures WalkStack(nodes, rest + [last]) == Walk(TreeOf(nodes, last), 0) + WalkStack(nodes, rest)
    ensures WalkAll(TreesOf(nodes, front + [last]), 1) == WalkAll(TreesOf(nodes, front), 1) + Walk(TreeOf(nodes, last), 1)
    ensures |Walk(TreeOf(nodes, last), 0)| == |Walk(TreeOf(nodes, last), 1)|
    ensures LastNamed(WalkAll(TreesOf(nodes, front), 1) + WalkStack(nodes, rest + [last]), name) ==
      LastNamed(WalkAll(TreesOf(nodes, front + [last]), 1) + WalkStack(nodes, rest), name)
  {
    hide LastNamed, Walk, TreeOf;
    var a := WalkAll(TreesOf(nodes, front), 1);
    var b0, b1 := Walk(TreeOf(nodes, last), 0), Walk(TreeOf(nodes, last), 1);
    var c := WalkStack(nodes, rest);
    assert (rest + [last])[..|rest|] == rest;
    assert TreesOf(nodes, front + [last])[..|front|] == TreesOf(nodes, front);
    LastNamedDepth(TreeOf(nodes, last), 0, 1, name);
    LastNamedConcat(a, b0 + c, name);
    LastNamedConcat(b0, c, name);
    LastNamedConcat(a + b1, c, name);
    LastNamedConcat(a, b1, name);
  }

  lemma {:induction false} PoppedOne(nodes: seq<Node>, stack: seq<nat>, name: Name)
    requires Forward(nodes) && stack != []
    requires forall i :: 0 <= i < |stack| ==> stack[i] < |nodes|
    ensures var x, rest := stack[|stack| - 1], stack[..|stack| - 1];
      var kids := WalkAll(TreesOf(nodes, nodes[x].children), 1);
      && |WalkStack(nodes, stack)| == 1 + |kids| + |WalkStack(nodes, rest)|
      && LastNamed(WalkStack(nodes, stack), name) ==
           if LastNamed(kids + WalkStack(nodes, rest), name).Some?
           then LastNamed(kids + WalkStack(nodes, rest), name)
           else if HasName(nodes[x].content, name) then Some(x) else None
  {
    hide LastNamed;
    var x, rest := stack[|stack| - 1], stack[..|stack| - 1];
    var t := TreeOf(nodes, x);
    var kids := WalkAll(TreesOf(nodes, nodes[x].children), 1);
    assert t.kids == TreesOf(nodes, nodes[x].children);
    var e := Entry(x, nodes[x].content, 0);
    assert WalkStack(nodes, stack) == [e] + (kids + WalkStack(nodes, rest));
    LastNamedConcat([e], kids + WalkStack(nodes, rest), name);
    LastNamedOne(e, name);
  }

  /** The walk with an explicit stack that keeps the last body it meets. */
  method FindBody(nodes: seq<Node>, root: nat) returns (body: Option<nat>)
    requires Forward(nodes) && root < |nodes|
    ensures body == LastNamed(Walk(TreeOf(nodes, root), 0), Body)
  {
    hide LastNamed, Walk, TreeOf, TreesOf, WalkStack;
    var stack: seq<nat> := [root];
    body := None;
    ghost var goal := LastNamed(Walk(TreeOf(nodes, root), 0), Body);
    SingleStack(nodes, root);
    while |stack| > 0
      invariant forall i :: 0 <= i < |stack| ==> stack[i] < |nodes|
      invariant goal == var rest := LastNamed(WalkStack(nodes, stack), Body); if rest.Some? then rest else body
      decreases |WalkStack(nodes, stack)|
    {
      var x := stack[|stack| - 1];
      PoppedOne(nodes, stack, Body);
      stack := stack[..|stack| - 1];
      WalkPushed(nodes, stack, nodes[x].children, Body);
      if HasName(nodes[x].content, Body) {
        body := Some(x);
      }
      ghost var rest := stack;
      var i := |nodes[x].children|;
      while i > 0
        invariant 0 <= i <= |nodes[x].children|
        invariant stack == rest + Reversed(nodes[x].children)[..|nodes[x].children| - i]
      {
        stack := stack + [nodes[x].children[i - 1]];
        i := i - 1;
      }
      assert stack == rest + Reversed(nodes[x].children);
    }
    NoStack(nodes);
  }

  lemma {:induction false} SingleStack(nodes: seq<Node>, root: nat)
    requires Forward(nodes) && root < |nodes|
    ensures WalkStack(nodes, [root]) == Walk(TreeOf(nodes, root), 0)
  {
    assert [root][..0] == [];
    assert WalkStack(nodes, []) == [];
  }

  lemma {:induction false} NoStack(nodes: seq<Node>)
    requires Forward(nodes)
    ensures LastNamed(WalkStack(nodes, []), Body) == None
  {
  }

  // ----- What the parser promises of a fragment -----

  ghost predicate Known(nodes: seq<Node>, root: nat, e: Entry) {
    e.id < |nodes| && e.content == nodes[e.id].content && (e.id == root || nodes[e.id].parent.Some?)
  }

  /** Every node met by a walk is the root or has a parent. */
  lemma {:induction false} WalkKnown(nodes: seq<Node>, limit: nat, id: nat, depth: nat)
    requires Forward(nodes) && Settled(nodes, [], limit) && id < |nodes|
    ensures forall k :: 0 <= k < |Walk(TreeOf(nodes, id), depth)| ==> Known(nodes, id, Walk(TreeOf(nodes, id), depth)[k])
    decreases |nodes| - id, 1, 0
  {
    var t := TreeOf(nodes, id);
    assert t.kids == TreesOf(nodes, nodes[id].children);
    WalkAllKnown(nodes, limit, id, nodes[id].children, depth + 1);
  }

  lemma {:induction false} WalkAllKnown(nodes: seq<Node>, limit: nat, id: nat, ids: seq<nat>, depth: nat)
    requires Forward(nodes) && Settled(nodes, [], limit) && id < |nodes|
    requires forall i :: 0 <= i < |ids| ==> id < ids[i] < |nodes| && nodes[ids[i]].parent.Some?
    ensures forall k :: 0 <= k < |WalkAll(TreesOf(nodes, ids), depth)| ==>
      Known(nodes, id, WalkAll(TreesOf(nodes, ids), depth)[k])
    decreases |nodes| - id, 0, |ids|
  {
    if ids != [] {
      hide Settled;
      var front, last := ids[..|ids| - 1], ids[|ids| - 1];
      assert TreesOf(nodes, ids)[..|ids| - 1] == TreesOf(nodes, front);
      WalkAllKnown(nodes, limit, id, front, depth);
      WalkKnown(nodes, limit, last, depth);
      assert WalkAll(TreesOf(nodes, ids), depth) == WalkAll(TreesOf(nodes, front), depth) + Walk(TreeOf(nodes, last), depth);
    }
  }

  lemma {:induction false} LastNamedFound(w: seq<Entry>, name: Name) returns (k: nat)
    requires LastNamed(w, name).Some?
    ensures k < |w| && w[k].id == LastNamed(w, name).value && HasName(w[k].content, name)
    decreases |w|
  {
    k := |w| - 1;
    if !HasName(w[k].content, name) {
      k := LastNamedFound(w[..k], name);
    }
  }

  /** The body of a fragment is not its root. */
  lemma {:induction false} BodyInside(fragment: seq<Node>, limit: nat, root: nat)
    requires Forward(fragment) && Settled(fragment, [], limit) && root < |fragment|
    requires HasName(fragment[root].content, Html)
    ensures var body := LastNamed(Walk(TreeOf(fragment, root), 0), Body);
      body.Some? ==> body.value < |fragment| && HasName(fragment[body.value].content, Body) &&
                     fragment[body.value].parent.Some?
  {
    hide Walk, TreeOf, LastNamed, Settled;
    var w := Walk(TreeOf(fragment, root), 0);
    WalkKnown(fragment, limit, root, 0);
    if LastNamed(w, Body).Some? {
      var k := LastNamedFound(w, Body);
      assert Known(fragment, root, w[k]);
    }
  }

  function FragmentLimit(depth: nat): nat {
    if depth + 3 > MAX_DEPTH + 1 then 3 else MAX_DEPTH + 1 - depth
  }

  /** Under the fragment's depth limit nothing below its body can be too deep at its new place, up
      to a depth of 510. */
  lemma {:induction false} BodyFits(fragment: seq<Node>, depth: nat, body: nat)
    requires depth <= 510
    requires Forward(fragment) && Settled(fragment, [], FragmentLimit(depth)) && body < |fragment|
    requires fragment[body].parent.Some?
    requires Ranked(fragment, Levels(fragment))
    ensures Low(fragment, Levels(fragment), body, MAX_DEPTH - depth)
  {
    hide Under;
    assert Level(fragment, body) >= 1;
  }

  // ----- Adopting the fragment -----

  /** The document after its children of n are those of the fragment's body. */
  ghost function WithInner(nodes: seq<Node>, n: nat, fragment: seq<Node>, body: Option<nat>): seq<Node>
    requires n < |nodes| && (body.Some? ==> body.value < |fragment|)
  {
    var joined := Joined(Cleared(nodes, n, |nodes[n].children|), fragment);
    if body.None? then joined else Adopted(joined, n, |nodes| + body.value)
  }

  /** The nodes that come under n. */
  ghost function NewLive(nodes: seq<Node>, rank: seq<nat>, live: set<nat>, b: nat): set<nat>
    requires Ranked(nodes, rank)
  {
    live + set x: nat | x < |nodes| && Beneath(nodes, rank, x, b)
  }

  lemma {:induction false} JoinedReachable(nodes: seq<Node>, rank: seq<nat>, live: set<nat>, fragment: seq<Node>, levels: seq<nat>)
    requires Forest(nodes, rank, live) && Ranked(fragment, levels) && Linked(fragment)
    ensures Forest(Joined(nodes, fragment), rank + levels, live)
  {
    JoinLinked(nodes, fragment);
    JoinRanked(nodes, rank, fragment, levels);
    hide Linked, Ranked;
    forall x | 0 <= x < |nodes| + |fragment|
      ensures Joined(nodes, fragment)[x].parent.Some? ==>
        (x in live <==> Joined(nodes, fragment)[x].parent.value in live)
    {
      JoinedAt(nodes, fragment, x);
      LiveIndex(nodes, rank, live);
    }
    assert forall x :: x in live ==> x < |nodes| && (rank + levels)[x] == rank[x];
  }

  lemma {:induction false} LiveIndex(nodes: seq<Node>, rank: seq<nat>, live: set<nat>)
    requires Forest(nodes, rank, live)
    ensures |rank| == |nodes| && forall x :: x in live ==> x < |nodes|
    ensures forall x :: 0 <= x < |nodes| && nodes[x].parent.Some? ==> nodes[x].parent.value < |nodes|
  {
  }

  /** After the move the live nodes are again whole trees. */
  lemma {:induction false} AdoptWhole(nodes: seq<Node>, rank: seq<nat>, live: set<nat>, n: nat, b: nat, x: nat)
    requires Ranked(nodes, rank) && Reachable(nodes, rank, live) && n in live && n < |nodes| && b < |nodes| && b !in live
    requires x < |nodes| && Adopted(nodes, n, b)[x].parent.Some?
    requires Adopted(nodes, n, b)[x].parent.value < |nodes|
    ensures x in NewLive(nodes, rank, live, b) <==>
      Adopted(nodes, n, b)[x].parent.value in NewLive(nodes, rank, live, b)
  {
    assert nodes[x].parent.Some?;
    var q := nodes[x].parent.value;
    assert q < |nodes|;
    assert Under(nodes, rank, x, b) <==> (x == b || Under(nodes, rank, q, b));
    assert Under(nodes, rank, b, b);
    hide Ranked, Under;
    if x == b && Under(nodes, rank, q, b) {
      UnderRank(nodes, rank, q, b);
      assert false;
    }
  }

  lemma {:induction false} AdoptReachable(nodes: seq<Node>, rank: seq<nat>, live: set<nat>, n: nat, b: nat)
    requires Forest(nodes, rank, live) && n in live && n < |nodes| && b < |nodes| && b !in live
    requires nodes[n].children == []
    requires forall x :: 0 <= x < |nodes| && Under(nodes, rank, x, b) ==> rank[x] - rank[b] + rank[n] <= MAX_DEPTH
    ensures Forest(Adopted(nodes, n, b), AdoptedRank(nodes, rank, n, b), NewLive(nodes, rank, live, b))
  {
    var nodes', rank' := Adopted(nodes, n, b), AdoptedRank(nodes, rank, n, b);
    var live' := NewLive(nodes, rank, live, b);
    NotUnder(nodes, rank, live, n, b);
    AdoptLinked(nodes, n, b);
    AdoptRanked(nodes, rank, n, b);
    LiveIndex(nodes, rank, live);
    ParentIndex(nodes', rank');
    LiveRank(nodes, rank, live);
    hide Linked, Ranked, Under;
    forall x | 0 <= x < |nodes'| && nodes'[x].parent.Some?
      ensures x in live' <==> nodes'[x].parent.value in live'
    {
      AdoptWhole(nodes, rank, live, n, b, x);
    }
    forall x | x in live'
      ensures x < |nodes'| && rank'[x] <= MAX_DEPTH
    {
      if x in live {
        NotUnder(nodes, rank, live, x, b);
      }
    }
  }

  lemma {:induction false} ParentIndex(nodes: seq<Node>, rank: seq<nat>)
    requires Ranked(nodes, rank)
    ensures |rank| == |nodes|
    ensures forall x :: 0 <= x < |nodes| && nodes[x].parent.Some? ==> nodes[x].parent.value < |nodes|
  {
  }

  lemma {:induction false} LiveRank(nodes: seq<Node>, rank: seq<nat>, live: set<nat>)
    requires Ranked(nodes, rank) && Reachable(nodes, rank, live)
    ensures forall x :: x in live ==> x < |rank| && rank[x] <= MAX_DEPTH
  {
  }

  /** A live node is not under one that is not live. */
  lemma {:induction false} NotUnder(nodes: seq<Node>, rank: seq<nat>, live: set<nat>, x: nat, b: nat)
    requires Forest(nodes, rank, live) && x < |nodes| && b < |nodes| && b !in live
    ensures x in live ==> !Under(nodes, rank, x, b)
  {
    if Under(nodes, rank, x, b) {
      LiveUnder(nodes, rank, live, x, b);
    }
  }

  /** Going up from x in the joined document stays on its side. */
  lemma {:induction false} ClimbSame(all: seq<Node>, r: seq<nat>, fragment: seq<Node>, levels: seq<nat>, off: nat, x: nat, body: nat)
    requires Ranked(all, r) && Ranked(fragment, levels)
    requires |all| == off + |fragment| && x < |all| && body < |fragment|
    requires forall y :: 0 <= y < off && all[y].parent.Some? ==> all[y].parent.value < off
    requires forall y :: off <= y < |all| ==> SameParent(all[y], fragment[y - off], off)
    ensures Under(all, r, x, off + body) <==> x >= off && Under(fragment, levels, x - off, body)
    decreases r[x]
  {
    if x != off + body && all[x].parent.Some? {
      ClimbSame(all, r, fragment, levels, off, all[x].parent.value, body);
    }
  }

  predicate SameParent(x: Node, y: Node, off: nat) {
    x.parent == if y.parent.Some? then Some(y.parent.value + off) else None
  }

  lemma {:induction false} JoinedParentAt(nodes: seq<Node>, fragment: seq<Node>, y: nat)
    requires y < |nodes| + |fragment|
    ensures y < |nodes| ==> Joined(nodes, fragment)[y] == nodes[y]
    ensures y >= |nodes| ==> SameParent(Joined(nodes, fragment)[y], fragment[y - |nodes|], |nodes|)
  {
    JoinedAt(nodes, fragment, y);
    hide Joined;
  }

  lemma {:induction false} JoinedParents(nodes: seq<Node>, rank: seq<nat>, fragment: seq<Node>)
    requires Ranked(nodes, rank)
    ensures var all := Joined(nodes, fragment);
      && (forall y :: 0 <= y < |nodes| && all[y].parent.Some? ==> all[y].parent.value < |nodes|)
      && (forall y :: |nodes| <= y < |all| ==> SameParent(all[y], fragment[y - |nodes|], |nodes|))
  {
    ParentIndex(nodes, rank);
    var all := Joined(nodes, fragment);
    hide Ranked, Joined, SameParent;
    forall y | 0 <= y < |all|
      ensures y < |nodes| && all[y].parent.Some? ==> all[y].parent.value < |nodes|
      ensures y >= |nodes| ==> SameParent(all[y], fragment[y - |nodes|], |nodes|)
    {
      JoinedParentAt(nodes, fragment, y);
    }
  }

  /** What is under a node of the fragment is the same in the joined document. */
  lemma {:induction false} JoinedUnder(nodes: seq<Node>, rank: seq<nat>, fragment: seq<Node>, levels: seq<nat>, x: nat, body: nat)
    requires Ranked(nodes, rank) && Ranked(fragment, levels)
    requires Ranked(Joined(nodes, fragment), rank + levels)
    requires x < |nodes| + |fragment| && body < |fragment|
    ensures Under(Joined(nodes, fragment), rank + levels, x, |nodes| + body) <==>
      x >= |nodes| && Under(fragment, levels, x - |nodes|, body)
  {
    hide Ranked, Under, Joined, SameParent;
    JoinedParents(nodes, rank, fragment);
    ClimbSame(Joined(nodes, fragment), rank + levels, fragment, levels, |nodes|, x, body);
  }

  lemma {:induction false} RankSizes(nodes: seq<Node>, rank: seq<nat>)
    requires Ranked(nodes, rank)
    ensures |rank| == |nodes|
  {
  }

  /** A body low enough in its fragment is low enough in the joined document. */
  lemma {:induction false} JoinedLow(nodes: seq<Node>, rank: seq<nat>, fragment: seq<Node>, levels: seq<nat>, n: nat, body: nat)
    requires Ranked(nodes, rank) && Ranked(fragment, levels) && n < |nodes| && body < |fragment|
    requires Ranked(Joined(nodes, fragment), rank + levels)
    requires rank[n] <= MAX_DEPTH && Low(fragment, levels, body, MAX_DEPTH - rank[n])
    ensures var all, r := Joined(nodes, fragment), rank + levels;
      forall x :: 0 <= x < |all| && Under(all, r, x, |nodes| + body) ==>
        r[x] - r[|nodes| + body] + r[n] <= MAX_DEPTH
  {
    var all, r := Joined(nodes, fragment), rank + levels;
    var b := |nodes| + body;
    hide Ranked, Under, Joined;
    RankSizes(nodes, rank);
    RankSizes(fragment, levels);
    forall x | 0 <= x < |all| && Under(all, r, x, b)
      ensures r[x] - r[b] + r[n] <= MAX_DEPTH
    {
      JoinedUnder(nodes, rank, fragment, levels, x, body);
      assert levels[x - |nodes|] <= levels[body] + (MAX_DEPTH - rank[n]);
    }
  }

  // ----- Nodes left outside the adopted body -----

  /** The nodes of a fragment that do not come under the node that adopts the body's children. */
  ghost predicate Leftover(fragment: seq<Node>, body: Option<nat>, x: nat)
    requires Forward(fragment) && Ranked(fragment, Levels(fragment))
  {
    x < |fragment| && (body.Some? ==> !Beneath(fragment, Levels(fragment), x, body.value))
  }

  ghost predicate Keeps(fragment: seq<Node>, body: Option<nat>, bound: nat)
    requires Forward(fragment) && Ranked(fragment, Levels(fragment))
  {
    forall x: nat :: Leftover(fragment, body, x) ==> Level(fragment, x) <= bound
  }

  /** Leftover nodes keep their levels, all others come under n. */
  lemma {:induction false} AdoptedRankAt(nodes: seq<Node>, rank: seq<nat>, fragment: seq<Node>, n: nat, body: nat, x: nat)
    requires Ranked(nodes, rank) && Forward(fragment) && Ranked(fragment, Levels(fragment))
    requires n < |nodes| == |rank| && body < |fragment| && rank[n] <= MAX_DEPTH
    requires Low(fragment, Levels(fragment), body, MAX_DEPTH - rank[n])
    requires Ranked(Joined(nodes, fragment), rank + Levels(fragment))
    requires x < |nodes| + |fragment|
    ensures var r := AdoptedRank(Joined(nodes, fragment), rank + Levels(fragment), n, |nodes| + body);
      if x < |nodes| then r[x] == rank[x]
      else if Leftover(fragment, Some(body), x - |nodes|) then r[x] == Level(fragment, x - |nodes|)
      else r[x] <= MAX_DEPTH
  {
    hide Ranked, Under, Joined, Low, Level, AdoptedRank;
    RankSizes(Joined(nodes, fragment), rank + Levels(fragment));
    JoinedUnder(nodes, rank, fragment, Levels(fragment), x, body);
    JoinedLow(nodes, rank, fragment, Levels(fragment), n, body);
  }

  lemma {:induction false} AdoptBounded(nodes: seq<Node>, rank: seq<nat>, fragment: seq<Node>, n: nat, body: nat, bound: nat)
    requires Ranked(nodes, rank) && Forward(fragment) && Ranked(fragment, Levels(fragment))
    requires n < |nodes| && body < |fragment| && rank[n] <= MAX_DEPTH <= bound
    requires Low(fragment, Levels(fragment), body, MAX_DEPTH - rank[n])
    requires Ranked(Joined(nodes, fragment), rank + Levels(fragment))
    requires Bounded(rank, bound) && Keeps(fragment, Some(body), bound)
    ensures Bounded(AdoptedRank(Joined(nodes, fragment), rank + Levels(fragment), n, |nodes| + body), bound)
  {
    RankSizes(nodes, rank);
    RankSizes(Joined(nodes, fragment), rank + Levels(fragment));
    var r := AdoptedRank(Joined(nodes, fragment), rank + Levels(fragment), n, |nodes| + body);
    hide Ranked, Low, Joined, AdoptedRank, Leftover;
    forall x | 0 <= x < |r|
      ensures r[x] <= bound
    {
      AdoptedRankAt(nodes, rank, fragment, n, body, x);
    }
  }

  lemma {:induction false} JoinBounded(rank: seq<nat>, fragment: seq<Node>, bound: nat)
    requires Forward(fragment) && Ranked(fragment, Levels(fragment))
    requires Bounded(rank, bound) && Keeps(fragment, None, bound)
    ensures Bounded(rank + Levels(fragment), bound)
  {
    hide Level;
    assert forall x: nat :: x < |fragment| ==> Leftover(fragment, None, x);
  }

  lemma {:induction false} KeepsMore(fragment: seq<Node>, body: Option<nat>, bound: nat)
    requires Forward(fragment) && Ranked(fragment, Levels(fragment)) && Bounded(Levels(fragment), bound)
    ensures Keeps(fragment, body, bound)
  {
    hide Level, Beneath;
  }

  /** Adopted, with only the first i children handed over so far. */
  ghost function Handed(nodes: seq<Node>, n: nat, b: nat, i: nat): (r: seq<Node>)
    requires n < |nodes| && b < |nodes| && i <= |nodes[b].children|
    ensures |r| == |nodes|
  {
    var kids := nodes[b].children;
    seq(|nodes|, x requires 0 <= x < |nodes| =>
      Node(nodes[x].content, if x in kids[..i] then Some(n) else nodes[x].parent,
           if x == n then kids else if x == b then [] else nodes[x].children))
  }

  lemma {:induction false} HandedNone(nodes: seq<Node>, n: nat, b: nat)
    requires n < |nodes| && b < |nodes| && n != b
    ensures Handed(nodes, n, b, 0) ==
      nodes[n := nodes[n].(children := nodes[b].children)][b := nodes[b].(children := [])]
  {
  }

  lemma {:induction false} HandedNext(nodes: seq<Node>, n: nat, b: nat, i: nat)
    requires n < |nodes| && b < |nodes| && i < |nodes[b].children| && nodes[b].children[i] < |nodes|
    ensures var c, v := nodes[b].children[i], Handed(nodes, n, b, i);
      Handed(nodes, n, b, i + 1) == v[c := v[c].(parent := Some(n))]
  {
    var kids := nodes[b].children;
    assert kids[..i + 1] == kids[..i] + [kids[i]];
  }

  lemma {:induction false} HandedAll(nodes: seq<Node>, n: nat, b: nat)
    requires Linked(nodes) && n < |nodes| && b < |nodes|
    ensures Handed(nodes, n, b, |nodes[b].children|) == Adopted(nodes, n, b)
  {
    var kids := nodes[b].children;
    assert kids[..|kids|] == kids;
    forall x | 0 <= x < |nodes|
      ensures x in kids <==> nodes[x].parent == Some(b)
    {
    }
  }

  lemma {:induction false} ChildRange(nodes: seq<Node>, b: nat)
    requires Linked(nodes) && b < |nodes|
    ensures forall k :: 0 <= k < |nodes[b].children| ==> nodes[b].children[k] < |nodes|
  {
  }

  // ----- The operation -----

  /** What one parse of the wrapped markup leaves behind. */
  ghost predicate Parsed(fragment: seq<Node>, root: nat, limit: nat, budget: nat, tokens: seq<Token>)
    requires limit >= 3
  {
    && Forward(fragment) && Settled(fragment, [], limit) && root < |fragment| && fragment[root].parent == None
    && HtmlMachine.Parse(Some(limit), budget, tokens) == Outcome.Ok((|fragment|, TreeOf(fragment, root)))
  }

  function Room(count: nat): nat {
    if count < SCRIPT_NODE_LIMIT then SCRIPT_NODE_LIMIT - count else 0
  }

  /** The status once the markup is parsed. */
  ghost function AdoptStatus(count: nat, depth: nat, fragment: seq<Node>, body: Option<nat>): Status
    requires depth <= MAX_DEPTH && Forward(fragment) && Ranked(fragment, Levels(fragment))
    requires body.Some? ==> body.value < |fragment|
  {
    if body.Some? && !Low(fragment, Levels(fragment), body.value, MAX_DEPTH - depth) then DepthLimit
    else if count + |fragment| > SCRIPT_NODE_LIMIT then NodeLimit
    else Done
  }

  /** A fragment parsed for a place no deeper than 510 fits there. */
  lemma {:induction false} ParsedFits(fragment: seq<Node>, root: nat, depth: nat, budget: nat, tokens: seq<Token>)
    requires depth <= 510 && Parsed(fragment, root, FragmentLimit(depth), budget, tokens)
    ensures Ranked(fragment, Levels(fragment))
    ensures var body := LastNamed(Walk(TreeOf(fragment, root), 0), Body);
      body.Some? ==> body.value < |fragment| && Low(fragment, Levels(fragment), body.value, MAX_DEPTH - depth)
  {
    hide Settled, Ranked, Low, Levels, LastNamed, Walk, HtmlMachine.Parse;
    ParsedDocument(Some(FragmentLimit(depth)), budget, tokens);
    assert TreeOf(fragment, root).content == fragment[root].content;
    hide TreeOf;
    SettledForest(fragment, FragmentLimit(depth));
    BodyInside(fragment, FragmentLimit(depth), root);
    var body := LastNamed(Walk(TreeOf(fragment, root), 0), Body);
    if body.Some? {
      BodyFits(fragment, depth, body.value);
    }
  }

  lemma {:induction false} ParsedBody(fragment: seq<Node>, root: nat, limit: nat, budget: nat, tokens: seq<Token>)
    requires limit >= 3 && Parsed(fragment, root, limit, budget, tokens)
    ensures Linked(fragment) && Ranked(fragment, Levels(fragment)) && Bounded(Levels(fragment), limit)
    ensures var body := LastNamed(Walk(TreeOf(fragment, root), 0), Body);
      body.Some? ==> body.value < |fragment|
  {
    hide Settled, Ranked, Levels, LastNamed, Walk, HtmlMachine.Parse, Bounded;
    SettledForest(fragment, limit);
    ParsedDocument(Some(limit), budget, tokens);
    assert TreeOf(fragment, root).content == fragment[root].content;
    hide TreeOf;
    BodyInside(fragment, limit, root);
  }

  /** The most ancestors a node can have after the fragment has joined. */
  ghost function NewBound(fragment: seq<Node>, body: Option<nat>, bound: nat): nat
    requires Forward(fragment) && Ranked(fragment, Levels(fragment))
  {
    if Keeps(fragment, body, bound) then bound else MAX_DEPTH + 1
  }

  /** Does x, an id of the document, come from the fragment and under the node whose markup is set? */
  ghost predicate Comes(offset: nat, fragment: seq<Node>, body: Option<nat>, x: nat)
    requires Forward(fragment) && Ranked(fragment, Levels(fragment))
  {
    offset <= x < offset + |fragment| && !Leftover(fragment, body, x - offset)
  }

  ghost function Brought(offset: nat, fragment: seq<Node>, body: Option<nat>): set<nat>
    requires Forward(fragment) && Ranked(fragment, Levels(fragment))
  {
    set x: nat | x < offset + |fragment| && Comes(offset, fragment, body, x)
  }

  lemma {:induction false} BroughtAt(nodes: seq<Node>, rank: seq<nat>, fragment: seq<Node>, body: nat, x: nat)
    requires Ranked(nodes, rank) && Forward(fragment) && Ranked(fragment, Levels(fragment)) && body < |fragment|
    requires Ranked(Joined(nodes, fragment), rank + Levels(fragment)) && x < |nodes| + |fragment|
    ensures Beneath(Joined(nodes, fragment), rank + Levels(fragment), x, |nodes| + body) <==>
      Comes(|nodes|, fragment, Some(body), x)
  {
    hide Ranked, Under, Joined, Levels;
    JoinedUnder(nodes, rank, fragment, Levels(fragment), x, body);
  }

  /** They are what the adoption makes live. */
  lemma {:induction false} BroughtLive(nodes: seq<Node>, rank: seq<nat>, live: set<nat>, fragment: seq<Node>, body: nat)
    requires Ranked(nodes, rank) && Forward(fragment) && Ranked(fragment, Levels(fragment)) && body < |fragment|
    requires Ranked(Joined(nodes, fragment), rank + Levels(fragment))
    ensures NewLive(Joined(nodes, fragment), rank + Levels(fragment), live, |nodes| + body) ==
      live + Brought(|nodes|, fragment, Some(body))
  {
    hide Ranked, Beneath, Joined, Levels, Comes;
    var more := NewLive(Joined(nodes, fragment), rank + Levels(fragment), live, |nodes| + body);
    forall x: nat | x < |nodes| + |fragment|
      ensures x in more <==> x in live + Brought(|nodes|, fragment, Some(body))
    {
      BroughtAt(nodes, rank, fragment, body, x);
    }
  }

  /** Setting the markup of a live node keeps the forest: what comes under it becomes live, and the
      bound on all nodes grows only with what the fragment leaves outside its body. */
  lemma {:induction false} InnerKeeps(nodes: seq<Node>, rank: seq<nat>, live: set<nat>, n: nat, fragment: seq<Node>,
                                      body: Option<nat>, bound: nat)
      returns (r: seq<nat>)
    requires Forest(nodes, rank, live) && n in live && n < |nodes| == |rank| && rank[n] <= MAX_DEPTH
    requires MAX_DEPTH <= bound <= MAX_DEPTH + 1 && Bounded(rank, bound)
    requires Forward(fragment) && Linked(fragment) && Ranked(fragment, Levels(fragment))
    requires Bounded(Levels(fragment), MAX_DEPTH + 1)
    requires body.Some? ==> body.value < |fragment| && Low(fragment, Levels(fragment), body.value, MAX_DEPTH - rank[n])
    ensures Forest(WithInner(nodes, n, fragment, body), r, live + Brought(|nodes|, fragment, body))
    ensures Bounded(r, NewBound(fragment, body, bound)) && |r| == |nodes| + |fragment|
    ensures forall x: nat :: Leftover(fragment, body, x) ==> |nodes| + x < |r| && r[|nodes| + x] == Level(fragment, x)
  {
    hide Linked, Ranked, Reachable, Under, Levels, Level, Low, Cleared, Joined, Adopted, AdoptedRank, NewLive, Bounded,
         Keeps, Leftover, Brought;
    var levels, bound' := Levels(fragment), NewBound(fragment, body, bound);
    var base := Cleared(nodes, n, |nodes[n].children|);
    var rank0 := ClearKeeps(nodes, rank, live, n, |nodes[n].children|, bound);
    ClearedAll(nodes, n);
    LiveIndex(base, rank0, live);
    JoinedReachable(base, rank0, live, fragment, levels);
    RankSizes(fragment, levels);
    KeepsMore(fragment, body, MAX_DEPTH + 1);
    BoundedMore(rank0, bound, bound');
    LeftoverRange(fragment, body);
    if body.Some? {
      JoinedAt(base, fragment, n);
      Adopting(base, rank0, live, fragment, n, body.value, bound');
      BroughtLive(base, rank0, live, fragment, body.value);
      r := AdoptedRank(Joined(base, fragment), rank0 + levels, n, |nodes| + body.value);
    } else {
      JoinBounded(rank0, fragment, bound');
      JoinedLevels(rank0, fragment);
      BroughtNone(|nodes|, fragment);
      assert live + {} == live;
      r := rank0 + levels;
    }
  }

  lemma {:induction false} BroughtNone(offset: nat, fragment: seq<Node>)
    requires Forward(fragment) && Ranked(fragment, Levels(fragment))
    ensures Brought(offset, fragment, None) == {}
  {
  }

  /** The edit itself: the old children become roots, the fragment's nodes join the document, and
      the children of its body become the children of n. */
  method Adopt(d: Document, n: nat, fragment: seq<Node>, body: Option<nat>) returns (removed: seq<nat>)
    requires d.Valid() && n in d.live && n < |d.nodes| == |d.rank| && d.rank[n] <= MAX_DEPTH
    requires Forward(fragment) && Linked(fragment) && Ranked(fragment, Levels(fragment))
    requires Bounded(Levels(fragment), MAX_DEPTH + 1)
    requires body.Some? ==> body.value < |fragment| && Low(fragment, Levels(fragment), body.value, MAX_DEPTH - d.rank[n])
    modifies d
    ensures d.Valid() && d.live == old(d.live) + Brought(|old(d.nodes)|, fragment, body)
    ensures d.nodes == WithInner(old(d.nodes), n, fragment, body)
    ensures removed == old(d.nodes)[n].children
    ensures d.bound == NewBound(fragment, body, old(d.bound))
    ensures |d.rank| == |old(d.nodes)| + |fragment|
    ensures forall x: nat :: Leftover(fragment, body, x) ==>
      |old(d.nodes)| + x < |d.rank| && d.rank[|old(d.nodes)| + x] == Level(fragment, x)
  {
    hide Linked, Ranked, Reachable, Under, Levels, Level, Low, Cleared, Joined, RenumberedAll, Adopted, Handed, Bounded,
         Keeps, Leftover, Brought;
    ghost var r := InnerKeeps(d.nodes, d.rank, d.live, n, fragment, body, d.bound);
    ghost var bound', live' := NewBound(fragment, body, d.bound), d.live + Brought(|d.nodes|, fragment, body);
    var offset := |d.nodes|;
    removed := d.FreeChildren(n);
    JoinLinked(d.nodes, fragment);
    Append(d, fragment);
    if body.Some? {
      MoveChildren(d, n, offset + body.value);
    }
    d.rank, d.live, d.bound := r, live', bound';
  }

  lemma {:induction false} BoundedMore(rank: seq<nat>, bound: nat, more: nat)
    requires Bounded(rank, bound) && bound <= more
    ensures Bounded(rank, more)
  {
  }

  lemma {:induction false} JoinedLevels(rank: seq<nat>, fragment: seq<Node>)
    requires Forward(fragment) && Ranked(fragment, Levels(fragment))
    ensures forall x: nat :: Leftover(fragment, None, x) ==> (rank + Levels(fragment))[|rank| + x] == Level(fragment, x)
  {
    hide Level;
  }

  /** The nodes outside the adopted body stay as deep as they were. */
  lemma {:induction false} LeftoverRanks(nodes: seq<Node>, rank: seq<nat>, fragment: seq<Node>, n: nat, body: nat)
    requires Ranked(nodes, rank) && Forward(fragment) && Ranked(fragment, Levels(fragment))
    requires n < |nodes| == |rank| && body < |fragment| && rank[n] <= MAX_DEPTH
    requires Low(fragment, Levels(fragment), body, MAX_DEPTH - rank[n])
    requires Ranked(Joined(nodes, fragment), rank + Levels(fragment))
    ensures var r := AdoptedRank(Joined(nodes, fragment), rank + Levels(fragment), n, |nodes| + body);
      forall x: nat :: Leftover(fragment, Some(body), x) ==>
        x < |fragment| && |nodes| + x < |r| && r[|nodes| + x] == Level(fragment, x)
  {
    hide Linked, Ranked, Under, Levels, Level, Low, Joined, AdoptedRank, Leftover;
    RankSizes(fragment, Levels(fragment));
    LeftoverRange(fragment, Some(body));
    RankSizes(Joined(nodes, fragment), rank + Levels(fragment));
    forall x: nat | Leftover(fragment, Some(body), x)
      ensures AdoptedRank(Joined(nodes, fragment), rank + Levels(fragment), n, |nodes| + body)[|nodes| + x] == Level(fragment, x)
    {
      AdoptedRankAt(nodes, rank, fragment, n, body, |nodes| + x);
      assert |nodes| + x - |nodes| == x;
    }
  }

  lemma {:induction false} Adopting(nodes: seq<Node>, rank: seq<nat>, live: set<nat>, fragment: seq<Node>, n: nat, body: nat, bound: nat)
    requires Forest(nodes, rank, live) && Forward(fragment) && Ranked(fragment, Levels(fragment))
    requires Forest(Joined(nodes, fragment), rank + Levels(fragment), live)
    requires n in live && n < |nodes| == |rank| && body < |fragment| && rank[n] <= MAX_DEPTH <= bound
    requires Low(fragment, Levels(fragment), body, MAX_DEPTH - rank[n])
    requires Joined(nodes, fragment)[n].children == []
    requires Bounded(rank, bound) && Keeps(fragment, Some(body), bound)
    ensures var joined, r, b := Joined(nodes, fragment), rank + Levels(fragment), |nodes| + body;
      && Forest(Adopted(joined, n, b), AdoptedRank(joined, r, n, b), NewLive(joined, r, live, b))
      && Bounded(AdoptedRank(joined, r, n, b), bound)
      && forall x: nat :: Leftover(fragment, Some(body), x) ==>
           x < |fragment| && AdoptedRank(joined, r, n, b)[|nodes| + x] == Level(fragment, x)
  {
    var levels := Levels(fragment);
    var joined, r, b := Joined(nodes, fragment), rank + levels, |nodes| + body;
    LiveIndex(nodes, rank, live);
    RankSizes(fragment, levels);
    hide Linked, Ranked, Reachable, Under, Levels, Level, Low, Joined, Adopted, AdoptedRank, NewLive, Bounded, Keeps, Leftover;
    JoinedLow(nodes, rank, fragment, levels, n, body);
    AdoptReachable(joined, r, live, n, b);
    AdoptBounded(nodes, rank, fragment, n, body, bound);
    LeftoverRanks(nodes, rank, fragment, n, body);
  }

  lemma {:induction false} LeftoverRange(fragment: seq<Node>, body: Option<nat>)
    requires Forward(fragment) && Ranked(fragment, Levels(fragment))
    ensures forall x: nat :: Leftover(fragment, body, x) ==> x < |fragment|
  {
  }

  method Append(d: Document, fragment: seq<Node>)
    modifies d`nodes
    ensures d.nodes == Joined(old(d.nodes), fragment)
  {
    var offset := |d.nodes|;
    ghost var goal := RenumberedAll(fragment, offset);
    var i := 0;
    while i < |fragment|
      invariant i <= |fragment| && d.nodes == old(d.nodes) + goal[..i]
    {
      d.nodes := d.nodes + [Renumbered(fragment[i], offset)];
      i := i + 1;
    }
    assert goal[..i] == goal;
  }

  method MoveChildren(d: Document, n: nat, b: nat)
    requires Linked(d.nodes) && n < |d.nodes| && b < |d.nodes| && n != b
    modifies d`nodes
    ensures d.nodes == Adopted(old(d.nodes), n, b)
  {
    hide Linked, Adopted, Handed;
    ghost var joined := d.nodes;
    var kids := d.nodes[b].children;
    ChildRange(joined, b);
    HandedNone(joined, n, b);
    d.nodes := d.nodes[n := d.nodes[n].(children := kids)];
    d.nodes := d.nodes[b := d.nodes[b].(children := [])];
    var i := 0;
    while i < |kids|
      invariant i <= |kids| && d.nodes == Handed(joined, n, b, i)
    {
      HandedNext(joined, n, b, i);
      d.nodes := d.nodes[kids[i] := d.nodes[kids[i]].(parent := Some(n))];
      i := i + 1;
    }
    HandedAll(joined, n, b);
  }

  /** The status of setting the inner markup of a node at the given depth, from the parse of the
      tokens and the last body in it. */
  ghost predicate Decided(count: nat, depth: nat, tokens: seq<Token>, status: Status,
                          fragment: seq<Node>, root: nat, body: Option<nat>)
    requires depth <= MAX_DEPTH
  {
    var limit, budget := FragmentLimit(depth), Room(count) + 1;
    match HtmlMachine.Parse(Some(limit), budget, tokens)
    case Invalid => status == ParseError
    case OverBudget => status == NodeLimit
    case Ok(_) =>
      && Parsed(fragment, root, limit, budget, tokens)
      && body == LastNamed(Walk(TreeOf(fragment, root), 0), Body)
      && (body.Some? ==> body.value < |fragment|)
      && Ranked(fragment, Levels(fragment))
      && status == AdoptStatus(count, depth, fragment, body)
  }

  lemma {:induction false} InitialInv(limit: nat, budget: nat)
    requires limit >= 3
    ensures Inv(Initial(Some(limit), budget))
  {
    assert WalkOpen([]) == [];
  }

  method ParseFragment(limit: nat, budget: nat, tokens: seq<Token>)
      returns (status: Status, fragment: seq<Node>, root: nat)
    requires limit >= 3
    ensures match HtmlMachine.Parse(Some(limit), budget, tokens)
      case Invalid => status == ParseError
      case OverBudget => status == NodeLimit
      case Ok(_) => status == Done && Parsed(fragment, root, limit, budget, tokens)
  {
    hide Settled, TreeOf, HtmlMachine.Parse;
    var b := new Builder(limit, budget);
    InitialInv(limit, budget);
    assert b.limit == limit && b.budget == budget;
    var ok, top := b.Parse(tokens);
    fragment, root := b.nodes, top;
    status := if b.invalid then ParseError else if b.overBudget then NodeLimit else Done;
  }

  /** A fragment for a node with a parent leaves nothing too deep anywhere. */
  lemma {:induction false} CapKeeps(fragment: seq<Node>, depth: nat, body: Option<nat>)
    requires 1 <= depth <= MAX_DEPTH && Forward(fragment) && Ranked(fragment, Levels(fragment))
    requires Bounded(Levels(fragment), FragmentLimit(depth))
    ensures Keeps(fragment, body, MAX_DEPTH)
  {
    BoundedMore(Levels(fragment), FragmentLimit(depth), MAX_DEPTH);
    KeepsMore(fragment, body, MAX_DEPTH);
  }

  lemma {:induction false} KeepsTo(fragment: seq<Node>, body: Option<nat>, bound: nat, more: nat)
    requires Forward(fragment) && Ranked(fragment, Levels(fragment)) && Keeps(fragment, body, bound) && bound <= more
    ensures Keeps(fragment, body, more)
  {
  }

  /** Replaces the children of n by those of the last body of the parsed tokens. A failing call
      changes nothing, and up to depth 510 the parser's cap leaves nothing too deep. The bound on all
      nodes grows only when the fragment leaves a node deeper than that outside its body, which no
      fragment does for a node with a parent. */
  method SetInnerHtml(d: Document, n: nat, tokens: seq<Token>)
      returns (status: Status, removed: seq<nat>, ghost fragment: seq<Node>, ghost root: nat, ghost body: Option<nat>)
    requires d.Valid() && d.Handle(n)
    modifies d
    ensures d.Valid() && old(d.live) <= d.live
    ensures n >= |old(d.nodes)| ==> status == WrongDocument
    ensures n < |old(d.nodes)| ==> n < |old(d.rank)| && old(d.rank)[n] <= MAX_DEPTH
    ensures n < |old(d.nodes)| ==> Decided(|old(d.nodes)|, old(d.rank)[n], tokens, status, fragment, root, body)
    ensures status == Done ==>
      && n < |old(d.nodes)| && (body.Some? ==> body.value < |fragment|)
      && d.nodes == WithInner(old(d.nodes), n, fragment, body)
      && removed == old(d.nodes)[n].children
    ensures status != Done ==>
      d.nodes == old(d.nodes) && d.live == old(d.live) && d.rank == old(d.rank) && d.bound == old(d.bound) && removed == []
    ensures status == Done ==>
      && Forward(fragment) && Ranked(fragment, Levels(fragment)) && |d.rank| == |old(d.nodes)| + |fragment|
      && d.bound == NewBound(fragment, body, old(d.bound))
      && d.live == old(d.live) + Brought(|old(d.nodes)|, fragment, body)
      && forall x: nat :: Leftover(fragment, body, x) ==>
           |old(d.nodes)| + x < |d.rank| && d.rank[|old(d.nodes)| + x] == Level(fragment, x)
    ensures n < |old(d.nodes)| && old(d.rank)[n] >= 1 ==> d.bound == old(d.bound)
    ensures n < |old(d.nodes)| && old(d.rank)[n] <= 510 ==> status != DepthLimit
  {
    hide Linked, Ranked, Reachable, Under, Levels, Level, Low, Settled, Walk, TreeOf, LastNamed, HtmlMachine.Parse,
         HtmlMachine.Initial, WithInner, Bounded, Keeps, Leftover, Brought;
    removed, fragment, root, body := [], [], 0, None;
    if n >= |d.nodes| {
      return WrongDocument, removed, fragment, root, body;
    }
    LiveRange(d.nodes, d.rank, d.live, n);
    var depth := d.Ancestors(n);
    var limit, budget := FragmentLimit(depth), Room(|d.nodes|) + 1;
    var nodes, top;
    status, nodes, top := ParseFragment(limit, budget, tokens);
    if status != Done {
      return status, removed, fragment, root, body;
    }
    fragment, root := nodes, top;
    ParsedBody(fragment, root, limit, budget, tokens);
    var found := FindBody(nodes, top);
    body := found;
    if depth <= 510 {
      ParsedFits(fragment, root, depth, budget, tokens);
    }
    if found.Some? {
      var fits := FitsBelow(nodes, Levels(nodes), found.value, MAX_DEPTH - depth);
      if !fits {
        return DepthLimit, removed, fragment, root, body;
      }
    }
    if |nodes| > SCRIPT_NODE_LIMIT || |d.nodes| > SCRIPT_NODE_LIMIT - |nodes| {
      return NodeLimit, removed, fragment, root, body;
    }
    BoundedMore(Levels(nodes), limit, MAX_DEPTH + 1);
    if depth >= 1 {
      CapKeeps(nodes, depth, found);
      KeepsTo(nodes, found, MAX_DEPTH, d.bound);
    }
    removed := Adopt(d, n, nodes, found);
    status := Done;
  }

  /** tai_html_parse: the document of a page, all of whose nodes a script may come to hold. */
  method HtmlParse(tokens: seq<Token>) returns (status: Status, page: Document?, root: nat)
    ensures match HtmlMachine.Parse(Some(MAX_DEPTH), 0, tokens)
      case Invalid => status == ParseError && page == null
      case OverBudget => status == NodeLimit && page == null
      case Ok(_) =>
        && status == Done && page != null && page.Valid() && page.bound == MAX_DEPTH
        && Parsed(page.nodes, root, MAX_DEPTH, 0, tokens) && page.live == IdsBelow(|page.nodes|)
  {
    hide Settled, HtmlMachine.Parse;
    var nodes;
    page := null;
    status, nodes, root := ParseFragment(MAX_DEPTH, 0, tokens);
    if status == Done {
      page := new Document.FromArena(nodes);
    }
  }
}
