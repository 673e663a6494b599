/** When tai_node_set_inner_html of src/dom.c keeps every node within the depth bound, exactly. */
module DomBound {
  import opened Results
  import opened HtmlMachine
  import opened HtmlOrder
  import opened HtmlWrapped
  import opened HtmlArena
  import opened DomForest
  import opened DomDepth
  import opened DomDocument
  import opened DomAdopt
  import opened DomInnerHtml
  import opened DeepFragment

  /** Whatever fragment the tokens parse to, if it is adopted it leaves no node too deep. */
  ghost predicate StaysBounded(count: nat, depth: nat, tokens: seq<Token>)
    requires depth <= MAX_DEPTH
  {
    forall fragment, root, body :: Decided(count, depth, tokens, Done, fragment, root, body) ==>
      Keeps(fragment, body, MAX_DEPTH)
  }

  // ----- A node with a parent -----

  lemma {:induction false} ParentKeeps(count: nat, depth: nat, tokens: seq<Token>)
    requires 1 <= depth <= MAX_DEPTH
    ensures StaysBounded(count, depth, tokens)
  {
    hide Settled, HtmlMachine.Parse, LastNamed, Walk, TreeOf, Low, Keeps, Bounded, Linked;
    forall fragment, root, body | Decided(count, depth, tokens, Done, fragment, root, body)
      ensures Keeps(fragment, body, MAX_DEPTH)
    {
      SettledForest(fragment, FragmentLimit(depth));
      CapKeeps(fragment, depth, body);
    }
  }

  // ----- No room -----

  lemma {:induction false} LevelBelowId(nodes: seq<Node>, x: nat)
    requires Forward(nodes) && x < |nodes|
    ensures Level(nodes, x) <= x
    decreases x
  {
    if nodes[x].parent.Some? {
      LevelBelowId(nodes, nodes[x].parent.value);
    }
  }

  /** A node as deep as its id stands below all nodes before it. */
  lemma {:induction false} Chain(nodes: seq<Node>, x: nat, y: nat)
    requires Forward(nodes) && Ranked(nodes, Levels(nodes)) && y <= x < |nodes| && Level(nodes, x) == x
    ensures Level(nodes, y) == y && Under(nodes, Levels(nodes), x, y)
    ensures y > 0 ==> nodes[y].parent.Some?
    decreases x
  {
    if nodes[x].parent.Some? {
      var p := nodes[x].parent.value;
      LevelBelowId(nodes, p);
      assert p == x - 1;
      if y < x {
        hide Ranked;
        Chain(nodes, p, y);
      }
    }
  }

  ghost predicate Levelled(nodes: seq<Node>, offset: int, e: Entry)
    requires Forward(nodes)
  {
    e.id < |nodes| && e.depth == offset + Level(nodes, e.id)
  }

  ghost predicate AllLevelled(nodes: seq<Node>, offset: int, w: seq<Entry>)
    requires Forward(nodes)
  {
    forall k :: 0 <= k < |w| ==> Levelled(nodes, offset, w[k])
  }

  lemma {:induction false} LevelledJoin(nodes: seq<Node>, offset: int, v: seq<Entry>, w: seq<Entry>)
    requires Forward(nodes) && AllLevelled(nodes, offset, v) && AllLevelled(nodes, offset, w)
    ensures AllLevelled(nodes, offset, v + w)
  {
    hide Levelled;
  }

  /** The depths of a walk are the levels of its nodes. */
  lemma {:induction false} WalkLevels(nodes: seq<Node>, limit: nat, id: nat, depth: nat)
    requires Forward(nodes) && Settled(nodes, [], limit) && id < |nodes|
    ensures AllLevelled(nodes, depth - Level(nodes, id), Walk(TreeOf(nodes, id), depth))
    decreases |nodes| - id, 1, 0
  {
    var t, offset := TreeOf(nodes, id), depth - Level(nodes, id);
    assert t.kids == TreesOf(nodes, nodes[id].children);
    WalkAllLevels(nodes, limit, id, nodes[id].children, depth + 1);
    LevelledJoin(nodes, offset, [Entry(id, t.content, depth)], WalkAll(t.kids, depth + 1));
  }

  lemma {:induction false} WalkAllLevels(nodes: seq<Node>, limit: nat, id: nat, ids: seq<nat>, depth: nat)
    requires Forward(nodes) && Settled(nodes, [], limit) && id < |nodes|
    requires forall i :: 0 <= i < |ids| ==> id < ids[i] < |nodes| && nodes[ids[i]].parent == Some(id)
    ensures AllLevelled(nodes, depth - Level(nodes, id) - 1, WalkAll(TreesOf(nodes, ids), depth))
    decreases |nodes| - id, 0, |ids|
  {
    if ids != [] {
      var front, last := ids[..|ids| - 1], ids[|ids| - 1];
      assert Level(nodes, last) == 1 + Level(nodes, id);
      hide Settled, Level, AllLevelled, Walk, WalkAll, TreeOf, TreesOf;
      WalkAllLevels(nodes, limit, id, front, depth);
      WalkLevels(nodes, limit, last, depth);
      WalkAllSplit(nodes, ids, depth);
      LevelledJoin(nodes, depth - Level(nodes, last), WalkAll(TreesOf(nodes, front), depth), Walk(TreeOf(nodes, last), depth));
    }
  }

  lemma {:induction false} WalkAllSplit(nodes: seq<Node>, ids: seq<nat>, depth: nat)
    requires Forward(nodes) && ids != [] && forall i :: 0 <= i < |ids| ==> ids[i] < |nodes|
    ensures var front, last := ids[..|ids| - 1], ids[|ids| - 1];
      WalkAll(TreesOf(nodes, ids), depth) == WalkAll(TreesOf(nodes, front), depth) + Walk(TreeOf(nodes, last), depth)
  {
    var front := ids[..|ids| - 1];
    hide Walk, TreeOf;
    assert TreesOf(nodes, ids)[..|ids| - 1] == TreesOf(nodes, front);
  }

  lemma {:induction false} NamedIsFound(w: seq<Entry>, name: Name, k: nat)
    requires k < |w| && HasName(w[k].content, name)
    ensures LastNamed(w, name).Some?
    decreases |w|
  {
    if !HasName(w[|w| - 1].content, name) {
      NamedIsFound(w[..|w| - 1], name, k);
    }
  }

  /** The last body of wrapped markup whose root is its first node exists and is no deeper than the
      elements the cap allows. */
  lemma {:induction false} BodyAbove(fragment: seq<Node>, root: nat, limit: nat, budget: nat, rest: seq<Token>)
    requires limit >= 3 && (budget == 0 || budget >= 2)
    requires Parsed(fragment, root, limit, budget, Wrapped(rest)) && root == 0 && |fragment| >= 2
    ensures var body := LastNamed(Walk(TreeOf(fragment, root), 0), Body);
      body.Some? && body.value < |fragment| && Level(fragment, body.value) < limit
  {
    var t := TreeOf(fragment, root);
    var w := Walk(t, 0);
    assert t.id == root;
    hide Walk, TreeOf, LastNamed, HtmlMachine.Parse, Settled, Level;
    ParsedDocument(Some(limit), budget, Wrapped(rest));
    WrappedBody(Some(limit), budget, rest);
    assert w[1].id == 1;
    NamedIsFound(w, Body, 1);
    var k := LastNamedFound(w, Body);
    assert Shallow(w[k], limit);
    WalkLevels(fragment, limit, root, 0);
    assert Levelled(fragment, 0 - Level(fragment, root), w[k]);
    RootLevel(fragment, root);
  }

  lemma {:induction false} RootLevel(nodes: seq<Node>, root: nat)
    requires Forward(nodes) && root < |nodes| && nodes[root].parent == None
    ensures Level(nodes, root) == 0
  {
  }

  /** A fragment of 514 nodes cannot leave one with 513 ancestors outside its body. */
  lemma {:induction false} SmallKeeps(fragment: seq<Node>, root: nat, budget: nat, rest: seq<Token>, x: nat)
    requires |fragment| <= MAX_DEPTH + 2 && (budget == 0 || budget >= 2)
    requires Parsed(fragment, root, MAX_DEPTH + 1, budget, Wrapped(rest)) && Ranked(fragment, Levels(fragment))
    requires x < |fragment| && Level(fragment, x) > MAX_DEPTH
    ensures var body := LastNamed(Walk(TreeOf(fragment, root), 0), Body);
      body.Some? && body.value < |fragment| && Beneath(fragment, Levels(fragment), x, body.value)
  {
    LevelBelowId(fragment, x);
    assert x == MAX_DEPTH + 1;
    assert Level(fragment, x) == x by {
      assert Settled(fragment, [], MAX_DEPTH + 1);
    }
    Chain(fragment, x, root);
    hide Walk, TreeOf, LastNamed, HtmlMachine.Parse, Settled, Level, Ranked, Under;
    BodyAbove(fragment, root, MAX_DEPTH + 1, budget, rest);
    Chain(fragment, x, LastNamed(Walk(TreeOf(fragment, root), 0), Body).value);
  }

  lemma {:induction false} NoRoomKeeps(count: nat, rest: seq<Token>)
    requires count + MAX_DEPTH + 3 > SCRIPT_NODE_LIMIT
    ensures StaysBounded(count, 0, Wrapped(rest))
  {
    hide Settled, HtmlMachine.Parse, LastNamed, Walk, TreeOf, Low, Level, Ranked, Beneath;
    forall fragment, root, body | Decided(count, 0, Wrapped(rest), Done, fragment, root, body)
      ensures Keeps(fragment, body, MAX_DEPTH)
    {
      assert count + |fragment| <= SCRIPT_NODE_LIMIT;
      if |fragment| >= 2 {
        forall x: nat | Leftover(fragment, body, x)
          ensures Level(fragment, x) <= MAX_DEPTH
        {
          if Level(fragment, x) > MAX_DEPTH {
            SmallKeeps(fragment, root, Room(count) + 1, rest, x);
            assert false;
          }
        }
      } else {
        forall x: nat | Leftover(fragment, body, x)
          ensures Level(fragment, x) <= MAX_DEPTH
        {
          LevelBelowId(fragment, x);
        }
      }
    }
  }

  // ----- The exact condition -----

  /** What a caller can check before setting the markup of n. */
  predicate Safe(nodes: seq<Node>, n: nat)
    requires n < |nodes|
  {
    nodes[n].parent.Some? || |nodes| + MAX_DEPTH + 3 > SCRIPT_NODE_LIMIT
  }

  /** No markup whatever leaves a node too deep, exactly when n is safe. */
  lemma {:induction false} SafeExactly(nodes: seq<Node>, rank: seq<nat>, n: nat)
    requires Ranked(nodes, rank) && n < |nodes| && rank[n] <= MAX_DEPTH
    ensures Safe(nodes, n) <==> forall rest :: StaysBounded(|nodes|, rank[n], Wrapped(rest))
  {
    RankZero(nodes, rank, n);
    hide StaysBounded, Ranked;
    if nodes[n].parent.Some? {
      forall rest
        ensures StaysBounded(|nodes|, rank[n], Wrapped(rest))
      {
        ParentKeeps(|nodes|, rank[n], Wrapped(rest));
      }
    } else if Safe(nodes, n) {
      forall rest
        ensures StaysBounded(|nodes|, rank[n], Wrapped(rest))
      {
        NoRoomKeeps(|nodes|, rest);
      }
    } else {
      DeepTooFar(|nodes|);
      assert !StaysBounded(|nodes|, rank[n], Wrapped(DeepMarkup(MAX_DEPTH + 1)));
    }
  }

  lemma {:induction false} RankZero(nodes: seq<Node>, rank: seq<nat>, n: nat)
    requires Ranked(nodes, rank) && n < |nodes|
    ensures nodes[n].parent.Some? <==> rank[n] >= 1
  {
  }

  lemma {:induction false} DeepTooFar(count: nat)
    requires count + MAX_DEPTH + 3 <= SCRIPT_NODE_LIMIT
    ensures !StaysBounded(count, 0, Wrapped(DeepMarkup(MAX_DEPTH + 1)))
  {
    DeepBreaks(count);
    hide Decided, Deep, Leftover, Level, Ranked, DeepMarkup, Wrapped;
    var fragment, body := Deep(MAX_DEPTH + 1), Some(MAX_DEPTH + 2);
    assert Decided(count, 0, Wrapped(DeepMarkup(MAX_DEPTH + 1)), Done, fragment, 0, body);
    assert Leftover(fragment, body, MAX_DEPTH + 1);
  }
}
