/** Markup as deep as the cap allows outside its last body: elements, a text, and a second body. */
module DeepFragment {
  import opened Results
  import opened HtmlMachine
  import opened HtmlOrder
  import opened HtmlWrapped
  import opened HtmlArena
  import opened DomForest
  import opened DomDepth
  import opened DomDocument
  import opened DomAdopt
  import opened DomInnerHtml

  const DIV: Name := Other("div")

  function Divs(k: nat): seq<Token> {
    seq(k, _ => TagToken(Start(DIV, [])))
  }

  const TAIL: seq<Token> :=
    [TextToken("x"), TagToken(Start(Body, [])), TagToken(End(Body)), TagToken(End(Html))]

  /** With the cap as the fragment's limit, what follows the two tags of the wrapping. */
  function DeepMarkup(limit: nat): seq<Token>
    requires limit >= 4
  {
    Divs(limit - 2) + TAIL
  }

  // ----- The parse -----

  function Part(i: nat): Content {
    Element(if i == 0 then Html else if i == 1 then Body else DIV, [])
  }

  /** The first k elements, each open and still empty. */
  function Spine(k: nat): seq<Tree> {
    seq(k, i requires 0 <= i < k => Tree(i, Part(i), []))
  }

  function Descended(limit: nat, budget: nat, k: nat): Machine {
    Machine(Some(limit), budget, k, Spine(k), 0, [], {})
  }

  predicate Ample(limit: nat, budget: nat) {
    limit >= 4 && (budget == 0 || budget >= limit + 2)
  }

  lemma {:induction false} NothingImplied(m: Machine, t: Option<Tag>)
    requires Fits(m.limit) && |m.open| >= 2 && !HasName(m.open[1].content, Head)
    ensures Implied(m, t) == Ok(m)
  {
  }

  lemma {:induction false} SpineStep(limit: nat, budget: nat, k: nat)
    requires Ample(limit, budget) && 2 <= k < limit
    ensures HandleTag(Descended(limit, budget, k), Start(DIV, [])) == Ok(Descended(limit, budget, k + 1))
  {
    var m := Descended(limit, budget, k);
    NothingImplied(m, Some(Start(DIV, [])));
    OpensPlainly(m, DIV);
    hide HandleTag;
    assert Deeper(m, DIV).open == Spine(k + 1);
  }

  lemma {:induction false} SpineRun(limit: nat, budget: nat, k: nat)
    requires Ample(limit, budget) && k + 2 <= limit
    ensures Run(Initial(Some(limit), budget), Wrapped(Divs(k))) == Ok(Descended(limit, budget, k + 2))
    decreases k
  {
    var start := Initial(Some(limit), budget);
    hide HandleTag;
    if k == 0 {
      FirstTags(Some(limit), budget);
      assert Divs(0) == [] && Spine(2) == Deeper(Deeper(start, Html), Body).open;
    } else {
      hide Spine;
      SpineRun(limit, budget, k - 1);
      SpineStep(limit, budget, k + 1);
      var tokens := Wrapped(Divs(k));
      assert tokens[..|tokens| - 1] == Wrapped(Divs(k - 1));
      assert tokens[|tokens| - 1] == TagToken(Start(DIV, []));
    }
  }

  function TextTree(limit: nat): Tree {
    Tree(limit, Text("x"), [])
  }

  /** The deepest element with its text. */
  function Bottom(limit: nat): Tree
    requires limit >= 4
  {
    Tree(limit - 1, Part(limit - 1), [TextTree(limit)])
  }

  function LastBody(limit: nat): Tree {
    Tree(limit + 1, Element(Body, []), [])
  }

  /** The element that holds both the deepest one and the last body. */
  function Fork(limit: nat): Tree
    requires limit >= 4
  {
    Tree(limit - 2, Part(limit - 2), [Bottom(limit), LastBody(limit)])
  }

  function AfterText(limit: nat, budget: nat): Machine
    requires limit >= 4
  {
    Machine(Some(limit), budget, limit + 1, Spine(limit - 1) + [Bottom(limit)], 0, [], {})
  }

  function AfterBody(limit: nat, budget: nat): Machine
    requires limit >= 4
  {
    var above := Tree(limit - 2, Part(limit - 2), [Bottom(limit)]);
    Machine(Some(limit), budget, limit + 2, Spine(limit - 2) + [above, LastBody(limit)], 1, [], {})
  }

  function AfterEnd(limit: nat, budget: nat, excess: nat): Machine
    requires limit >= 4
  {
    Machine(Some(limit), budget, limit + 2, Spine(limit - 2) + [Fork(limit)], excess, [], {})
  }

  lemma {:induction false} TextStep(limit: nat, budget: nat)
    requires Ample(limit, budget)
    ensures Step(Descended(limit, budget, limit), TAIL[0]) == Ok(AfterText(limit, budget))
  {
    var m := Descended(limit, budget, limit);
    NothingImplied(m, None);
    assert m.open[..limit - 1] == Spine(limit - 1);
    assert AddLeaf(m, Text("x")).open == AfterText(limit, budget).open by {
      assert m.open[limit - 1].kids + [TextTree(limit)] == [TextTree(limit)];
    }
  }

  lemma {:induction false} AttachSpine(n: nat, t: Tree)
    requires n > 0
    ensures Attach(Spine(n), t) == Spine(n - 1) + [Tree(n - 1, Part(n - 1), [t])]
  {
    assert Spine(n)[..n - 1] == Spine(n - 1);
    assert [] + [t] == [t];
  }

  lemma {:induction false} BodyOpens(limit: nat, budget: nat)
    requires Ample(limit, budget)
    ensures OpenNew(AfterText(limit, budget), Element(Body, [])) == AfterBody(limit, budget)
  {
    var m := AfterText(limit, budget);
    AttachSpine(limit - 1, Bottom(limit));
    hide Attach, Spine;
    assert m.open[..limit - 1] == Spine(limit - 1) && m.open[limit - 1] == Bottom(limit);
    var above := Tree(limit - 2, Part(limit - 2), [Bottom(limit)]);
    assert Spine(limit - 2) + [above] + [LastBody(limit)] == Spine(limit - 2) + [above, LastBody(limit)];
  }

  lemma {:induction false} BodyStep(limit: nat, budget: nat)
    requires Ample(limit, budget)
    ensures Step(AfterText(limit, budget), TAIL[1]) == Ok(AfterBody(limit, budget))
  {
    var m := AfterText(limit, budget);
    NothingImplied(m, Some(Start(Body, [])));
    BodyOpens(limit, budget);
    hide Implied, OpenNew;
  }

  lemma {:induction false} EndBodyStep(limit: nat, budget: nat)
    requires Ample(limit, budget)
    ensures Step(AfterBody(limit, budget), TAIL[2]) == Ok(AfterEnd(limit, budget, 1))
  {
    var m := AfterBody(limit, budget);
    NothingImplied(m, Some(End(Body)));
    var above := m.open[limit - 2];
    assert m.open[..limit - 1] == Spine(limit - 2) + [above];
    assert above.kids + [LastBody(limit)] == [Bottom(limit), LastBody(limit)];
    assert PopAttach(m).open == Spine(limit - 2) + [Fork(limit)];
  }

  lemma {:induction false} EndHtmlStep(limit: nat, budget: nat)
    requires Ample(limit, budget)
    ensures Step(AfterEnd(limit, budget, 1), TAIL[3]) == Ok(AfterEnd(limit, budget, 0))
  {
    NothingImplied(AfterEnd(limit, budget, 1), Some(End(Html)));
  }

  lemma {:induction false} RunOn(m: Machine, tokens: seq<Token>, token: Token, c: Machine)
    requires Fits(m.limit) && Fits(c.limit) && Run(m, tokens) == Ok(c)
    ensures Run(m, tokens + [token]) == Step(c, token)
  {
    hide Step;
    assert (tokens + [token])[..|tokens|] == tokens;
  }

  /** The stack closed from the top: t below the first n elements. */
  function Nest(n: nat, t: Tree): Tree {
    if n == 0 then t else Nest(n - 1, Tree(n - 1, Part(n - 1), [t]))
  }

  lemma {:induction false} CloseSpine(n: nat, t: Tree)
    ensures CloseAll(Spine(n) + [t]) == Nest(n, t)
    decreases n
  {
    assert |Spine(n)| == n;
    if n > 0 {
      AttachSpine(n, t);
      hide Spine, Attach;
      var open := Spine(n) + [t];
      assert open[..n] == Spine(n) && open[n] == t;
      CloseSpine(n - 1, Tree(n - 1, Part(n - 1), [t]));
    }
  }

  lemma {:induction false} DeepParse(limit: nat, budget: nat)
    requires Ample(limit, budget)
    ensures HtmlMachine.Parse(Some(limit), budget, Wrapped(DeepMarkup(limit))) ==
      Ok((limit + 2, Nest(limit - 2, Fork(limit))))
  {
    hide Step, CloseAll, Nest, Spine;
    var start := Initial(Some(limit), budget);
    var tokens := Wrapped(Divs(limit - 2));
    SpineRun(limit, budget, limit - 2);
    TextStep(limit, budget);
    RunOn(start, tokens, TAIL[0], Descended(limit, budget, limit));
    BodyStep(limit, budget);
    RunOn(start, tokens + [TAIL[0]], TAIL[1], AfterText(limit, budget));
    EndBodyStep(limit, budget);
    RunOn(start, tokens + [TAIL[0]] + [TAIL[1]], TAIL[2], AfterBody(limit, budget));
    EndHtmlStep(limit, budget);
    RunOn(start, tokens + [TAIL[0]] + [TAIL[1]] + [TAIL[2]], TAIL[3], AfterEnd(limit, budget, 1));
    assert tokens + [TAIL[0]] + [TAIL[1]] + [TAIL[2]] + [TAIL[3]] == Wrapped(DeepMarkup(limit));
    CloseSpine(limit - 2, Fork(limit));
  }

  // ----- The nodes -----

  function Parent(i: nat, limit: nat): Option<nat>
    requires limit >= 4
  {
    if i == 0 then None else if i <= limit then Some(i - 1) else Some(limit - 2)
  }

  function Children(i: nat, limit: nat): seq<nat>
    requires limit >= 4
  {
    if i < limit - 2 then [i + 1]
    else if i == limit - 2 then [limit - 1, limit + 1]
    else if i == limit - 1 then [limit]
    else []
  }

  /** The nodes of the parse. */
  function Deep(limit: nat): (r: seq<Node>)
    requires limit >= 4
    ensures |r| == limit + 2
  {
    seq(limit + 2, i requires 0 <= i < limit + 2 =>
      Node(if i < limit then Part(i) else if i == limit then Text("x") else Element(Body, []),
           Parent(i, limit), Children(i, limit)))
  }

  lemma {:induction false} DeepForward(limit: nat)
    requires limit >= 4
    ensures Forward(Deep(limit))
  {
  }

  lemma {:induction false} DeepLevel(limit: nat, i: nat)
    requires limit >= 4 && i < limit + 2
    ensures Forward(Deep(limit)) && Level(Deep(limit), i) == if i <= limit then i else limit - 1
    decreases i
  {
    DeepForward(limit);
    if i > 0 {
      DeepLevel(limit, Parent(i, limit).value);
    }
  }

  /** A child's parent is the node that lists it, and the other way round. */
  lemma {:induction false} DeepLinks(limit: nat, x: nat)
    requires limit >= 4 && x < limit + 2
    ensures forall k :: 0 <= k < |Children(x, limit)| ==>
      Children(x, limit)[k] < limit + 2 && Parent(Children(x, limit)[k], limit) == Some(x)
    ensures forall j, k :: 0 <= j < k < |Children(x, limit)| ==> Children(x, limit)[j] != Children(x, limit)[k]
    ensures Parent(x, limit).Some? ==> x in Children(Parent(x, limit).value, limit)
  {
    if Parent(x, limit).Some? {
      var kids := Children(x - 1, limit);
      assert x <= limit ==> x == kids[0];
      assert x == limit + 1 ==> x == Children(limit - 2, limit)[1];
    }
  }

  lemma {:induction false} DeepAt(limit: nat, x: nat)
    requires limit >= 4 && x < limit + 2
    ensures Deep(limit)[x].children == Children(x, limit) && Deep(limit)[x].parent == Parent(x, limit)
  {
  }

  lemma {:induction false} DeepSettled(limit: nat)
    requires limit >= 4
    ensures Forward(Deep(limit)) && Settled(Deep(limit), [], limit)
  {
    DeepForward(limit);
    var nodes := Deep(limit);
    hide Deep, Level, Parent, Children;
    forall x | 0 <= x < limit + 2
      ensures Level(nodes, x) <= limit
    {
      DeepLevel(limit, x);
    }
    forall x, k | 0 <= x < limit + 2 && 0 <= k < |nodes[x].children|
      ensures nodes[nodes[x].children[k]].parent == Some(x)
    {
      DeepAt(limit, x);
      DeepLinks(limit, x);
      DeepAt(limit, nodes[x].children[k]);
    }
    forall x, j, k | 0 <= x < limit + 2 && 0 <= j < k < |nodes[x].children|
      ensures nodes[x].children[j] != nodes[x].children[k]
    {
      DeepAt(limit, x);
      DeepLinks(limit, x);
    }
    forall x, p | 0 <= x < limit + 2 && 0 <= p < limit + 2 && nodes[x].parent == Some(p)
      ensures x in nodes[p].children
    {
      DeepAt(limit, x);
      DeepAt(limit, p);
      DeepLinks(limit, x);
    }
  }

  lemma {:induction false} DeepFork(limit: nat)
    requires limit >= 4 && Forward(Deep(limit))
    ensures TreeOf(Deep(limit), limit - 2) == Fork(limit)
  {
    var nodes := Deep(limit);
    assert TreeOf(nodes, limit) == TextTree(limit);
    assert TreeOf(nodes, limit - 1) == Bottom(limit);
    assert TreeOf(nodes, limit + 1) == LastBody(limit);
  }

  lemma {:induction false} DeepNest(limit: nat, n: nat)
    requires limit >= 4 && Forward(Deep(limit)) && n <= limit - 2
    ensures Nest(n, TreeOf(Deep(limit), n)) == TreeOf(Deep(limit), 0)
    decreases n
  {
    if n > 0 {
      DeepAbove(limit, n);
      hide TreeOf, Deep;
      DeepNest(limit, n - 1);
    }
  }

  lemma {:induction false} DeepAbove(limit: nat, n: nat)
    requires limit >= 4 && Forward(Deep(limit)) && 0 < n <= limit - 2
    ensures TreeOf(Deep(limit), n - 1) == Tree(n - 1, Part(n - 1), [TreeOf(Deep(limit), n)])
  {
    var nodes := Deep(limit);
    assert nodes[n - 1].children == [n];
  }

  /** What is met last in the nested tree is met last in its innermost part. */
  lemma {:induction false} NestLast(n: nat, t: Tree, depth: nat)
    requires Walk(t, depth + n) != []
    ensures var w, v := Walk(Nest(n, t), depth), Walk(t, depth + n);
      w != [] && w[|w| - 1] == v[|v| - 1]
    decreases n
  {
    if n > 0 {
      var u := Tree(n - 1, Part(n - 1), [t]);
      assert u.kids[..0] == [] && WalkAll([], depth + n) == [];
      assert WalkAll(u.kids, depth + n) == Walk(t, depth + n);
      assert Walk(u, depth + n - 1) == [Entry(u.id, u.content, depth + n - 1)] + Walk(t, depth + n);
      hide Walk, WalkAll;
      NestLast(n - 1, u, depth);
    }
  }

  lemma {:induction false} ForkLast(limit: nat, depth: nat)
    requires limit >= 4
    ensures var w := Walk(Fork(limit), depth);
      w != [] && w[|w| - 1].id == limit + 1 && HasName(w[|w| - 1].content, Body)
  {
    var kids := [Bottom(limit), LastBody(limit)];
    WalkAllPush([Bottom(limit)], LastBody(limit), depth + 1);
    assert [Bottom(limit)] + [LastBody(limit)] == kids;
    WalkLeaf(LastBody(limit), depth + 1);
    hide WalkAll;
  }

  lemma {:induction false} DeepBody(limit: nat)
    requires limit >= 4
    ensures LastNamed(Walk(Nest(limit - 2, Fork(limit)), 0), Body) == Some(limit + 1)
  {
    ForkLast(limit, limit - 2);
    NestLast(limit - 2, Fork(limit), 0);
    hide Walk, Nest, Fork;
  }

  /** For a node without a parent the markup is accepted in any document with room for its nodes,
      and leaves a text with one ancestor too many outside its body. */
  lemma {:induction false} DeepBreaks(count: nat)
    requires count + MAX_DEPTH + 3 <= SCRIPT_NODE_LIMIT
    ensures var fragment, body := Deep(MAX_DEPTH + 1), Some(MAX_DEPTH + 2);
      && Decided(count, 0, Wrapped(DeepMarkup(MAX_DEPTH + 1)), Done, fragment, 0, body)
      && Leftover(fragment, body, MAX_DEPTH + 1) && Level(fragment, MAX_DEPTH + 1) == MAX_DEPTH + 1
  {
    var limit := MAX_DEPTH + 1;
    DeepParts(limit, Room(count) + 1);
    assert FragmentLimit(0) == limit;
    hide Deep, DeepMarkup, HtmlMachine.Parse, LastNamed, Walk, TreeOf, Low, Settled, Level, Ranked, Beneath, Levels, Wrapped;
  }

  lemma {:induction false} DeepTree(limit: nat)
    requires limit >= 4 && Forward(Deep(limit))
    ensures TreeOf(Deep(limit), 0) == Nest(limit - 2, Fork(limit)) && Deep(limit)[0].parent == None
  {
    DeepAt(limit, 0);
    hide Deep, TreeOf, Nest, Fork;
    DeepFork(limit);
    DeepNest(limit, limit - 2);
  }

  lemma {:induction false} DeepParsed(limit: nat, budget: nat)
    requires Ample(limit, budget)
    ensures Parsed(Deep(limit), 0, limit, budget, Wrapped(DeepMarkup(limit)))
    ensures LastNamed(Walk(TreeOf(Deep(limit), 0), 0), Body) == Some(limit + 1)
  {
    hide Deep, DeepMarkup, HtmlMachine.Parse, LastNamed, Walk, TreeOf, Nest, Fork, Settled, Wrapped;
    DeepSettled(limit);
    DeepTree(limit);
    DeepBody(limit);
    DeepParse(limit, budget);
  }

  lemma {:induction false} DeepTarget(limit: nat)
    requires limit >= 4 && Linked(Deep(limit))
    requires Forward(Deep(limit)) && Ranked(Deep(limit), Levels(Deep(limit)))
    ensures Low(Deep(limit), Levels(Deep(limit)), limit + 1, MAX_DEPTH)
    ensures Leftover(Deep(limit), Some(limit + 1), limit)
  {
    var fragment := Deep(limit);
    assert fragment[limit + 1].children == [];
    hide Deep, Low, Linked, Ranked, Level, Under;
    LeafLow(fragment, Levels(fragment), limit + 1, MAX_DEPTH, limit);
  }

  lemma {:induction false} DeepParts(limit: nat, budget: nat)
    requires Ample(limit, budget)
    ensures var fragment := Deep(limit);
      && Parsed(fragment, 0, limit, budget, Wrapped(DeepMarkup(limit)))
      && LastNamed(Walk(TreeOf(fragment, 0), 0), Body) == Some(limit + 1)
      && Ranked(fragment, Levels(fragment)) && Low(fragment, Levels(fragment), limit + 1, MAX_DEPTH)
      && Leftover(fragment, Some(limit + 1), limit) && Level(fragment, limit) == limit
  {
    hide Deep, DeepMarkup, HtmlMachine.Parse, LastNamed, Walk, TreeOf, Low, Settled, Level, Linked, Ranked, Wrapped,
      Beneath;
    DeepParsed(limit, budget);
    DeepLevel(limit, limit);
    DeepSettled(limit);
    SettledForest(Deep(limit), limit);
    DeepTarget(limit);
  }

  // ----- Any array the parser may build for this markup -----

  lemma {:induction false} OnlyChild(nodes: seq<Node>, limit: nat, x: nat, t: Tree)
    requires Forward(nodes) && Settled(nodes, [], limit) && x < |nodes|
    requires TreeOf(nodes, x).kids == [t]
    ensures t.id < |nodes| && TreeOf(nodes, t.id) == t && Level(nodes, t.id) == Level(nodes, x) + 1
  {
    var kids := nodes[x].children;
    var c := kids[0];
    assert TreesOf(nodes, kids)[0] == TreeOf(nodes, c);
    assert nodes[c].parent == Some(x);
  }

  lemma {:induction false} InnerTree(nodes: seq<Node>, limit: nat, n: nat, t: Tree)
    requires Forward(nodes) && Settled(nodes, [], limit) && nodes != [] && nodes[0].parent == None
    requires TreeOf(nodes, 0) == Nest(n, t) && t.id == n
    ensures n < |nodes| && TreeOf(nodes, n) == t && Level(nodes, n) == n
    decreases n
  {
    if n > 0 {
      InnerTree(nodes, limit, n - 1, Tree(n - 1, Part(n - 1), [t]));
      hide Settled, TreeOf, Level, Nest;
      OnlyChild(nodes, limit, n - 1, t);
    }
  }

  lemma {:induction false} ForkNodes(nodes: seq<Node>, limit: nat)
    requires limit >= 4 && Forward(nodes) && Settled(nodes, [], limit) && limit - 2 < |nodes|
    requires TreeOf(nodes, limit - 2) == Fork(limit)
    ensures limit + 1 < |nodes| && TreeOf(nodes, limit - 1) == Bottom(limit)
    ensures TreeOf(nodes, limit + 1) == LastBody(limit)
    ensures Level(nodes, limit - 1) == Level(nodes, limit - 2) + 1
  {
    var kids := nodes[limit - 2].children;
    assert TreesOf(nodes, kids)[0] == TreeOf(nodes, kids[0]);
    assert TreesOf(nodes, kids)[1] == TreeOf(nodes, kids[1]);
    assert nodes[kids[0]].parent == Some(limit - 2);
  }

  /** However the parser lays out its nodes, the markup is accepted and goes too deep. */
  lemma {:induction false} DeepAlways(count: nat, status: Status, fragment: seq<Node>, root: nat, body: Option<nat>)
    requires count + MAX_DEPTH + 3 <= SCRIPT_NODE_LIMIT
    requires Decided(count, 0, Wrapped(DeepMarkup(MAX_DEPTH + 1)), status, fragment, root, body)
    ensures status == Done && Forward(fragment) && Ranked(fragment, Levels(fragment))
    ensures Leftover(fragment, body, MAX_DEPTH + 1) && Level(fragment, MAX_DEPTH + 1) == MAX_DEPTH + 1
  {
    var limit := MAX_DEPTH + 1;
    var tree := Nest(limit - 2, Fork(limit));
    assert FragmentLimit(0) == limit;
    DeepParse(limit, Room(count) + 1);
    hide DeepMarkup, HtmlMachine.Parse, LastNamed, Walk, Low, Settled, Level, Ranked, Beneath, Nest, Wrapped, Linked;
    SettledForest(fragment, limit);
    DeepBody(limit);
    NestRoot(limit - 2, Fork(limit));
    assert root == 0 by {
      assert TreeOf(fragment, root).id == root;
    }
    hide TreeOf;
    InnerTree(fragment, limit, limit - 2, Fork(limit));
    ForkNodes(fragment, limit);
    OnlyChild(fragment, limit, limit - 1, TextTree(limit));
    LeafOf(fragment, limit + 1);
    LeafLow(fragment, Levels(fragment), limit + 1, MAX_DEPTH, limit);
    assert !Beneath(fragment, Levels(fragment), limit, limit + 1) by {
      NotUnderNotBeneath(fragment, limit, limit + 1);
    }
  }

  lemma {:induction false} NotUnderNotBeneath(nodes: seq<Node>, x: nat, b: nat)
    requires Forward(nodes) && Ranked(nodes, Levels(nodes)) && x < |nodes| && !Under(nodes, Levels(nodes), x, b)
    ensures !Beneath(nodes, Levels(nodes), x, b)
  {
  }

  lemma {:induction false} LeafOf(nodes: seq<Node>, x: nat)
    requires Forward(nodes) && x < |nodes| && TreeOf(nodes, x).kids == []
    ensures nodes[x].children == []
  {
  }

  lemma {:induction false} NestRoot(n: nat, t: Tree)
    requires t.id == n
    ensures Nest(n, t).id == 0
    decreases n
  {
    if n > 0 {
      NestRoot(n - 1, Tree(n - 1, Part(n - 1), [t]));
    }
  }
}
