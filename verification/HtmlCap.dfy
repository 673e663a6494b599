/** What the depth cap does to the tree: the capped builder simulates the builder without a cap. */
module HtmlCap {
  import opened Results
  import opened HtmlMachine
  import opened HtmlOrder

  /** A token that closes no other element of its own accord. */
  predicate Plain(token: Token) {
    token.TagToken? && !token.tag.Declaration? ==>
      !token.tag.name.Format? &&
      (token.tag.Start? ==> token.tag.name != P && token.tag.name != Li)
  }

  /** The depth of the last element opened in a walk, -1 before the first. */
  function LastOpened(w: seq<Entry>): int
    decreases |w|
  {
    if w == [] then -1
    else if Opens(w[|w| - 1].content) then w[|w| - 1].depth
    else LastOpened(w[..|w| - 1])
  }

  /** Where the cap puts a node met after w in the uncapped tree: an element at min(depth, limit - 1);
      a text or void element below the cap at its depth, and from there on below the last element when
      that is its parent, beside it otherwise. */
  function LandDepth(w: seq<Entry>, e: Entry, limit: nat): nat
    requires limit >= 1
  {
    if Opens(e.content) then Min(e.depth, limit - 1)
    else if e.depth < limit then e.depth
    else if LastOpened(w) == e.depth - 1 then limit
    else limit - 1
  }

  /** The capped tree in pre-order, from the uncapped one. */
  function Flattened(w: seq<Entry>, limit: nat): (r: seq<Entry>)
    requires limit >= 1
    ensures |r| == |w|
    decreases |w|
  {
    if w == [] then []
    else
      var front, e := w[..|w| - 1], w[|w| - 1];
      Flattened(front, limit) + [Entry(e.id, e.content, LandDepth(front, e, limit))]
  }

  /** Every node keeps its place and is where LandDepth puts it. */
  lemma {:induction false} FlattenedAt(w: seq<Entry>, limit: nat, k: nat)
    requires limit >= 1 && k < |w|
    ensures Flattened(w, limit)[k] == Entry(w[k].id, w[k].content, LandDepth(w[..k], w[k], limit))
    decreases |w|
  {
    hide LandDepth;
    if k < |w| - 1 {
      FlattenedAt(w[..|w| - 1], limit, k);
      assert w[..|w| - 1][..k] == w[..k];
    }
  }

  ghost predicate SameElement(s: Tree, t: Tree) {
    s.id == t.id && s.content == t.content
  }

  /** The stacks agree below the cap and the excess counts the elements past it. */
  ghost predicate Stacks(c: Machine, u: Machine) {
    && c.limit.Some? && c.limit.value >= 4 && u.limit.None?
    && c.budget == u.budget && c.count == u.count
    && c.format == [] && u.format == []
    && |u.open| == |c.open| + c.excess
    && forall i :: 0 <= i < |c.open| && i < c.limit.value - 1 ==> SameElement(c.open[i], u.open[i])
  }

  ghost predicate Simulates(c: Machine, u: Machine) {
    && Inv(c) && Inv(u) && Stacks(c, u)
    && WalkOpen(c.open) == Flattened(WalkOpen(u.open), c.limit.value)
    && Fresh(c, u)
  }

  /** Past the cap the capped stack is full exactly when the last element opened is still at the top
      of the uncapped one. */
  ghost predicate Fresh(c: Machine, u: Machine)
    requires c.limit.Some?
  {
    && LastOpened(WalkOpen(u.open)) >= |u.open| - 1
    && (|u.open| >= c.limit.value ==>
          (|c.open| == c.limit.value <==> LastOpened(WalkOpen(u.open)) == |u.open| - 1))
  }

  lemma {:induction false} LandGrows(w: seq<Entry>, e: Entry, limit: nat)
    requires limit >= 1
    ensures Flattened(w + [e], limit) == Flattened(w, limit) + [Entry(e.id, e.content, LandDepth(w, e, limit))]
    ensures LastOpened(w + [e]) == if Opens(e.content) then e.depth else LastOpened(w)
  {
    assert (w + [e])[..|w|] == w;
  }

  lemma {:induction false} OpenStacks(c: Machine, u: Machine, content: Content)
    requires Simulates(c, u)
    ensures Stacks(OpenNew(c, content), OpenNew(u, content))
  {
    hide WalkOpen, Walk;
  }

  lemma {:induction false} OpenDepth(c: Machine, u: Machine, content: Content)
    requires Shaped(c) && Shaped(u) && Stacks(c, u)
    ensures |OpenNew(c, content).open| - 1 == Min(|OpenNew(u, content).open| - 1, c.limit.value - 1)
  {
  }

  lemma {:induction false} OpenLands(c: Machine, u: Machine, content: Content)
    requires Shaped(c) && Shaped(u) && Stacks(c, u)
    requires WalkOpen(c.open) == Flattened(WalkOpen(u.open), c.limit.value)
    requires Opens(content)
    ensures WalkOpen(OpenNew(c, content).open) == Flattened(WalkOpen(OpenNew(u, content).open), c.limit.value)
    ensures Fresh(OpenNew(c, content), OpenNew(u, content))
  {
    hide WalkOpen, Walk, OpenElement, Flattened, LastOpened;
    OpenWalk(c.(count := c.count + 1), Tree(c.count, content, []));
    OpenWalk(u.(count := u.count + 1), Tree(u.count, content, []));
    OpenDepth(c, u, content);
    LandGrows(WalkOpen(u.open), Entry(u.count, content, |OpenNew(u, content).open| - 1), c.limit.value);
  }

  lemma {:induction false} OpenSimulates(c: Machine, u: Machine, content: Content)
    requires Simulates(c, u)
    requires Opens(content) && (c.open == [] ==> HasName(content, Html))
    ensures Simulates(OpenNew(c, content), OpenNew(u, content))
  {
    OpenKeeps(c, content);
    OpenKeeps(u, content);
    OpenStacks(c, u, content);
    OpenLands(c, u, content);
  }

  lemma {:induction false} LeafLands(c: Machine, u: Machine, content: Content)
    requires Shaped(c) && Shaped(u) && Stacks(c, u)
    requires WalkOpen(c.open) == Flattened(WalkOpen(u.open), c.limit.value) && Fresh(c, u)
    requires c.open != [] && !Opens(content)
    ensures WalkOpen(AddLeaf(c, content).open) == Flattened(WalkOpen(AddLeaf(u, content).open), c.limit.value)
    ensures Fresh(AddLeaf(c, content), AddLeaf(u, content))
  {
    hide WalkOpen, Walk, Flattened, LastOpened;
    WalkAttach(c.open, Tree(c.count, content, []));
    WalkAttach(u.open, Tree(u.count, content, []));
    WalkLeaf(Tree(c.count, content, []), |c.open|);
    WalkLeaf(Tree(u.count, content, []), |u.open|);
    LandGrows(WalkOpen(u.open), Entry(u.count, content, |u.open|), c.limit.value);
  }

  lemma {:induction false} LeafStacks(c: Machine, u: Machine, content: Content)
    requires Stacks(c, u) && c.open != []
    ensures Stacks(AddLeaf(c, content), AddLeaf(u, content))
  {
  }

  lemma {:induction false} LeafSimulates(c: Machine, u: Machine, content: Content)
    requires Simulates(c, u)
    requires c.open != [] && !Opens(content)
    ensures Simulates(AddLeaf(c, content), AddLeaf(u, content))
  {
    LeafKeeps(c, content);
    LeafKeeps(u, content);
    LeafStacks(c, u, content);
    LeafLands(c, u, content);
  }

  ghost predicate BothSimulate(c: Outcome<Machine>, u: Outcome<Machine>) {
    if c.Ok? then u.Ok? && Simulates(c.value, u.value) else !u.Ok?
  }

  lemma {:induction false} StartSimulates(c: Machine, u: Machine, name: Name, attributes: Attributes)
    requires Simulates(c, u)
    requires c.open == [] ==> name == Html
    requires !name.Format?
    ensures BothSimulate(StartElement(c, name, attributes), StartElement(u, name, attributes))
  {
    hide WalkOpen, Walk;
    var content := Element(name, attributes);
    if IsVoid(name) {
      LeafSimulates(c, u, content);
    } else {
      OpenSimulates(c, u, content);
    }
  }

  lemma {:induction false} PopStacks(c: Machine, u: Machine)
    requires Stacks(c, u) && |c.open| >= 2
    ensures Stacks(PopAttach(c), PopAttach(u))
  {
  }

  lemma {:induction false} PopSimulates(c: Machine, u: Machine)
    requires Simulates(c, u)
    requires |c.open| >= 2 && (c.excess > 0 ==> |c.open| >= c.limit.value)
    ensures Simulates(PopAttach(c), PopAttach(u))
  {
    assert c.(excess := c.excess) == c && u.(excess := u.excess) == u;
    assert Shaped(c);
    PopStacks(c, u);
    PopKeeps(c, c.excess);
    PopKeeps(u, u.excess);
    WalkPop(c);
    WalkPop(u);
    hide WalkOpen, Walk, Flattened, LastOpened, Inv, Stacks, Attach;
  }

  lemma {:induction false} AbsorbSimulates(c: Machine, u: Machine)
    requires Simulates(c, u)
    requires c.excess > 0 && |c.open| < c.limit.value
    ensures Simulates(c.(excess := c.excess - 1), PopAttach(u))
  {
    hide WalkOpen, Walk, Flattened, LastOpened;
    PopKeeps(u, u.excess);
    WalkPop(u);
  }

  lemma {:induction false} EndSimulates(c: Machine, u: Machine)
    requires Simulates(c, u)
    requires c.open != []
    ensures Simulates(EndPlain(c), EndPlain(u))
  {
    if c.excess > 0 && |c.open| < c.limit.value {
      AbsorbSimulates(c, u);
    } else if |c.open| > 1 {
      PopSimulates(c, u);
    }
  }

  lemma {:induction false} SameHead(c: Machine, u: Machine, t: Option<Tag>)
    requires Inv(c) && Inv(u) && Stacks(c, u)
    ensures LeavesHead(c, t) == LeavesHead(u, t)
    ensures LeavesRoot(c, t) == LeavesRoot(u, t)
    ensures LeavesHead(c, t) ==> c.excess == 0
  {
  }

  lemma {:induction false} DescendSimulates(c: Machine, u: Machine, t: Option<Tag>)
    requires Simulates(c, u)
    requires c.open != []
    ensures BothSimulate(Descend(c, t), Descend(u, t))
  {
    hide WalkOpen, Walk;
    var c2, u2 := c, u;
    SameHead(c, u, t);
    if LeavesHead(c, t) {
      PopSimulates(c, u);
      c2, u2 := PopAttach(c), PopAttach(u);
      assert c.(excess := 0) == c && u.(excess := 0) == u;
    }
    SameHead(c2, u2, t);
    if LeavesRoot(c2, t) {
      StartSimulates(c2, u2, if IsHeadStart(t) then Head else Body, []);
    }
  }

  lemma {:induction false} ImpliedSimulates(c: Machine, u: Machine, t: Option<Tag>)
    requires Simulates(c, u)
    ensures BothSimulate(Implied(c, t), Implied(u, t))
  {
    if c.open != [] {
      DescendSimulates(c, u, t);
    } else if !IsStart(t, Html) {
      StartSimulates(c, u, Html, []);
      if StartElement(c, Html, []).Ok? {
        DescendSimulates(StartElement(c, Html, []).value, StartElement(u, Html, []).value, t);
      }
    }
  }

  lemma {:induction false} TagSimulates(c: Machine, u: Machine, t: Tag)
    requires Simulates(c, u)
    requires Plain(TagToken(t))
    ensures BothSimulate(HandleTag(c, t), HandleTag(u, t))
  {
    hide WalkOpen, Walk;
    if !t.Declaration? {
      ImpliedSimulates(c, u, Some(t));
      if Implied(c, Some(t)).Ok? {
        var c1, u1 := Implied(c, Some(t)).value, Implied(u, Some(t)).value;
        match t
        case End(name) => EndSimulates(c1, u1);
        case Start(name, attributes) => StartSimulates(c1, u1, name, attributes);
      }
    }
  }

  lemma {:induction false} TextSimulates(c: Machine, u: Machine, text: string)
    requires Simulates(c, u)
    ensures BothSimulate(HandleText(c, text), HandleText(u, text))
  {
    hide WalkOpen, Walk, Flattened, LastOpened, Fresh;
    ImpliedSimulates(c, u, None);
    if Implied(c, None).Ok? {
      LeafSimulates(Implied(c, None).value, Implied(u, None).value, Text(text));
    }
  }

  /** After every token of a plain stream the capped machine simulates the uncapped one. */
  lemma {:induction false} RunSimulates(limit: nat, budget: nat, tokens: seq<Token>)
    requires limit >= 4
    requires forall i :: 0 <= i < |tokens| ==> Plain(tokens[i])
    ensures BothSimulate(Run(Initial(Some(limit), budget), tokens), Run(Initial(None, budget), tokens))
    decreases |tokens|
  {
    if tokens != [] {
      var before := tokens[..|tokens| - 1];
      RunSimulates(limit, budget, before);
      if Run(Initial(Some(limit), budget), before).Ok? {
        var c := Run(Initial(Some(limit), budget), before).value;
        var u := Run(Initial(None, budget), before).value;
        match tokens[|tokens| - 1]
        case TextToken(text) => TextSimulates(c, u, text);
        case TagToken(tag) => TagSimulates(c, u, tag);
      }
    }
  }

  /** On plain streams the cap only moves nodes: both parses succeed together, and the pre-order of the
      capped tree is that of the uncapped one with every node where LandDepth puts it. */
  lemma {:induction false} CapOnlyFlattens(limit: nat, budget: nat, tokens: seq<Token>)
    requires limit >= 4
    requires forall i :: 0 <= i < |tokens| ==> Plain(tokens[i])
    ensures Parse(Some(limit), budget, tokens).Ok? <==> Parse(None, budget, tokens).Ok?
    ensures Parse(Some(limit), budget, tokens).Ok? ==>
      Walk(Parse(Some(limit), budget, tokens).value.1, 0) ==
        Flattened(Walk(Parse(None, budget, tokens).value.1, 0), limit)
  {
    RunSimulates(limit, budget, tokens);
    if Run(Initial(Some(limit), budget), tokens).Ok? {
      var c := Run(Initial(Some(limit), budget), tokens).value;
      var u := Run(Initial(None, budget), tokens).value;
      FinishSimulates(c, u);
      if Finish(c).Ok? {
        CloseAllWalk(Finish(c).value.open);
        CloseAllWalk(Finish(u).value.open);
      }
    }
  }

  lemma {:induction false} FinishSimulates(c: Machine, u: Machine)
    requires Simulates(c, u)
    ensures BothSimulate(Finish(c), Finish(u))
  {
    if c.open == [] {
      ImpliedSimulates(c, u, None);
    }
  }
}
