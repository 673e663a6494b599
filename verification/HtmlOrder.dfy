/** What every run of the HTML tree builder keeps: the stack, the depth, the root and source order. */
module HtmlOrder {
  import opened Results
  import opened HtmlMachine

  // ----- Pre-order walks -----

  /** One node met by a pre-order walk; depth is the number of its ancestors. */
  datatype Entry = Entry(id: nat, content: Content, depth: nat)

  function Walk(t: Tree, depth: nat): seq<Entry>
    decreases t, 1
  {
    [Entry(t.id, t.content, depth)] + WalkAll(t.kids, depth + 1)
  }

  function WalkAll(ts: seq<Tree>, depth: nat): seq<Entry>
    decreases ts, 0
  {
    if ts == [] then []
    else WalkAll(ts[..|ts| - 1], depth) + Walk(ts[|ts| - 1], depth)
  }

  /** The concatenated walks of the open elements, element i at depth i. */
  function WalkOpen(open: seq<Tree>): seq<Entry>
    decreases |open|
  {
    if open == [] then []
    else WalkOpen(open[..|open| - 1]) + Walk(open[|open| - 1], |open| - 1)
  }

  lemma {:induction false} WalkAllPush(ts: seq<Tree>, t: Tree, depth: nat)
    ensures WalkAll(ts + [t], depth) == WalkAll(ts, depth) + Walk(t, depth)
  {
    assert (ts + [t])[..|ts|] == ts;
  }

  lemma {:induction false} WalkOpenPush(open: seq<Tree>, t: Tree)
    ensures WalkOpen(open + [t]) == WalkOpen(open) + Walk(t, |open|)
  {
    assert (open + [t])[..|open|] == open;
  }

  lemma {:induction false} WalkGrown(top: Tree, kid: Tree, depth: nat)
    ensures Walk(top.(kids := top.kids + [kid]), depth) == Walk(top, depth) + Walk(kid, depth + 1)
  {
    WalkAllPush(top.kids, kid, depth + 1);
  }

  lemma {:induction false} WalkAttach(open: seq<Tree>, kid: Tree)
    requires open != []
    ensures WalkOpen(Attach(open, kid)) == WalkOpen(open) + Walk(kid, |open|)
  {
    hide Walk, WalkAll, WalkOpen;
    var n := |open|;
    var top := open[n - 1];
    var below := open[..n - 1];
    var grown := top.(kids := top.kids + [kid]);
    WalkGrown(top, kid, n - 1);
    WalkOpenPush(below, grown);
    WalkOpenPush(below, top);
    assert open == below + [top];
    assert Attach(open, kid) == below + [grown];
  }

  /** Closing an element moves nothing in the walk. */
  lemma {:induction false} WalkPop(m: Machine)
    requires |m.open| >= 2
    ensures WalkOpen(PopAttach(m).open) == WalkOpen(m.open)
  {
    WalkAttach(m.open[..|m.open| - 1], m.open[|m.open| - 1]);
  }

  lemma {:induction false} WalkLeaf(t: Tree, depth: nat)
    requires t.kids == []
    ensures Walk(t, depth) == [Entry(t.id, t.content, depth)]
  {
    assert WalkAll(t.kids, depth + 1) == [];
  }

  // ----- The invariant -----

  ghost predicate Shaped(m: Machine) {
    && Fits(m.limit)
    && (m.limit.Some? ==> |m.open| <= m.limit.value)
    && (m.excess > 0 ==> m.limit.Some? && |m.open| >= m.limit.value - 1)
    && (m.open != [] ==> HasName(m.open[0].content, Html))
    && (forall i :: 0 <= i < |m.open| ==> Opens(m.open[i].content))
    && (forall i :: 0 <= i < |m.format| ==> IsFormat(m.format[i].content))
  }

  predicate Opens(c: Content) {
    c.Element? && !IsVoid(c.name)
  }

  /** Where the cap lets a node be: elements that can hold others stay one level higher. */
  predicate Shallow(e: Entry, limit: nat) {
    e.depth <= limit && (Opens(e.content) ==> e.depth < limit)
  }

  /** The walk of the open elements lists the last |w| ids in order, within the depth limit. */
  ghost predicate Ordered(w: seq<Entry>, count: nat, limit: Option<nat>) {
    && |w| <= count
    && (forall k :: 0 <= k < |w| ==> w[k].id == count - |w| + k)
    && (limit.Some? ==> forall k :: 0 <= k < |w| ==> Shallow(w[k], limit.value))
  }

  ghost predicate Inv(m: Machine) {
    Shaped(m) && Ordered(WalkOpen(m.open), m.count, m.limit)
  }

  lemma {:induction false} OrderedGrows(w: seq<Entry>, count: nat, limit: Option<nat>, e: Entry)
    requires Ordered(w, count, limit)
    requires e.id == count
    requires limit.Some? ==> Shallow(e, limit.value)
    ensures Ordered(w + [e], count + 1, limit)
  {
  }

  lemma {:induction false} OpenWalk(m: Machine, t: Tree)
    requires Shaped(m)
    requires t.kids == []
    ensures var o := OpenElement(m, t);
      o.open != [] && WalkOpen(o.open) == WalkOpen(m.open) + [Entry(t.id, t.content, |o.open| - 1)]
  {
    hide WalkOpen, Walk;
    if Below(|m.open|, m.limit) {
      WalkOpenPush(m.open, t);
      WalkLeaf(t, |m.open|);
    } else {
      WalkPop(m);
      WalkOpenPush(PopAttach(m).open, t);
      WalkLeaf(t, |m.open| - 1);
    }
  }

  lemma {:induction false} OpenShaped(m: Machine, t: Tree)
    requires Shaped(m)
    requires Opens(t.content)
    requires m.open == [] ==> HasName(t.content, Html)
    ensures Shaped(OpenElement(m, t))
  {
  }

  lemma {:induction false} Grown(m: Machine, o: Machine, content: Content, depth: nat)
    requires Inv(m) && Shaped(o)
    requires o.limit == m.limit && o.count == m.count + 1
    requires WalkOpen(o.open) == WalkOpen(m.open) + [Entry(m.count, content, depth)]
    requires m.limit.Some? ==> Shallow(Entry(m.count, content, depth), m.limit.value)
    ensures Inv(o)
  {
    hide WalkOpen, Walk;
    OrderedGrows(WalkOpen(m.open), m.count, m.limit, Entry(m.count, content, depth));
  }

  lemma {:induction false} LeafKeeps(m: Machine, content: Content)
    requires Inv(m) && m.open != [] && !Opens(content)
    ensures Inv(AddLeaf(m, content))
  {
    hide WalkOpen, Walk;
    var t := Tree(m.count, content, []);
    WalkAttach(m.open, t);
    WalkLeaf(t, |m.open|);
    Grown(m, AddLeaf(m, content), content, |m.open|);
  }

  lemma {:induction false} OpenKeeps(m: Machine, content: Content)
    requires Inv(m) && Opens(content)
    requires m.open == [] ==> HasName(content, Html)
    ensures Inv(OpenNew(m, content))
  {
    hide WalkOpen, Walk, OpenElement, Ordered;
    var c := m.(count := m.count + 1);
    var t := Tree(m.count, content, []);
    OpenWalk(c, t);
    OpenShaped(c, t);
    OpenCounts(c, t);
    Grown(m, OpenNew(m, content), content, |OpenNew(m, content).open| - 1);
  }

  lemma {:induction false} OpenCounts(m: Machine, t: Tree)
    requires Fits(m.limit)
    ensures OpenElement(m, t).limit == m.limit && OpenElement(m, t).count == m.count
  {
  }

  lemma {:induction false} RememberKeeps(m: Machine, id: nat, content: Content)
    requires Inv(m) && IsFormat(content)
    ensures Inv(Remember(m, id, content))
  {
  }

  lemma {:induction false} StartKeeps(m: Machine, name: Name, attributes: Attributes)
    requires Inv(m)
    requires m.open == [] ==> name == Html
    requires StartElement(m, name, attributes).Ok?
    ensures Inv(StartElement(m, name, attributes).value)
  {
    var content := Element(name, attributes);
    if IsVoid(name) {
      LeafKeeps(m, content);
    } else {
      OpenKeeps(m, content);
      if name.Format? {
        RememberKeeps(OpenNew(m, content), m.count, content);
      }
    }
  }

  lemma {:induction false} PopKeeps(m: Machine, excess: nat)
    requires Inv(m)
    requires |m.open| >= 2
    requires excess > 0 ==> m.limit.Some? && |m.open| >= m.limit.value
    ensures Inv(PopAttach(m.(excess := excess)))
  {
    WalkPop(m);
  }

  lemma {:induction false} EndPlainKeeps(m: Machine)
    requires Inv(m)
    requires m.open != []
    ensures Inv(EndPlain(m))
    ensures EndPlain(m).open != []
  {
    if !(m.excess > 0 && Below(|m.open|, m.limit)) && |m.open| > 1 {
      PopKeeps(m, m.excess);
    }
  }

  lemma {:induction false} ImpliedKeeps(m: Machine, t: Option<Tag>)
    requires Inv(m)
    requires Implied(m, t).Ok?
    ensures Inv(Implied(m, t).value)
  {
    assert Fits(m.limit);
    hide Inv, StartElement, PopAttach;
    var c := m;
    if m.open == [] && !IsStart(t, Html) {
      StartKeeps(m, Html, []);
      c := StartElement(m, Html, []).value;
    }
    if c.open != [] {
      if LeavesHead(c, t) {
        PopKeeps(c, 0);
        c := PopAttach(c.(excess := 0));
      }
      if LeavesRoot(c, t) {
        StartKeeps(c, if IsHeadStart(t) then Head else Body, []);
      }
    }
  }

  lemma {:induction false} PopOneKeeps(m: Machine)
    requires Inv(m) && m.open != []
    ensures Inv(PopOne(m))
  {
    if |m.open| >= 2 {
      PopKeeps(m, if Below(|m.open|, m.limit) then 0 else m.excess);
    }
  }

  lemma {:induction false} PopToKeeps(m: Machine, name: Name)
    requires Inv(m)
    ensures Inv(PopTo(m, name))
    decreases |m.open|
  {
    if m.open != [] {
      PopOneKeeps(m);
      if !HasName(m.open[|m.open| - 1].content, name) {
        PopToKeeps(PopOne(m), name);
      }
    }
  }

  lemma {:induction false} ReopenKeeps(m: Machine, entries: seq<Opened>)
    requires Inv(m)
    requires forall i :: 0 <= i < |entries| ==> IsFormat(entries[i].content)
    requires Reopen(m, entries).Ok?
    ensures Inv(Reopen(m, entries).value)
    decreases |entries|
  {
    if entries != [] {
      var content := entries[0].content;
      OpenKeeps(m, content);
      RememberKeeps(OpenNew(m, content), m.count, content);
      ReopenKeeps(Remember(OpenNew(m, content), m.count, content), entries[1..]);
    }
  }

  lemma {:induction false} ReformatKeeps(m: Machine, format: seq<Opened>, excess: nat)
    requires Inv(m) && excess <= m.excess
    requires forall i :: 0 <= i < |format| ==> IsFormat(format[i].content)
    ensures Inv(m.(format := format, excess := excess))
  {
  }

  lemma {:induction false} EndFormatKeeps(m: Machine, name: Name)
    requires Inv(m)
    requires EndFormat(m, name).Ok?
    ensures Inv(EndFormat(m, name).value)
  {
    hide WalkOpen, Walk, Ordered;
    var found := LastFormat(m.format, name, |m.format|);
    if found == |m.format| {
    } else if m.format[found].id in m.early {
      ReformatKeeps(m, m.format[..found] + m.format[found + 1..], if m.excess > 0 then m.excess - 1 else 0);
    } else {
      ReformatKeeps(m, m.format[..found], m.excess);
      var c := m.(format := m.format[..found]);
      PopToKeeps(c, name);
      ReopenKeeps(PopTo(c, name), m.format[found + 1..]);
    }
  }

  lemma {:induction false} StepKeeps(m: Machine, token: Token)
    requires Inv(m)
    requires Step(m, token).Ok?
    ensures Inv(Step(m, token).value)
  {
    hide WalkOpen, Walk;
    match token
    case TextToken(text) =>
      ImpliedKeeps(m, None);
      var m1 := Implied(m, None).value;
      LeafKeeps(m1, Text(text));
    case TagToken(tag) =>
      if !tag.Declaration? {
        ImpliedKeeps(m, Some(tag));
        var m1 := Implied(m, Some(tag)).value;
        var m2 := m1;
        if ClosesOne(m1, tag) {
          EndPlainKeeps(m1);
          m2 := EndPlain(m1);
        }
        match tag
        case End(name) =>
          if name.Format? {
            EndFormatKeeps(m2, name);
          } else {
            EndPlainKeeps(m2);
          }
        case Start(name, attributes) =>
          StartKeeps(m2, name, attributes);
      }
  }

  /** Along every run the open elements stay within the cap, start with html, and hold a
      pre-order walk of consecutive ids. */
  lemma {:induction false} RunKeeps(limit: Option<nat>, budget: nat, tokens: seq<Token>)
    requires Fits(limit)
    requires Run(Initial(limit, budget), tokens).Ok?
    ensures Inv(Run(Initial(limit, budget), tokens).value)
    decreases |tokens|
  {
    if tokens != [] {
      RunKeeps(limit, budget, tokens[..|tokens| - 1]);
      StepKeeps(Run(Initial(limit, budget), tokens[..|tokens| - 1]).value, tokens[|tokens| - 1]);
    }
  }

  lemma {:induction false} CloseAllWalk(open: seq<Tree>)
    requires open != []
    ensures Walk(CloseAll(open), 0) == WalkOpen(open)
    ensures CloseAll(open).content == open[0].content
    decreases |open|
  {
    var n := |open|;
    if n > 1 {
      WalkAttach(open[..n - 1], open[n - 1]);
      CloseAllWalk(Attach(open[..n - 1], open[n - 1]));
    } else {
      assert open == [] + [open[0]];
      assert WalkOpen(open[..0]) == [];
    }
  }

  lemma {:induction false} FinishKeeps(m: Machine)
    requires Inv(m)
    requires Finish(m).Ok?
    ensures Inv(Finish(m).value)
  {
    if m.open == [] {
      ImpliedKeeps(m, None);
    }
  }

  /** A pre-order walk from the root meets exactly the nodes made since the root, in the order
      they were made. */
  ghost predicate InSourceOrder(root: Tree, count: nat) {
    var w := Walk(root, 0);
    root.id + |w| == count && forall k :: 0 <= k < |w| ==> w[k].id == root.id + k
  }

  ghost predicate NoDeeper(root: Tree, limit: nat) {
    var w := Walk(root, 0);
    forall k :: 0 <= k < |w| ==> Shallow(w[k], limit)
  }

  lemma {:induction false} FinishedTree(c: Machine)
    requires Inv(c) && c.open != []
    ensures var root := CloseAll(c.open);
      && HasName(root.content, Html)
      && InSourceOrder(root, c.count)
      && (c.limit.Some? ==> NoDeeper(root, c.limit.value))
  {
    var root := CloseAll(c.open);
    CloseAllWalk(c.open);
    assert Walk(root, 0)[0].id == root.id;
  }

  /** Every parsed document has html at its root, is in source order, and no node of it has more
      than `limit` ancestors, no element that can hold others even that many. */
  lemma {:induction false} ParsedDocument(limit: Option<nat>, budget: nat, tokens: seq<Token>)
    requires Fits(limit)
    requires Parse(limit, budget, tokens).Ok?
    ensures var (count, root) := Parse(limit, budget, tokens).value;
      && HasName(root.content, Html)
      && InSourceOrder(root, count)
      && (limit.Some? ==> NoDeeper(root, limit.value))
  {
    RunKeeps(limit, budget, tokens);
    var m := Run(Initial(limit, budget), tokens).value;
    FinishKeeps(m);
    var c := Finish(m).value;
    FinishedTree(c);
  }
}
