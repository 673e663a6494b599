/** Parsing the tags and texts of a properly nested document gives that document back. */
module HtmlRoundTrip {
  import opened Results
  import opened HtmlMachine
  import opened HtmlOrder

  /** The start tags, texts and end tags of a tree. */
  function Tokens(t: Tree): seq<Token>
    decreases t, 1
  {
    match t.content
    case Text(text) => [TextToken(text)]
    case Element(name, attributes) =>
      if IsVoid(name) then [TagToken(Start(name, attributes))]
      else [TagToken(Start(name, attributes))] + TokensAll(t.kids) + [TagToken(End(name))]
  }

  function TokensAll(ts: seq<Tree>): seq<Token>
    decreases ts, 0
  {
    if ts == [] then [] else TokensAll(ts[..|ts| - 1]) + Tokens(ts[|ts| - 1])
  }

  function Size(t: Tree): nat
    decreases t, 1
  {
    1 + Sizes(t.kids)
  }

  function Sizes(ts: seq<Tree>): nat
    decreases ts, 0
  {
    if ts == [] then 0 else Sizes(ts[..|ts| - 1]) + Size(ts[|ts| - 1])
  }

  /** The ids count up in pre-order from `first`. */
  predicate Numbered(t: Tree, first: nat)
    decreases t, 1
  {
    t.id == first && NumberedAll(t.kids, first + 1)
  }

  predicate NumberedAll(ts: seq<Tree>, first: nat)
    decreases ts, 0
  {
    ts == [] || (NumberedAll(ts[..|ts| - 1], first) && Numbered(ts[|ts| - 1], first + Sizes(ts[..|ts| - 1])))
  }

  /** The element is in a p, or in an li with no list between. */
  datatype Inside = Inside(paragraph: bool, item: bool)

  function Within(name: Name, up: Inside): Inside {
    Inside(up.paragraph || name == P, name == Li || (up.item && name != Ul && name != Ol))
  }

  /** Texts and void elements hold nothing, no p is in a p, no li in an li without a list between, and
      every element that can hold others has fewer than `limit` ancestors. */
  predicate Nested(t: Tree, depth: nat, limit: Option<nat>, up: Inside)
    decreases t, 1
  {
    match t.content
    case Text(_) => t.kids == []
    case Element(name, _) =>
      && (name == P ==> !up.paragraph) && (name == Li ==> !up.item)
      && (if IsVoid(name) then t.kids == []
          else Below(depth, limit) && NestedAll(t.kids, depth + 1, limit, Within(name, up)))
  }

  predicate NestedAll(ts: seq<Tree>, depth: nat, limit: Option<nat>, up: Inside)
    decreases ts, 0
  {
    ts == [] || (NestedAll(ts[..|ts| - 1], depth, limit, up) && Nested(ts[|ts| - 1], depth, limit, up))
  }

  predicate InHead(c: Content) {
    c.Element? && (c.name.HeadVoid? || c.name.HeadContent?)
  }

  /** html holds heads and bodies, and a head only what may stand in a head. */
  predicate Document(t: Tree) {
    && HasName(t.content, Html)
    && (forall k :: 0 <= k < |t.kids| ==>
          || HasName(t.kids[k].content, Body)
          || (HasName(t.kids[k].content, Head) &&
              forall i :: 0 <= i < |t.kids[k].kids| ==> InHead(t.kids[k].kids[i].content)))
  }

  /** No tag is supplied before a node of this content. */
  predicate Fitting(open: seq<Tree>, c: Content) {
    && open != []
    && (|open| == 1 ==> HasName(c, Head) || HasName(c, Body))
    && (|open| == 2 && HasName(open[1].content, Head) ==> InHead(c))
  }

  // ----- Runs -----

  lemma {:induction false} RunConcat(m: Machine, a: seq<Token>, b: seq<Token>)
    requires Fits(m.limit) && Run(m, a).Ok?
    ensures Run(m, a + b) == Run(Run(m, a).value, b)
    decreases |b|
  {
    hide Step;
    if b == [] {
      assert a + b == a;
    } else {
      var n := |b| - 1;
      RunConcat(m, a, b[..n]);
      assert (a + b)[..|a + b| - 1] == a + b[..n] && (a + b)[|a + b| - 1] == b[n];
    }
  }

  lemma {:induction false} RunOne(m: Machine, token: Token)
    requires Fits(m.limit)
    ensures Run(m, [token]) == Step(m, token)
  {
    hide Step;
    assert [token][..0] == [];
    assert Run(m, []) == Ok(m);
  }

  /** The state the round trip runs through: nothing was closed early. */
  ghost predicate Settled(m: Machine, up: Inside) {
    && Fits(m.limit) && m.excess == 0 && m.early == {} && m.open != []
    && OpenParagraph(m.open) == up.paragraph && OpenItem(m.open) == up.item
  }

  predicate Room(m: Machine, size: nat) {
    m.budget == 0 || m.count + size <= m.budget
  }

  function AttachAll(open: seq<Tree>, kids: seq<Tree>): seq<Tree>
    requires open != []
  {
    var top := open[|open| - 1];
    open[..|open| - 1] + [top.(kids := top.kids + kids)]
  }

  lemma {:induction false} SameAbove(open: seq<Tree>, kids: seq<Tree>, c: Content)
    requires open != []
    ensures var o := AttachAll(open, kids);
      && OpenParagraph(o) == OpenParagraph(open) && OpenItem(o) == OpenItem(open)
      && (Fitting(open, c) <==> Fitting(o, c))
  {
    var o := AttachAll(open, kids);
    assert o[..|o| - 1] == open[..|open| - 1];
    assert forall i :: 0 <= i < |open| ==> o[i].content == open[i].content;
  }

  lemma {:induction false} OneAbove(open: seq<Tree>, t: Tree, name: Name, up: Inside)
    requires HasName(t.content, name) && OpenParagraph(open) == up.paragraph && OpenItem(open) == up.item
    ensures OpenParagraph(open + [t]) == Within(name, up).paragraph && OpenItem(open + [t]) == Within(name, up).item
  {
    var o := open + [t];
    assert o[..|o| - 1] == open;
    assert o[|open|] == t;
    assert forall i :: 0 <= i < |open| ==> o[i] == open[i];
  }

  // ----- Single tokens -----

  lemma {:induction false} NothingImplied(m: Machine, name: Name, attributes: Attributes)
    requires Fits(m.limit) && Fitting(m.open, Element(name, attributes))
    ensures Implied(m, Some(Start(name, attributes))) == Ok(m)
  {
  }

  lemma {:induction false} TextRuns(m: Machine, text: string, up: Inside)
    requires Settled(m, up) && Fitting(m.open, Text(text)) && Room(m, 1)
    ensures Step(m, TextToken(text)) == Ok(AddLeaf(m, Text(text)))
  {
    hide OpenParagraph, OpenItem;
  }

  lemma {:induction false} VoidRuns(m: Machine, name: Name, attributes: Attributes, up: Inside)
    requires Settled(m, up) && Fitting(m.open, Element(name, attributes)) && Room(m, 1) && IsVoid(name)
    ensures Step(m, TagToken(Start(name, attributes))) == Ok(AddLeaf(m, Element(name, attributes)))
  {
    NothingImplied(m, name, attributes);
    hide OpenParagraph, OpenItem, Implied, Fitting;
  }

  /** The element of a start tag on top of the stack. */
  function Opening(m: Machine, name: Name, attributes: Attributes): Machine {
    var c := Element(name, attributes);
    m.(count := m.count + 1, open := m.open + [Tree(m.count, c, [])],
       format := if name.Format? then m.format + [Opened(m.count, c)] else m.format)
  }

  lemma {:induction false} StartRuns(m: Machine, name: Name, attributes: Attributes, up: Inside)
    requires Settled(m, up) && Fitting(m.open, Element(name, attributes)) && Room(m, 1) && !IsVoid(name)
    requires (name == P ==> !up.paragraph) && (name == Li ==> !up.item) && Below(|m.open|, m.limit)
    ensures Step(m, TagToken(Start(name, attributes))) == Ok(Opening(m, name, attributes))
    ensures Settled(Opening(m, name, attributes), Within(name, up))
  {
    NothingImplied(m, name, attributes);
    OneAbove(m.open, Tree(m.count, Element(name, attributes), []), name, up);
    hide OpenParagraph, OpenItem, Implied, Fitting;
  }

  lemma {:induction false} EndRuns(m: Machine, name: Name, below: seq<Opened>, id: nat)
    requires Fits(m.limit) && m.excess == 0 && m.early == {} && |m.open| >= 2
    requires HasName(m.open[|m.open| - 1].content, name)
    requires m.format == if name.Format? then below + [Opened(id, m.open[|m.open| - 1].content)] else below
    ensures Step(m, TagToken(End(name))) == Ok(PopAttach(m).(format := below))
  {
    hide OpenParagraph, OpenItem;
    assert Implied(m, Some(End(name))) == Ok(m);
    hide Implied;
    if name.Format? {
      assert m.format[..|below|] == below && m.format[|below| + 1..] == [];
      assert PopTo(m.(format := below), name) == PopOne(m.(format := below));
    }
  }

  // ----- Whole trees -----

  /** The machine after the tokens of some children. */
  function Holding(m: Machine, ts: seq<Tree>): Machine
    requires m.open != []
  {
    m.(count := m.count + Sizes(ts), open := AttachAll(m.open, ts))
  }

  predicate MayHold(t: Tree) {
    forall i :: 0 <= i < |t.kids| ==> InHead(t.kids[i].content)
  }

  lemma {:induction false} HoldingSettled(m: Machine, ts: seq<Tree>, up: Inside, c: Content)
    requires Settled(m, up)
    ensures Settled(Holding(m, ts), up) && (Fitting(m.open, c) <==> Fitting(Holding(m, ts).open, c))
  {
    SameAbove(m.open, ts, c);
    hide OpenParagraph, OpenItem, Fitting, Sizes;
  }

  lemma {:induction false} HoldingOne(m: Machine, t: Tree)
    requires m.open != []
    ensures Holding(m, [t]) == m.(count := m.count + Size(t), open := Attach(m.open, t))
  {
    assert [t][..0] == [];
    assert Sizes([]) == 0;
    hide Size;
  }

  lemma {:induction false} HoldingMore(m: Machine, ts: seq<Tree>)
    requires m.open != [] && ts != []
    ensures Holding(m, ts) == Holding(Holding(m, ts[..|ts| - 1]), [ts[|ts| - 1]])
  {
    var t := ts[|ts| - 1];
    assert [t][..0] == [];
    assert Sizes([]) == 0;
    assert ts == ts[..|ts| - 1] + [t];
    hide Size;
    assert m.open[|m.open| - 1].kids + ts == m.open[|m.open| - 1].kids + ts[..|ts| - 1] + [t];
  }

  lemma {:induction false} HoldingNone(m: Machine)
    requires m.open != []
    ensures Holding(m, []) == m
  {
    var top := m.open[|m.open| - 1];
    assert top.kids + [] == top.kids;
    assert AttachAll(m.open, []) == m.open;
  }

  lemma {:induction false} LeafHolding(m: Machine, t: Tree)
    requires m.open != [] && t.id == m.count && t.kids == []
    ensures Holding(m, [t]) == AddLeaf(m, t.content)
  {
    HoldingOne(m, t);
    assert Sizes([]) == 0;
    assert t == Tree(m.count, t.content, []);
  }

  /** A whole element closed is the element with its children. */
  lemma {:induction false} ElementHolding(m: Machine, t: Tree, name: Name, attributes: Attributes)
    requires m.open != [] && t.id == m.count && t.content == Element(name, attributes)
    ensures var o := Holding(Opening(m, name, attributes), t.kids);
      && |o.open| >= 2 && HasName(o.open[|o.open| - 1].content, name)
      && PopAttach(o).(format := m.format) == Holding(m, [t])
  {
    HoldingOne(m, t);
    hide Sizes;
    var o := Holding(Opening(m, name, attributes), t.kids);
    assert o.open[..|o.open| - 1] == m.open;
    assert [] + t.kids == t.kids;
    assert o.open[|o.open| - 1] == Tree(m.count, t.content, t.kids) == t;
  }

  lemma {:induction false} TreeRuns(m: Machine, t: Tree, up: Inside)
    requires Settled(m, up) && Fitting(m.open, t.content) && Numbered(t, m.count) && Room(m, Size(t))
    requires Nested(t, |m.open|, m.limit, up)
    requires |m.open| == 1 && HasName(t.content, Head) ==> MayHold(t)
    ensures Run(m, Tokens(t)) == Ok(Holding(m, [t]))
    decreases t, 1
  {
    hide Settled, Fitting, Holding, Run, Step, Room;
    match t.content
    case Text(text) =>
      LeafTree(m, t, up);
    case Element(name, attributes) =>
      if IsVoid(name) {
        LeafTree(m, t, up);
      } else {
        ElementStarts(m, t, up);
        var o := Opening(m, name, attributes);
        ForestRuns(o, t.kids, Within(name, up));
        ElementEnds(m, t, up);
      }
  }

  lemma {:induction false} LeafTree(m: Machine, t: Tree, up: Inside)
    requires Settled(m, up) && Fitting(m.open, t.content) && t.id == m.count && Room(m, 1)
    requires t.kids == [] && (t.content.Text? || IsVoid(t.content.name))
    ensures Run(m, Tokens(t)) == Ok(Holding(m, [t]))
  {
    LeafHolding(m, t);
    match t.content
    case Text(text) =>
      TextRuns(m, text, up);
      RunOne(m, TextToken(text));
    case Element(name, attributes) =>
      VoidRuns(m, name, attributes, up);
      RunOne(m, TagToken(Start(name, attributes)));
  }

  /** The children of an element meet what they need. */
  lemma {:induction false} ElementStarts(m: Machine, t: Tree, up: Inside)
    requires Settled(m, up) && Fitting(m.open, t.content) && Numbered(t, m.count) && Room(m, Size(t))
    requires Nested(t, |m.open|, m.limit, up) && Opens(t.content)
    requires |m.open| == 1 && HasName(t.content, Head) ==> MayHold(t)
    ensures var o := Opening(m, t.content.name, t.content.attributes);
      && Settled(o, Within(t.content.name, up)) && NumberedAll(t.kids, o.count) && Room(o, Sizes(t.kids))
      && |o.open| >= 2 && NestedAll(t.kids, |o.open|, o.limit, Within(t.content.name, up))
      && (forall k :: 0 <= k < |t.kids| ==> Fitting(o.open, t.kids[k].content))
      && Run(m, [TagToken(Start(t.content.name, t.content.attributes))]) == Ok(o)
  {
    hide Settled, Run, Step;
    var name, attributes := t.content.name, t.content.attributes;
    SettledHas(m, up);
    StartRuns(m, name, attributes, up);
    RunOne(m, TagToken(Start(name, attributes)));
    var o := Opening(m, name, attributes);
    assert o.open[|m.open|].content == t.content;
  }

  lemma {:induction false} ElementEnds(m: Machine, t: Tree, up: Inside)
    requires Settled(m, up) && t.id == m.count && Opens(t.content)
    requires Run(m, [TagToken(Start(t.content.name, t.content.attributes))]) ==
      Ok(Opening(m, t.content.name, t.content.attributes))
    requires Run(Opening(m, t.content.name, t.content.attributes), TokensAll(t.kids)) ==
      Ok(Holding(Opening(m, t.content.name, t.content.attributes), t.kids))
    ensures Run(m, Tokens(t)) == Ok(Holding(m, [t]))
  {
    var name, attributes := t.content.name, t.content.attributes;
    var o := Opening(m, name, attributes);
    var h := Holding(o, t.kids);
    assert Tokens(t) == [TagToken(Start(name, attributes))] + TokensAll(t.kids) + [TagToken(End(name))];
    hide Run, Step, TokensAll, Tokens, OpenParagraph, OpenItem;
    ElementHolding(m, t, name, attributes);
    EndRuns(h, name, m.format, m.count);
    RunOne(h, TagToken(End(name)));
    RunConcat(m, [TagToken(Start(name, attributes))], TokensAll(t.kids));
    RunConcat(m, [TagToken(Start(name, attributes))] + TokensAll(t.kids), [TagToken(End(name))]);
  }

  lemma {:induction false} ForestRuns(m: Machine, ts: seq<Tree>, up: Inside)
    requires Settled(m, up) && NumberedAll(ts, m.count) && Room(m, Sizes(ts)) && NestedAll(ts, |m.open|, m.limit, up)
    requires forall k :: 0 <= k < |ts| ==> Fitting(m.open, ts[k].content)
    requires |m.open| == 1 ==> forall k :: 0 <= k < |ts| && HasName(ts[k].content, Head) ==> MayHold(ts[k])
    ensures Run(m, TokensAll(ts)) == Ok(Holding(m, ts))
    decreases ts, 0
  {
    hide Settled, Fitting, Run, Step, Holding;
    assert m.open != [] && Fits(m.limit) by {
      SettledHas(m, up);
    }
    if ts == [] {
      HoldingNone(m);
      RunNone(m);
    } else {
      var n := |ts| - 1;
      var front, t := ts[..n], ts[n];
      ForestRuns(m, front, up);
      HoldingSettled(m, front, up, t.content);
      HoldingParts(m, front);
      TreeRuns(Holding(m, front), t, up);
      HoldingMore(m, ts);
      RunConcat(m, TokensAll(front), Tokens(t));
    }
  }

  lemma {:induction false} SettledHas(m: Machine, up: Inside)
    requires Settled(m, up)
    ensures m.open != [] && Fits(m.limit)
  {
  }

  lemma {:induction false} RunNone(m: Machine)
    requires Fits(m.limit)
    ensures Run(m, []) == Ok(m)
  {
  }

  lemma {:induction false} HoldingParts(m: Machine, ts: seq<Tree>)
    requires m.open != []
    ensures var h := Holding(m, ts);
      h.count == m.count + Sizes(ts) && |h.open| == |m.open| && h.limit == m.limit && h.budget == m.budget
  {
  }

  lemma {:induction false} RootSettled(m: Machine)
    requires Fits(m.limit) && m.excess == 0 && m.early == {} && |m.open| == 1 && HasName(m.open[0].content, Html)
    ensures Settled(m, Inside(false, false))
  {
    assert m.open[..0] == [];
  }

  /** The tags and texts of a properly nested document parse to that document. */
  lemma {:induction false} ReadsBack(limit: Option<nat>, budget: nat, t: Tree)
    requires Fits(limit) && Document(t) && Numbered(t, 0) && Nested(t, 0, limit, Inside(false, false))
    requires budget == 0 || Size(t) <= budget
    ensures Parse(limit, budget, Tokens(t)) == Ok((Size(t), t))
  {
    RootRuns(limit, budget, t);
    hide Run, Tokens;
    assert CloseAll([t]) == t;
  }

  lemma {:induction false} RootRuns(limit: Option<nat>, budget: nat, t: Tree)
    requires Fits(limit) && Document(t) && Numbered(t, 0) && Nested(t, 0, limit, Inside(false, false))
    requires budget == 0 || Size(t) <= budget
    ensures var r := Run(Initial(limit, budget), Tokens(t));
      r.Ok? && r.value.count == Size(t) && r.value.open == [t]
  {
    assert HasName(t.content, Html) && t.id == 0;
    hide Run, Step, Settled, Fitting, Holding, Opening, Document, Nested, Room;
    var m := Initial(limit, budget);
    var attributes := t.content.attributes;
    var first, last := TagToken(Start(Html, attributes)), TagToken(End(Html));
    RootStarts(limit, budget, t);
    var o := Opening(m, Html, attributes);
    ForestRuns(o, t.kids, Inside(false, false));
    RunConcat(m, [first], TokensAll(t.kids));
    var h := Holding(o, t.kids);
    RootHolds(limit, budget, t);
    RunOne(h, last);
    RunConcat(m, [first] + TokensAll(t.kids), [last]);
  }

  lemma {:induction false} RootStarts(limit: Option<nat>, budget: nat, t: Tree)
    requires Fits(limit) && Document(t) && Numbered(t, 0) && Nested(t, 0, limit, Inside(false, false))
    requires budget == 0 || Size(t) <= budget
    ensures var o := Opening(Initial(limit, budget), Html, t.content.attributes);
      && Settled(o, Inside(false, false)) && NumberedAll(t.kids, o.count) && Room(o, Sizes(t.kids)) && |o.open| == 1
      && NestedAll(t.kids, |o.open|, o.limit, Inside(false, false)) && Fits(o.limit)
      && (forall k :: 0 <= k < |t.kids| ==> Fitting(o.open, t.kids[k].content))
      && (forall k :: 0 <= k < |t.kids| && HasName(t.kids[k].content, Head) ==> MayHold(t.kids[k]))
      && Run(Initial(limit, budget), [TagToken(Start(Html, t.content.attributes))]) == Ok(o)
      && Tokens(t) == [TagToken(Start(Html, t.content.attributes))] + TokensAll(t.kids) + [TagToken(End(Html))]
  {
    hide OpenParagraph, OpenItem, Run;
    var m := Initial(limit, budget);
    var o := Opening(m, Html, t.content.attributes);
    RunOne(m, TagToken(Start(Html, t.content.attributes)));
    RootSettled(o);
  }

  lemma {:induction false} RootHolds(limit: Option<nat>, budget: nat, t: Tree)
    requires Fits(limit) && HasName(t.content, Html) && t.id == 0
    ensures var h := Holding(Opening(Initial(limit, budget), Html, t.content.attributes), t.kids);
      Fits(h.limit) && h.count == Size(t) && h.open == [t] && Step(h, TagToken(End(Html))) == Ok(h)
  {
    hide Sizes, OpenParagraph, OpenItem;
    assert [] + t.kids == t.kids;
  }
}
