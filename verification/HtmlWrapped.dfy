/** Markup behind html and body tags, as src/dom.c wraps it: the second node is a body for good. */
module HtmlWrapped {
  import opened Results
  import opened HtmlMachine
  import opened HtmlOrder

  /** The two tags in front of the markup; what follows them is the tokenizer's affair. */
  function Wrapped(rest: seq<Token>): seq<Token> {
    [TagToken(Start(Html, [])), TagToken(Start(Body, []))] + rest
  }

  ghost predicate SecondIsBody(w: seq<Entry>) {
    forall k :: 0 <= k < |w| && w[k].id == 1 ==> HasName(w[k].content, Body)
  }

  ghost predicate Marks(m: Machine) {
    m.count >= 2 && SecondIsBody(WalkOpen(m.open))
  }

  lemma {:induction false} MarksGrow(m: Machine, o: Machine, e: Entry)
    requires Marks(m) && o.count >= m.count && e.id >= 2
    requires WalkOpen(o.open) == WalkOpen(m.open) + [e]
    ensures Marks(o)
  {
    hide WalkOpen;
  }

  lemma {:induction false} MarksSame(m: Machine, o: Machine)
    requires Marks(m) && o.count == m.count && o.open == m.open
    ensures Marks(o)
  {
  }

  lemma {:induction false} LeafMarks(m: Machine, content: Content)
    requires Inv(m) && Marks(m) && m.open != []
    ensures Marks(AddLeaf(m, content))
  {
    hide Inv, WalkOpen, Walk;
    var t := Tree(m.count, content, []);
    WalkAttach(m.open, t);
    WalkLeaf(t, |m.open|);
    MarksGrow(m, AddLeaf(m, content), Entry(m.count, content, |m.open|));
  }

  lemma {:induction false} OpenMarks(m: Machine, content: Content)
    requires Inv(m) && Marks(m)
    ensures Marks(OpenNew(m, content))
  {
    var c := m.(count := m.count + 1);
    var t := Tree(m.count, content, []);
    assert Shaped(c);
    OpenWalk(c, t);
    OpenCounts(c, t);
    hide WalkOpen, OpenElement, Inv, Shaped;
    MarksGrow(m, OpenNew(m, content), Entry(m.count, content, |OpenNew(m, content).open| - 1));
  }

  lemma {:induction false} StartMarks(m: Machine, name: Name, attributes: Attributes)
    requires Inv(m) && Marks(m)
    requires m.open == [] ==> name == Html
    requires StartElement(m, name, attributes).Ok?
    ensures Marks(StartElement(m, name, attributes).value)
  {
    assert Fits(m.limit);
    hide Inv, Marks, OpenNew, AddLeaf;
    var content := Element(name, attributes);
    if IsVoid(name) {
      LeafMarks(m, content);
    } else {
      OpenMarks(m, content);
      if name.Format? {
        MarksSame(OpenNew(m, content), Remember(OpenNew(m, content), m.count, content));
      }
    }
  }

  lemma {:induction false} PopMarks(m: Machine, excess: nat)
    requires Marks(m) && |m.open| >= 2
    ensures Marks(PopAttach(m.(excess := excess)))
  {
    WalkPop(m.(excess := excess));
    hide WalkOpen;
  }

  lemma {:induction false} EndPlainMarks(m: Machine)
    requires Marks(m) && m.open != []
    ensures Marks(EndPlain(m))
  {
    hide Marks;
    if m.excess > 0 && Below(|m.open|, m.limit) {
      MarksSame(m, EndPlain(m));
    } else if |m.open| > 1 {
      PopMarks(m, m.excess);
    }
  }

  lemma {:induction false} ImpliedMarks(m: Machine, t: Option<Tag>)
    requires Inv(m) && Marks(m)
    requires Implied(m, t).Ok?
    ensures Marks(Implied(m, t).value)
  {
    assert Fits(m.limit);
    hide Inv, Marks, StartElement, PopAttach;
    var c := m;
    if m.open == [] && !IsStart(t, Html) {
      StartKeeps(m, Html, []);
      StartMarks(m, Html, []);
      c := StartElement(m, Html, []).value;
    }
    if c.open != [] {
      if LeavesHead(c, t) {
        PopKeeps(c, 0);
        PopMarks(c, 0);
        c := PopAttach(c.(excess := 0));
      }
      if LeavesRoot(c, t) {
        StartMarks(c, if IsHeadStart(t) then Head else Body, []);
      }
    }
  }

  lemma {:induction false} PopToMarks(m: Machine, name: Name)
    requires Marks(m)
    ensures Marks(PopTo(m, name))
    decreases |m.open|
  {
    if m.open != [] {
      PopOneMarks(m);
      hide Marks, PopOne;
      if !HasName(m.open[|m.open| - 1].content, name) {
        PopOneShorter(m);
        PopToMarks(PopOne(m), name);
      }
    }
  }

  lemma {:induction false} PopOneShorter(m: Machine)
    requires m.open != []
    ensures |PopOne(m).open| < |m.open|
  {
  }

  lemma {:induction false} PopOneMarks(m: Machine)
    requires Marks(m) && m.open != []
    ensures Marks(PopOne(m))
  {
    if |m.open| >= 2 {
      PopMarks(m, if Below(|m.open|, m.limit) then 0 else m.excess);
    } else {
      assert WalkOpen([]) == [];
    }
  }

  lemma {:induction false} ReopenMarks(m: Machine, entries: seq<Opened>)
    requires Inv(m) && Marks(m)
    requires forall i :: 0 <= i < |entries| ==> IsFormat(entries[i].content)
    requires Reopen(m, entries).Ok?
    ensures Marks(Reopen(m, entries).value)
    decreases |entries|
  {
    assert Fits(m.limit);
    hide Inv, Marks, OpenNew;
    if entries != [] {
      var content := entries[0].content;
      OpenKeeps(m, content);
      RememberKeeps(OpenNew(m, content), m.count, content);
      OpenMarks(m, content);
      MarksSame(OpenNew(m, content), Remember(OpenNew(m, content), m.count, content));
      ReopenMarks(Remember(OpenNew(m, content), m.count, content), entries[1..]);
    }
  }

  lemma {:induction false} EndFormatMarks(m: Machine, name: Name)
    requires Inv(m) && Marks(m)
    requires EndFormat(m, name).Ok?
    ensures Marks(EndFormat(m, name).value)
  {
    assert forall i :: 0 <= i < |m.format| ==> IsFormat(m.format[i].content);
    hide Inv, Marks, PopTo;
    var found := LastFormat(m.format, name, |m.format|);
    if found < |m.format| {
      if m.format[found].id in m.early {
        MarksSame(m, EndFormat(m, name).value);
      } else {
        ReformatKeeps(m, m.format[..found], m.excess);
        var c := m.(format := m.format[..found]);
        assert c == m.(format := m.format[..found], excess := m.excess);
        MarksSame(m, c);
        PopToKeeps(c, name);
        PopToMarks(c, name);
        ReopenMarks(PopTo(c, name), m.format[found + 1..]);
      }
    }
  }

  lemma {:induction false} TagMarks(m: Machine, tag: Tag)
    requires Inv(m) && Marks(m) && !tag.Declaration?
    requires HandleTag(m, tag).Ok?
    ensures Marks(HandleTag(m, tag).value)
  {
    assert Fits(m.limit);
    hide Inv, Marks, StartElement, EndFormat, Implied, EndPlain;
    ImpliedKeeps(m, Some(tag));
    ImpliedMarks(m, Some(tag));
    var m1 := Implied(m, Some(tag)).value;
    var m2 := m1;
    if ClosesOne(m1, tag) {
      EndPlainKeeps(m1);
      EndPlainMarks(m1);
      m2 := EndPlain(m1);
    }
    if tag.Start? {
      StartMarks(m2, tag.name, tag.attributes);
    } else if tag.name.Format? {
      EndFormatMarks(m2, tag.name);
    } else {
      EndPlainMarks(m2);
    }
  }

  lemma {:induction false} StepMarks(m: Machine, token: Token)
    requires Inv(m) && Marks(m)
    requires Step(m, token).Ok?
    ensures Marks(Step(m, token).value)
  {
    assert Fits(m.limit);
    hide Inv, Marks, Implied, AddLeaf;
    match token
    case TextToken(text) =>
      ImpliedKeeps(m, None);
      ImpliedMarks(m, None);
      LeafMarks(Implied(m, None).value, Text(text));
    case TagToken(tag) =>
      if !tag.Declaration? {
        hide HandleTag;
        TagMarks(m, tag);
      }
  }

  // ----- The two tags -----

  /** The machine with one more open element at the top. */
  function Deeper(m: Machine, name: Name): Machine {
    m.(count := m.count + 1, open := m.open + [Tree(m.count, Element(name, []), [])])
  }

  /** Below the cap a start tag that implies and closes nothing opens its element. */
  lemma {:induction false} OpensPlainly(m: Machine, name: Name)
    requires Fits(m.limit) && Below(|m.open|, m.limit) && (m.budget == 0 || m.count < m.budget)
    requires !IsVoid(name) && !name.Format? && name != P && name != Li
    requires Implied(m, Some(Start(name, []))) == Ok(m)
    ensures HandleTag(m, Start(name, [])) == Ok(Deeper(m, name))
  {
    hide Implied;
  }

  lemma {:induction false} FirstTags(limit: Option<nat>, budget: nat)
    requires Fits(limit) && (limit.Some? ==> limit.value >= 3) && (budget == 0 || budget >= 2)
    ensures var m := Deeper(Deeper(Initial(limit, budget), Html), Body);
      Run(Initial(limit, budget), Wrapped([])) == Ok(m)
  {
    var start := Initial(limit, budget);
    var one := Deeper(start, Html);
    OpensPlainly(start, Html);
    OpensPlainly(one, Body);
    hide HandleTag;
    var tokens := Wrapped([]);
    assert tokens[..1] == [tokens[0]] && tokens[..1][..0] == [];
    assert Run(start, tokens[..0]) == Ok(start);
    assert Run(start, tokens[..1]) == Ok(one);
  }

  lemma {:induction false} FirstMarks(limit: Option<nat>, budget: nat)
    ensures Marks(Deeper(Deeper(Initial(limit, budget), Html), Body))
  {
    var one := Tree(0, Element(Html, []), []);
    var two := Tree(1, Element(Body, []), []);
    assert WalkOpen([]) == [];
    WalkOpenPush([], one);
    WalkOpenPush([one], two);
    WalkLeaf(one, 0);
    WalkLeaf(two, 1);
    assert [] + [one] == [one] && [one] + [two] == [one, two];
    hide WalkOpen, Walk;
  }

  lemma {:induction false} RunMarks(limit: Option<nat>, budget: nat, rest: seq<Token>)
    requires Fits(limit) && (limit.Some? ==> limit.value >= 3) && (budget == 0 || budget >= 2)
    requires Run(Initial(limit, budget), Wrapped(rest)).Ok?
    ensures Marks(Run(Initial(limit, budget), Wrapped(rest)).value)
    decreases |rest|
  {
    hide Marks, Step;
    var tokens := Wrapped(rest);
    if rest == [] {
      assert tokens == Wrapped([]);
      FirstTags(limit, budget);
      FirstMarks(limit, budget);
    } else {
      var front := rest[..|rest| - 1];
      assert tokens[..|tokens| - 1] == Wrapped(front);
      RunMarks(limit, budget, front);
      RunKeeps(limit, budget, Wrapped(front));
      StepMarks(Run(Initial(limit, budget), Wrapped(front)).value, rest[|rest| - 1]);
    }
  }

  /** In a parse of wrapped markup the node with id 1, if it is still in the document, is a body. */
  lemma {:induction false} WrappedBody(limit: Option<nat>, budget: nat, rest: seq<Token>)
    requires Fits(limit) && (limit.Some? ==> limit.value >= 3) && (budget == 0 || budget >= 2)
    requires Parse(limit, budget, Wrapped(rest)).Ok?
    ensures SecondIsBody(Walk(Parse(limit, budget, Wrapped(rest)).value.1, 0))
  {
    hide Marks, Implied, Run;
    RunKeeps(limit, budget, Wrapped(rest));
    RunMarks(limit, budget, rest);
    var m := Run(Initial(limit, budget), Wrapped(rest)).value;
    if m.open == [] {
      ImpliedMarks(m, None);
    }
    var c := Finish(m).value;
    CloseAllWalk(c.open);
    MarkedWalk(c);
  }

  lemma {:induction false} MarkedWalk(m: Machine)
    requires Marks(m)
    ensures SecondIsBody(WalkOpen(m.open))
  {
  }
}
