/** Tags that are left out or out of place mean what the tags in full and in order mean. */
module HtmlLeftOut {
  import opened Results
  import opened HtmlMachine
  import opened HtmlOrder
  import opened HtmlRoundTrip

  // ----- Tags that are left out -----

  function TagOf(token: Token): Option<Tag> {
    if token.TagToken? then Some(token.tag) else None
  }

  predicate Starts(token: Token, name: Name) {
    token.TagToken? && token.tag.Start? && token.tag.name == name
  }

  predicate StartsInHead(token: Token) {
    token.TagToken? && token.tag.Start? && (token.tag.name.HeadVoid? || token.tag.name.HeadContent?)
  }

  lemma {:induction false} RunTwo(m: Machine, a: Token, b: Token)
    requires Fits(m.limit)
    ensures Run(m, [a, b]) ==
      if !Step(m, a).Ok? then Step(m, a)
      else (StepLimit(m, a); Step(Step(m, a).value, b))
  {
    hide Step;
    assert [a, b][..1] == [a] && [a][..0] == [];
    assert Run(m, []) == Ok(m);
    StepLimit(m, a);
  }

  lemma {:induction false} StepLimit(m: Machine, a: Token)
    requires Fits(m.limit)
    ensures Step(m, a).Ok? ==> Fits(Step(m, a).value.limit)
  {
    assert [a][..0] == [];
    assert Run(m, []) == Ok(m);
    assert Run(m, [a]) == Step(m, a);
    hide Step;
  }

  /** What a tag or text does once its implied tags are there. */
  function Rest(m: Machine, token: Token): Outcome<Machine>
    requires Fits(m.limit) && m.open != []
  {
    match token
    case TextToken(text) =>
      var m2 :- NewNode(m, Text(text));
      Ok(AddLeaf(m, Text(text)))
    case TagToken(Declaration) => Ok(m)
    case TagToken(End(name)) => if name.Format? then EndFormat(m, name) else Ok(EndPlain(m))
    case TagToken(Start(name, attributes)) =>
      StartElement(if ClosesOne(m, Start(name, attributes)) then EndPlain(m) else m, name, attributes)
  }

  lemma {:induction false} StepParts(m: Machine, token: Token)
    requires Fits(m.limit) && token != TagToken(Declaration) && (m.open == [] ==> !Starts(token, Html))
    ensures var r := Implied(m, TagOf(token));
      Step(m, token) == if !r.Ok? then (if r.Invalid? then Invalid else OverBudget) else Rest(r.value, token)
  {
    hide OpenParagraph, OpenItem, Implied, StartElement, EndFormat, EndPlain, AddLeaf;
  }

  lemma {:induction false} FirstStep(m: Machine, name: Name)
    requires Fits(m.limit) && (name == Html || name == Head || name == Body)
    requires Implied(m, Some(Start(name, []))) == Ok(m)
    ensures Step(m, TagToken(Start(name, []))) == StartElement(m, name, [])
  {
    assert !ClosesOne(m, Start(name, []));
    hide Implied, StartElement, ClosesOne;
    assert HandleTag(m, Start(name, [])) == StartElement(m, name, []);
  }

  /** Before anything but an html tag, html is opened. */
  lemma {:induction false} HtmlSupplied(m: Machine, token: Token)
    requires Fits(m.limit) && m.open == [] && !Starts(token, Html) && token != TagToken(Declaration)
    ensures Step(m, token) == Run(m, [TagToken(Start(Html, [])), token])
  {
    hide Step, Run, StartElement, Rest, Descend;
    var first := TagToken(Start(Html, []));
    RunTwo(m, first, token);
    StepParts(m, token);
    FirstStep(m, Html);
    if Step(m, first).Ok? {
      StepParts(Step(m, first).value, token);
    }
  }

  lemma {:induction false} ContainerOpens(m: Machine, name: Name)
    requires Fits(m.limit) && |m.open| == 1 && HasName(m.open[0].content, Html) && (name == Head || name == Body)
    ensures Implied(m, Some(Start(name, []))) == Ok(m)
    ensures var r := StartElement(m, name, []);
      r.Ok? ==>
        |r.value.open| == 2 && HasName(r.value.open[0].content, Html) && HasName(r.value.open[1].content, name)
  {
  }

  lemma {:induction false} ContainerImplied(m: Machine, token: Token)
    requires Fits(m.limit) && |m.open| == 1 && HasName(m.open[0].content, Html)
    requires !Starts(token, Head) && !Starts(token, Body) && token != TagToken(End(Html)) && token != TagToken(Declaration)
    ensures Implied(m, TagOf(token)) == StartElement(m, if StartsInHead(token) then Head else Body, [])
  {
    hide StartElement;
  }

  lemma {:induction false} NothingMore(m: Machine, token: Token)
    requires Fits(m.limit) && |m.open| == 2
    requires HasName(m.open[1].content, Body) || (HasName(m.open[1].content, Head) && StartsInHead(token))
    ensures Implied(m, TagOf(token)) == Ok(m)
  {
    hide StartElement;
  }

  /** In html alone, a head is opened before what stands in a head, and a body before all the rest. */
  lemma {:induction false} ContainerSupplied(m: Machine, token: Token)
    requires Fits(m.limit) && |m.open| == 1 && HasName(m.open[0].content, Html)
    requires !Starts(token, Head) && !Starts(token, Body) && token != TagToken(End(Html)) && token != TagToken(Declaration)
    ensures Step(m, token) == Run(m, [TagToken(Start(if StartsInHead(token) then Head else Body, [])), token])
  {
    hide Step, Run, StartElement, Rest, Implied;
    var name := if StartsInHead(token) then Head else Body;
    var first := TagToken(Start(name, []));
    RunTwo(m, first, token);
    ContainerOpens(m, name);
    ContainerImplied(m, token);
    FirstStep(m, name);
    StepParts(m, token);
    if Step(m, first).Ok? {
      NothingMore(Step(m, first).value, token);
      StepParts(Step(m, first).value, token);
    }
  }

  lemma {:induction false} HeadLeft(m: Machine, token: Token)
    requires Fits(m.limit) && m.excess == 0
    requires |m.open| == 2 && HasName(m.open[0].content, Html) && HasName(m.open[1].content, Head)
    requires !StartsInHead(token) && token != TagToken(End(Head)) && token != TagToken(Declaration)
    ensures Step(m, token) == Run(m, [TagToken(End(Head)), token])
  {
    var first := TagToken(End(Head));
    RunTwo(m, first, token);
    assert Implied(m, Some(End(Head))) == Ok(m);
    assert Step(m, first) == Ok(PopAttach(m)) && m.(excess := 0) == m;
    assert Implied(m, TagOf(token)) == Implied(PopAttach(m), TagOf(token)) by {
      assert HasName(PopAttach(m).open[0].content, Html) && |PopAttach(m).open| == 1;
      hide StartElement;
    }
    hide OpenParagraph, OpenItem, Implied, StartElement, EndFormat;
  }

  lemma {:induction false} ExcessEnds(m: Machine, token: Token)
    requires Fits(m.limit) && m.excess > 0
    requires |m.open| == 2 && HasName(m.open[0].content, Html) && HasName(m.open[1].content, Head)
    requires !StartsInHead(token) && token != TagToken(End(Head)) && token != TagToken(Declaration)
    ensures Step(m, TagToken(End(Head))) == Ok(m.(excess := m.excess - 1))
    ensures Step(m, token) == Step(m.(excess := m.excess - 1), token)
  {
    assert Implied(m, Some(End(Head))) == Ok(m);
    assert Implied(m, TagOf(token)) == Implied(m.(excess := m.excess - 1), TagOf(token)) by {
      hide StartElement;
    }
    hide OpenParagraph, OpenItem, Implied, StartElement, EndFormat;
  }

  /** So many head end tags. */
  function HeadEnds(n: nat): seq<Token> {
    if n == 0 then [] else [TagToken(End(Head))] + HeadEnds(n - 1)
  }

  /** An open head is closed before what does not stand in one; with elements closed early, their end tags
      come first. */
  lemma {:induction false} HeadClosed(m: Machine, token: Token)
    requires Fits(m.limit)
    requires |m.open| == 2 && HasName(m.open[0].content, Html) && HasName(m.open[1].content, Head)
    requires !StartsInHead(token) && token != TagToken(End(Head)) && token != TagToken(Declaration)
    ensures Step(m, token) == Run(m, HeadEnds(m.excess + 1) + [token])
    decreases m.excess
  {
    hide Step, Run;
    if m.excess == 0 {
      HeadLeft(m, token);
      assert HeadEnds(1) + [token] == [TagToken(End(Head)), token];
    } else {
      ExcessEnds(m, token);
      HeadClosed(m.(excess := m.excess - 1), token);
      RunOne(m, TagToken(End(Head)));
      RunConcat(m, [TagToken(End(Head))], HeadEnds(m.excess) + [token]);
      assert HeadEnds(m.excess + 1) + [token] == [TagToken(End(Head))] + (HeadEnds(m.excess) + [token]);
    }
  }

  predicate IsOpen(open: seq<Tree>, name: Name) {
    exists i :: 0 <= i < |open| && HasName(open[i].content, name)
  }

  /** An li is open with no list inside of it. */
  predicate ItemOpen(open: seq<Tree>) {
    exists i :: 0 <= i < |open| && HasName(open[i].content, Li) &&
      forall j :: i < j < |open| ==> !HasName(open[j].content, Ul) && !HasName(open[j].content, Ol)
  }

  lemma {:induction false} ItemGrows(open: seq<Tree>, t: Tree)
    ensures ItemOpen(open + [t]) <==>
      HasName(t.content, Li) || (!HasName(t.content, Ul) && !HasName(t.content, Ol) && ItemOpen(open))
  {
    var all := open + [t];
    if HasName(t.content, Li) {
      assert HasName(all[|open|].content, Li);
    } else {
      if ItemOpen(open) && !HasName(t.content, Ul) && !HasName(t.content, Ol) {
        ItemMore(open, t);
      }
      if ItemOpen(all) {
        var i :| 0 <= i < |all| && HasName(all[i].content, Li) &&
          forall j :: i < j < |all| ==> !HasName(all[j].content, Ul) && !HasName(all[j].content, Ol);
        assert all[|open|] == t && HasName(open[i].content, Li);
        assert forall j :: i < j < |open| ==> open[j] == all[j];
      }
    }
  }

  lemma {:induction false} ItemMore(open: seq<Tree>, t: Tree)
    requires ItemOpen(open) && !HasName(t.content, Ul) && !HasName(t.content, Ol)
    ensures ItemOpen(open + [t])
  {
    var all := open + [t];
    var i :| 0 <= i < |open| && HasName(open[i].content, Li) &&
      forall j :: i < j < |open| ==> !HasName(open[j].content, Ul) && !HasName(open[j].content, Ol);
    assert HasName(all[i].content, Li);
    assert forall j :: i < j < |all| ==> j == |open| || all[j] == open[j];
  }

  lemma {:induction false} ItemExactly(open: seq<Tree>)
    ensures OpenItem(open) <==> ItemOpen(open)
    decreases |open|
  {
    if open != [] {
      var front, t := open[..|open| - 1], open[|open| - 1];
      assert open == front + [t];
      ItemExactly(front);
      ItemGrows(front, t);
      hide ItemOpen;
    }
  }

  /** A p in an open p, or an li in an open li of the same list, first ends one element: one closed early
      if the stack has room again, otherwise the deepest, whatever it is.  In any other case nothing. */
  lemma {:induction false} OneCloses(m: Machine, name: Name, attributes: Attributes)
    requires Fits(m.limit) && |m.open| >= 2 && !HasName(m.open[1].content, Head) && !IsVoid(name)
    ensures var closes := (name == P && IsOpen(m.open, P)) || (name == Li && ItemOpen(m.open));
      var early := m.excess > 0 && (m.limit.Some? ==> |m.open| < m.limit.value);
      Step(m, TagToken(Start(name, attributes))) ==
        StartElement(if !closes then m else if early then m.(excess := m.excess - 1) else PopAttach(m), name, attributes)
  {
    ItemExactly(m.open);
    assert Implied(m, Some(Start(name, attributes))) == Ok(m);
    hide StartElement, Implied, OpenItem, ItemOpen, PopAttach;
  }

  // ----- Formatting end tags out of place -----

  function PopAll(m: Machine, k: nat): (r: Machine)
    requires k < |m.open|
    ensures r == m.(open := r.open) && |r.open| == |m.open| - k
    decreases k
  {
    if k == 0 then m else PopAll(PopAttach(m), k - 1)
  }

  /** The end tags of these elements, the last first. */
  function Closing(fs: seq<Opened>): seq<Token>
    requires forall i :: 0 <= i < |fs| ==> IsFormat(fs[i].content)
    decreases |fs|
  {
    if fs == [] then []
    else
      assert IsFormat(fs[|fs| - 1].content);
      [TagToken(End(fs[|fs| - 1].content.name))] + Closing(fs[..|fs| - 1])
  }

  /** Their start tags, in order. */
  function Opening(fs: seq<Opened>): seq<Token>
    requires forall i :: 0 <= i < |fs| ==> IsFormat(fs[i].content)
  {
    if fs == [] then []
    else
      assert IsFormat(fs[0].content);
      [TagToken(Start(fs[0].content.name, fs[0].content.attributes))] + Opening(fs[1..])
  }

  /** The deepest open elements are these formatting elements. */
  predicate OnTop(open: seq<Tree>, fs: seq<Opened>) {
    |open| >= |fs| && forall i :: 0 <= i < |fs| ==> open[|open| - |fs| + i].content == fs[i].content
  }

  predicate Clean(m: Machine) {
    && Fits(m.limit) && m.excess == 0 && m.early == {}
    && |m.open| >= 2 && HasName(m.open[0].content, Html) && !HasName(m.open[1].content, Head)
  }

  lemma {:induction false} PopTop(m: Machine, fs: seq<Opened>)
    requires fs != [] && OnTop(m.open, fs) && |m.open| >= 2
    ensures OnTop(PopAttach(m).open, fs[..|fs| - 1]) && |PopAttach(m).open| == |m.open| - 1
    ensures m.open[|m.open| - 1].content == fs[|fs| - 1].content
    ensures forall i :: 0 <= i < |m.open| - 1 ==> PopAttach(m).open[i].content == m.open[i].content
  {
    var n := |fs| - 1;
    assert forall i :: 0 <= i < n ==> fs[..n][i] == fs[i];
    assert m.open[|m.open| - |fs| + n].content == fs[n].content;
  }

  lemma {:induction false} ClosingRuns(m: Machine, below: seq<Opened>, fs: seq<Opened>)
    requires Fits(m.limit) && m.excess == 0 && m.early == {} && m.format == below + fs && OnTop(m.open, fs)
    requires |m.open| >= |fs| + 2 && forall i :: 0 <= i < |fs| ==> IsFormat(fs[i].content)
    ensures Run(m, Closing(fs)) == Ok(PopAll(m, |fs|).(format := below))
    decreases |fs|
  {
    hide Step, Run, PopAttach;
    if fs == [] {
      assert below + fs == below;
      RunNone(m);
    } else {
      var n := |fs| - 1;
      var front, last := fs[..n], fs[n];
      PopTop(m, fs);
      assert m.format == (below + front) + [Opened(last.id, m.open[|m.open| - 1].content)];
      EndRuns(m, last.content.name, below + front, last.id);
      var o := PopAttach(m).(format := below + front);
      PopKeeps1(m);
      ClosingRuns(o, below, front);
      PopAllFormat(PopAttach(m), n, below + front);
      RunOne(m, TagToken(End(last.content.name)));
      RunConcat(m, [TagToken(End(last.content.name))], Closing(front));
    }
  }

  lemma {:induction false} PopKeeps1(m: Machine)
    requires |m.open| >= 2
    ensures PopAttach(m) == m.(open := PopAttach(m).open)
  {
  }

  lemma {:induction false} PopAllFormat(m: Machine, k: nat, format: seq<Opened>)
    requires k < |m.open|
    ensures PopAll(m.(format := format), k) == PopAll(m, k).(format := format)
    decreases k
  {
    if k > 0 {
      PopAllFormat(PopAttach(m), k - 1, format);
    }
  }

  lemma {:induction false} PopAllNext(m: Machine, k: nat)
    requires k + 1 < |m.open|
    ensures PopAll(m, k + 1) == PopAttach(PopAll(m, k))
    decreases k
  {
    if k > 0 {
      PopAllNext(PopAttach(m), k - 1);
    }
  }

  /** The pops of a formatting end tag. */
  lemma {:induction false} PopToAll(m: Machine, name: Name, first: Opened, fs: seq<Opened>)
    requires m.excess == 0 && OnTop(m.open, [first] + fs) && |m.open| >= |fs| + 2
    requires HasName(first.content, name) && forall i :: 0 <= i < |fs| ==> !HasName(fs[i].content, name)
    ensures PopTo(m, name) == PopAll(m, |fs| + 1)
    decreases |fs|
  {
    var all := [first] + fs;
    PopTop(m, all);
    assert PopOne(m) == PopAttach(m);
    hide PopAttach, PopOne;
    assert all[|all| - 1] == if fs == [] then first else fs[|fs| - 1];
    if fs != [] {
      assert all[..|all| - 1] == [first] + fs[..|fs| - 1];
      PopKeeps1(m);
      PopToAll(PopAttach(m), name, first, fs[..|fs| - 1]);
    } else {
      assert PopAll(PopAttach(m), 0) == PopAttach(m);
    }
  }

  lemma {:induction false} OpenStays(m: Machine, content: Content)
    requires Clean(m) || (Fits(m.limit) && |m.open| >= 2 && !HasName(m.open[1].content, Head))
    ensures |OpenNew(m, content).open| >= 2 && !HasName(OpenNew(m, content).open[1].content, Head)
  {
  }

  /** Reopening elements is reading their start tags again. */
  lemma {:induction false} ReopenRuns(m: Machine, fs: seq<Opened>)
    requires Fits(m.limit) && |m.open| >= 2 && !HasName(m.open[1].content, Head)
    requires forall i :: 0 <= i < |fs| ==> IsFormat(fs[i].content)
    ensures Reopen(m, fs) == Run(m, Opening(fs))
    decreases |fs|
  {
    hide Run, OpenNew;
    if fs == [] {
      RunNone(m);
    } else {
      var c := fs[0].content;
      var token := TagToken(Start(c.name, c.attributes));
      StartAgain(m, c);
      RunOne(m, token);
      if Step(m, token).Ok? {
        OpenStays(m, c);
        ReopenRuns(Remember(OpenNew(m, c), m.count, c), fs[1..]);
        hide Step;
        RunConcat(m, [token], Opening(fs[1..]));
      } else {
        hide Step;
        RunFirst(m, token, Opening(fs[1..]));
      }
    }
  }

  lemma {:induction false} RunFirst(m: Machine, token: Token, rest: seq<Token>)
    requires Fits(m.limit) && !Step(m, token).Ok?
    ensures Run(m, [token] + rest) == Step(m, token)
    decreases |rest|
  {
    hide Step;
    var all := [token] + rest;
    if rest == [] {
      assert all == [token];
      RunOne(m, token);
    } else {
      assert all[..|all| - 1] == [token] + rest[..|rest| - 1];
      RunFirst(m, token, rest[..|rest| - 1]);
    }
  }

  lemma {:induction false} StartAgain(m: Machine, c: Content)
    requires Fits(m.limit) && |m.open| >= 2 && !HasName(m.open[1].content, Head) && IsFormat(c)
    ensures Step(m, TagToken(Start(c.name, c.attributes))) ==
      if NewNode(m, c).Ok? then Ok(Remember(OpenNew(m, c), m.count, c)) else OverBudget
  {
    hide OpenParagraph, OpenItem, OpenNew;
    assert Implied(m, Some(Start(c.name, c.attributes))) == Ok(m);
  }

  /** A formatting end tag out of place closes the formatting elements inside its element, then that
      element, and opens those again: it means what all these tags in order mean. */
  lemma {:induction false} OutOfPlace(m: Machine, name: Name, below: seq<Opened>, first: Opened, fs: seq<Opened>)
    requires Clean(m) && m.format == below + ([first] + fs) && OnTop(m.open, [first] + fs) && |m.open| >= |fs| + 3
    requires IsFormat(first.content) && first.content.name == name
    requires forall i :: 0 <= i < |fs| ==> IsFormat(fs[i].content) && fs[i].content.name != name
    ensures Step(m, TagToken(End(name))) == Run(m, Closing(fs) + [TagToken(End(name))] + Opening(fs))
  {
    hide *;
    EndAhead(m, name, below, first, fs);
    AllClose(m, name, below, first, fs);
    PoppedPlain(m, |fs| + 1, below);
    ReopenRuns(PopAll(m, |fs| + 1).(format := below), fs);
    CleanLimit(m);
    RunConcat(m, Closing(fs) + [TagToken(End(name))], Opening(fs));
  }

  lemma {:induction false} CleanLimit(m: Machine)
    requires Clean(m)
    ensures Fits(m.limit) && m.excess == 0 && m.early == {} && |m.open| >= 2
  {
  }

  lemma {:induction false} PoppedPlain(m: Machine, k: nat, format: seq<Opened>)
    requires Clean(m) && k + 2 <= |m.open|
    ensures var d := PopAll(m, k).(format := format);
      && Fits(d.limit) && |d.open| >= 2 && !HasName(d.open[1].content, Head)
      && PopAll(m.(format := format), k) == d
  {
    PopAllOpen(m, k);
    PopAllFormat(m, k, format);
    hide PopAll;
  }

  /** The inner end tags and its own. */
  lemma {:induction false} AllClose(m: Machine, name: Name, below: seq<Opened>, first: Opened, fs: seq<Opened>)
    requires Clean(m) && m.format == below + ([first] + fs) && OnTop(m.open, [first] + fs) && |m.open| >= |fs| + 3
    requires IsFormat(first.content) && first.content.name == name
    requires forall i :: 0 <= i < |fs| ==> IsFormat(fs[i].content)
    ensures Fits(m.limit)
    ensures Run(m, Closing(fs) + [TagToken(End(name))]) == Ok(PopAll(m, |fs| + 1).(format := below))
  {
    hide *;
    CleanLimit(m);
    var k := |fs|;
    OnTopRest(m.open, first, fs);
    assert m.format == (below + [first]) + fs;
    ClosingRuns(m, below + [first], fs);
    var c := PopAll(m, k).(format := below + [first]);
    AfterPops(m, first, fs, k);
    FormatName(first.content, c.open[|c.open| - 1].content, name);
    EndRuns(c, name, below, first.id);
    RunOne(c, TagToken(End(name)));
    RunConcat(m, Closing(fs), [TagToken(End(name))]);
    PopAllNext(m, k);
    PopFormat(PopAll(m, k), below + [first]);
  }

  lemma {:induction false} FormatName(a: Content, b: Content, name: Name)
    requires IsFormat(a) && a.name == name && b == a
    ensures HasName(b, name) && name.Format?
  {
  }

  lemma {:induction false} OnTopRest(open: seq<Tree>, first: Opened, fs: seq<Opened>)
    requires OnTop(open, [first] + fs)
    ensures OnTop(open, fs)
  {
    assert forall i :: 0 <= i < |fs| ==> ([first] + fs)[i + 1] == fs[i];
  }

  lemma {:induction false} PopFormat(m: Machine, format: seq<Opened>)
    requires |m.open| >= 2
    ensures PopAttach(m.(format := format)) == PopAttach(m).(format := format)
  {
  }

  lemma {:induction false} PopAllOpen(m: Machine, k: nat)
    requires k < |m.open|
    ensures forall i :: 0 <= i < |m.open| - k ==> PopAll(m, k).open[i].content == m.open[i].content
    decreases k
  {
    if k > 0 {
      PopAllOpen(PopAttach(m), k - 1);
      var p := PopAttach(m);
      assert forall i :: 0 <= i < |m.open| - 1 ==> p.open[i].content == m.open[i].content;
    }
  }

  lemma {:induction false} AfterPops(m: Machine, first: Opened, fs: seq<Opened>, k: nat)
    requires OnTop(m.open, [first] + fs) && k == |fs| && |m.open| >= k + 2
    ensures var c := PopAll(m, k);
      |c.open| >= 2 && c.open[|c.open| - 1].content == first.content && c == m.(open := c.open)
  {
    PopAllOpen(m, k);
    assert ([first] + fs)[0] == first;
    assert m.open[|m.open| - (k + 1) + 0].content == first.content;
    hide PopAll;
  }

  lemma {:induction false} EndAlone(m: Machine, name: Name)
    requires Clean(m) && name.Format?
    ensures Fits(m.limit) && Step(m, TagToken(End(name))) == EndFormat(m, name)
  {
    hide EndFormat;
  }

  lemma {:induction false} FoundAt(format: seq<Opened>, name: Name, below: seq<Opened>, first: Opened, fs: seq<Opened>)
    requires format == below + ([first] + fs) && HasName(first.content, name)
    requires forall i :: 0 <= i < |fs| ==> !HasName(fs[i].content, name)
    ensures LastFormat(format, name, |format|) == |below|
    ensures format[..|below|] == below && format[|below| + 1..] == fs && format[|below|] == first
  {
    assert format[|below|] == first;
    assert forall i :: |below| < i < |format| ==> format[i] == fs[i - |below| - 1];
    hide HasName;
  }

  lemma {:induction false} EndFormatIs(m: Machine, name: Name, found: nat)
    requires Fits(m.limit) && found < |m.format| && LastFormat(m.format, name, |m.format|) == found && m.early == {}
    ensures EndFormat(m, name) == Reopen(PopTo(m.(format := m.format[..found]), name), m.format[found + 1..])
  {
    hide Reopen, PopTo, LastFormat;
  }

  lemma {:induction false} OtherNames(fs: seq<Opened>, name: Name)
    requires forall i :: 0 <= i < |fs| ==> IsFormat(fs[i].content) && fs[i].content.name != name
    ensures forall i :: 0 <= i < |fs| ==> !HasName(fs[i].content, name)
  {
  }

  /** What the machine does at once. */
  lemma {:induction false} EndAhead(m: Machine, name: Name, below: seq<Opened>, first: Opened, fs: seq<Opened>)
    requires Clean(m) && m.format == below + ([first] + fs) && OnTop(m.open, [first] + fs) && |m.open| >= |fs| + 3
    requires IsFormat(first.content) && first.content.name == name
    requires forall i :: 0 <= i < |fs| ==> IsFormat(fs[i].content) && fs[i].content.name != name
    ensures Fits(PopAll(m.(format := below), |fs| + 1).limit)
    ensures Step(m, TagToken(End(name))) == Reopen(PopAll(m.(format := below), |fs| + 1), fs)
  {
    hide *;
    FormatName(first.content, first.content, name);
    CleanLimit(m);
    EndAlone(m, name);
    OtherNames(fs, name);
    FoundAt(m.format, name, below, first, fs);
    EndFormatIs(m, name, |below|);
    PopToAll(m.(format := below), name, first, fs);
  }
}
