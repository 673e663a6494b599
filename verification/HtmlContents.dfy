/** What is in a parsed document: the tags and texts of the tokens, once each, in their order. */
module HtmlContents {
  import opened Results
  import opened HtmlMachine
  import opened HtmlOrder

  /** What the tokens write: a start tag its name and attributes, a text itself. */
  function Written(tokens: seq<Token>): seq<Content>
    decreases |tokens|
  {
    if tokens == [] then []
    else
      var before := Written(tokens[..|tokens| - 1]);
      match tokens[|tokens| - 1]
      case TextToken(text) => before + [Text(text)]
      case TagToken(Start(name, attributes)) => before + [Element(name, attributes)]
      case _ => before
  }

  /** A node no tag wrote: html, head or body without attributes. */
  predicate Supplied(c: Content) {
    c == Element(Html, []) || c == Element(Head, []) || c == Element(Body, [])
  }

  /** A formatting element some start tag wrote. */
  predicate Formatting(c: Content, tokens: seq<Token>) {
    c.Element? && c.name.Format? && TagToken(Start(c.name, c.attributes)) in tokens
  }

  predicate Extra(c: Content, tokens: seq<Token>, copies: bool) {
    Supplied(c) || (copies && Formatting(c, tokens))
  }

  /** The written contents in their order, with extras anywhere between them. */
  predicate Spread(all: seq<Content>, written: seq<Content>, tokens: seq<Token>, copies: bool)
    decreases |all|
  {
    if all == [] then written == []
    else
      var front, last := all[..|all| - 1], all[|all| - 1];
      || (written != [] && last == written[|written| - 1] && Spread(front, written[..|written| - 1], tokens, copies))
      || (Extra(last, tokens, copies) && Spread(front, written, tokens, copies))
  }

  function Contents(w: seq<Entry>): (r: seq<Content>)
    ensures |r| == |w|
  {
    seq(|w|, k requires 0 <= k < |w| => w[k].content)
  }

  lemma {:induction false} ContentsMore(w: seq<Entry>, e: Entry)
    ensures Contents(w + [e]) == Contents(w) + [e.content]
  {
  }

  lemma {:induction false} SpreadExtra(all: seq<Content>, written: seq<Content>, tokens: seq<Token>, copies: bool,
                                       c: Content)
    requires Spread(all, written, tokens, copies) && Extra(c, tokens, copies)
    ensures Spread(all + [c], written, tokens, copies)
  {
    assert (all + [c])[..|all|] == all;
  }

  lemma {:induction false} SpreadWritten(all: seq<Content>, written: seq<Content>, tokens: seq<Token>, copies: bool,
                                         c: Content)
    requires Spread(all, written, tokens, copies)
    ensures Spread(all + [c], written + [c], tokens, copies)
  {
    assert (all + [c])[..|all|] == all && (written + [c])[..|written|] == written;
  }

  lemma {:induction false} SpreadKnown(all: seq<Content>, written: seq<Content>, tokens: seq<Token>, token: Token,
                                       copies: bool)
    requires Spread(all, written, tokens, copies)
    ensures Spread(all, written, tokens + [token], copies)
    decreases |all|
  {
    if all != [] {
      var front, last := all[..|all| - 1], all[|all| - 1];
      if Extra(last, tokens, copies) && Spread(front, written, tokens, copies) {
        SpreadKnown(front, written, tokens, token, copies);
      } else {
        SpreadKnown(front, written[..|written| - 1], tokens, token, copies);
      }
    }
  }

  // ----- What every step keeps -----

  predicate Formats(format: seq<Opened>, tokens: seq<Token>) {
    forall i :: 0 <= i < |format| ==> Formatting(format[i].content, tokens)
  }

  /** What the machine holds, read in order; cut if an earlier root was dropped. */
  ghost predicate Tells(m: Machine, written: seq<Content>, tokens: seq<Token>, copies: bool, cut: bool) {
    var w := WalkOpen(m.open);
    && Spread(Contents(w), written, tokens, copies) && Formats(m.format, tokens)
    && (cut ==> m.count > 0 && (w == [] || w[0].id > 0))
  }

  /** One node more: an extra, or the next written one. */
  lemma {:induction false} TellsNode(m: Machine, o: Machine, e: Entry, written: seq<Content>, tokens: seq<Token>,
                                     copies: bool,
                                     cut: bool, next: bool)
    requires Tells(m, written, tokens, copies, cut) && o.count == m.count + 1 && e.id == m.count
    requires WalkOpen(o.open) == WalkOpen(m.open) + [e] && Formats(o.format, tokens)
    requires next || Extra(e.content, tokens, copies)
    ensures Tells(o, if next then written + [e.content] else written, tokens, copies, cut)
  {
    hide WalkOpen, Spread, Extra, Formats, Contents;
    ContentsMore(WalkOpen(m.open), e);
    if next {
      SpreadWritten(Contents(WalkOpen(m.open)), written, tokens, copies, e.content);
    } else {
      SpreadExtra(Contents(WalkOpen(m.open)), written, tokens, copies, e.content);
    }
  }

  lemma {:induction false} LeafTells(m: Machine, content: Content, written: seq<Content>, tokens: seq<Token>,
                                     copies: bool, cut: bool)
    requires Tells(m, written, tokens, copies, cut) && m.open != []
    ensures Tells(AddLeaf(m, content), written + [content], tokens, copies, cut)
  {
    assert Formats(m.format, tokens);
    hide WalkOpen, Walk, Tells;
    var t := Tree(m.count, content, []);
    WalkAttach(m.open, t);
    WalkLeaf(t, |m.open|);
    TellsNode(m, AddLeaf(m, content), Entry(m.count, content, |m.open|), written, tokens, copies, cut, true);
  }

  lemma {:induction false} OpenTells(m: Machine, content: Content, written: seq<Content>, tokens: seq<Token>,
                                     copies: bool,
                                     cut: bool, next: bool)
    requires Shaped(m) && Tells(m, written, tokens, copies, cut) && (next || Extra(content, tokens, copies))
    ensures Tells(OpenNew(m, content), if next then written + [content] else written, tokens, copies, cut)
  {
    assert Formats(m.format, tokens);
    OpenParts(m, content);
    hide WalkOpen, Tells, OpenNew;
    TellsNode(m, OpenNew(m, content), Entry(m.count, content, |OpenNew(m, content).open| - 1), written, tokens, copies, cut, next);
  }

  lemma {:induction false} OpenParts(m: Machine, content: Content)
    requires Shaped(m)
    ensures var o := OpenNew(m, content);
      && o.open != [] && o.count == m.count + 1 && o.format == m.format
      && WalkOpen(o.open) == WalkOpen(m.open) + [Entry(m.count, content, |o.open| - 1)]
  {
    var c := m.(count := m.count + 1);
    OpenWalk(c, Tree(m.count, content, []));
    hide WalkOpen;
  }

  lemma {:induction false} RememberTells(m: Machine, id: nat, content: Content, written: seq<Content>,
                                         tokens: seq<Token>,
                                         copies: bool, cut: bool)
    requires Tells(m, written, tokens, copies, cut) && Formatting(content, tokens)
    ensures Tells(Remember(m, id, content), written, tokens, copies, cut)
  {
    hide WalkOpen, Spread;
  }

  lemma {:induction false} StartTells(m: Machine, name: Name, attributes: Attributes, written: seq<Content>,
                                      tokens: seq<Token>, copies: bool, cut: bool)
    requires Inv(m) && Tells(m, written, tokens, copies, cut) && TagToken(Start(name, attributes)) in tokens
    requires m.open == [] ==> name == Html
    requires StartElement(m, name, attributes).Ok?
    ensures Tells(StartElement(m, name, attributes).value, written + [Element(name, attributes)], tokens, copies, cut)
  {
    assert Fits(m.limit) && Shaped(m);
    hide Inv, Shaped, Tells, OpenNew, AddLeaf;
    var content := Element(name, attributes);
    if IsVoid(name) {
      LeafTells(m, content, written, tokens, copies, cut);
    } else {
      OpenTells(m, content, written, tokens, copies, cut, true);
      if name.Format? {
        RememberTells(OpenNew(m, content), m.count, content, written + [content], tokens, copies, cut);
      }
    }
  }

  lemma {:induction false} SupplyTells(m: Machine, name: Name, written: seq<Content>, tokens: seq<Token>, copies: bool,
                                       cut: bool)
    requires Inv(m) && Tells(m, written, tokens, copies, cut) && (name == Html || name == Head || name == Body)
    requires StartElement(m, name, []).Ok?
    ensures Tells(StartElement(m, name, []).value, written, tokens, copies, cut)
  {
    assert Fits(m.limit) && Shaped(m);
    hide Inv, Shaped, Tells, OpenNew, AddLeaf;
    OpenTells(m, Element(name, []), written, tokens, copies, cut, false);
  }

  lemma {:induction false} PopTells(m: Machine, excess: nat, written: seq<Content>, tokens: seq<Token>, copies: bool,
                                    cut: bool)
    requires Tells(m, written, tokens, copies, cut) && |m.open| >= 2
    ensures Tells(PopAttach(m.(excess := excess)), written, tokens, copies, cut)
  {
    WalkPop(m.(excess := excess));
    hide WalkOpen, Spread;
  }

  lemma {:induction false} EndPlainTells(m: Machine, written: seq<Content>, tokens: seq<Token>, copies: bool, cut: bool)
    requires Tells(m, written, tokens, copies, cut) && m.open != []
    ensures Tells(EndPlain(m), written, tokens, copies, cut)
  {
    hide Tells;
    if m.excess > 0 && Below(|m.open|, m.limit) {
      ExcessTells(m, m.excess - 1, written, tokens, copies, cut);
    } else if |m.open| > 1 {
      PopTells(m, m.excess, written, tokens, copies, cut);
    }
  }

  lemma {:induction false} ExcessTells(m: Machine, excess: nat, written: seq<Content>, tokens: seq<Token>,
                                       copies: bool, cut: bool)
    requires Tells(m, written, tokens, copies, cut)
    ensures Tells(m.(excess := excess), written, tokens, copies, cut)
  {
  }

  lemma {:induction false} ImpliedTells(m: Machine, t: Option<Tag>, written: seq<Content>, tokens: seq<Token>,
                                        copies: bool, cut: bool)
    requires Inv(m) && Tells(m, written, tokens, copies, cut) && Implied(m, t).Ok?
    ensures Tells(Implied(m, t).value, written, tokens, copies, cut)
  {
    assert Fits(m.limit);
    hide Inv, Tells, StartElement, PopAttach;
    var c := m;
    if m.open == [] && !IsStart(t, Html) {
      StartKeeps(m, Html, []);
      SupplyTells(m, Html, written, tokens, copies, cut);
      c := StartElement(m, Html, []).value;
    }
    if c.open != [] {
      if LeavesHead(c, t) {
        PopKeeps(c, 0);
        PopTells(c, 0, written, tokens, copies, cut);
        c := PopAttach(c.(excess := 0));
      }
      if LeavesRoot(c, t) {
        SupplyTells(c, if IsHeadStart(t) then Head else Body, written, tokens, copies, cut);
      }
    }
  }

  // ----- Formatting end tags -----

  /** Popping to an element keeps all that is told, or drops the root and everything with it. */
  lemma {:induction false} PopToTells(m: Machine, name: Name, written: seq<Content>, tokens: seq<Token>, copies: bool,
                                      cut: bool)
    requires Tells(m, written, tokens, copies, cut)
    requires m.open != [] ==> m.count > 0
    ensures var r := PopTo(m, name);
      && r.count == m.count && r.format == m.format
      && (if r.open == [] && m.open != [] then Tells(r, [], tokens, copies, true) else Tells(r, written, tokens, copies, cut))
    decreases |m.open|
  {
    if m.open != [] {
      PopOneTells(m, written, tokens, copies, cut);
      hide Tells, PopOne;
      if !HasName(m.open[|m.open| - 1].content, name) {
        PopOneLess(m);
        if PopOne(m).open != [] {
          PopToTells(PopOne(m), name, written, tokens, copies, cut);
        } else {
          PopToTells(PopOne(m), name, [], tokens, copies, true);
        }
      }
    }
  }

  lemma {:induction false} PopOneLess(m: Machine)
    requires m.open != []
    ensures |PopOne(m).open| == |m.open| - 1
  {
  }

  lemma {:induction false} PopOneTells(m: Machine, written: seq<Content>, tokens: seq<Token>, copies: bool, cut: bool)
    requires Tells(m, written, tokens, copies, cut) && m.open != [] && m.count > 0
    ensures var r := PopOne(m);
      && r.count == m.count && r.format == m.format
      && if r.open == [] then Tells(r, [], tokens, copies, true) else Tells(r, written, tokens, copies, cut)
  {
    if |m.open| >= 2 {
      var excess := if Below(|m.open|, m.limit) then 0 else m.excess;
      assert PopOne(m) == PopAttach(m.(excess := excess));
      PopTells(m, excess, written, tokens, copies, cut);
      hide Tells;
    } else {
      assert WalkOpen([]) == [] && Contents([]) == [];
    }
  }

  lemma {:induction false} ReopenTells(m: Machine, entries: seq<Opened>, written: seq<Content>, tokens: seq<Token>,
                                       cut: bool)
    requires Inv(m) && Tells(m, written, tokens, true, cut) && Formats(entries, tokens)
    requires forall i :: 0 <= i < |entries| ==> IsFormat(entries[i].content)
    requires Reopen(m, entries).Ok?
    ensures Tells(Reopen(m, entries).value, written, tokens, true, cut)
    decreases |entries|
  {
    assert Fits(m.limit) && Shaped(m);
    hide Inv, Shaped, Tells, OpenNew;
    if entries != [] {
      var content := entries[0].content;
      OpenKeeps(m, content);
      RememberKeeps(OpenNew(m, content), m.count, content);
      assert Formatting(content, tokens);
      OpenTells(m, content, written, tokens, true, cut, false);
      RememberTells(OpenNew(m, content), m.count, content, written, tokens, true, cut);
      ReopenTells(Remember(OpenNew(m, content), m.count, content), entries[1..], written, tokens, cut);
    }
  }

  lemma {:induction false} RetireTells(m: Machine, found: nat, excess: nat, written: seq<Content>, tokens: seq<Token>,
                                       copies: bool, cut: bool)
    requires Tells(m, written, tokens, copies, cut) && found < |m.format|
    ensures Tells(m.(format := m.format[..found] + m.format[found + 1..], excess := excess), written, tokens, copies, cut)
    ensures Tells(m.(format := m.format[..found]), written, tokens, copies, cut)
    ensures Formats(m.format[found + 1..], tokens)
  {
    hide Spread, Formatting;
  }

  /** A formatting end tag keeps all that is told, with copies of elements it reopens, or drops it all
      with the root. */
  lemma {:induction false} EndFormatTells(m: Machine, name: Name, written: seq<Content>, tokens: seq<Token>, cut: bool)
      returns (dropped: bool)
    requires Inv(m) && Tells(m, written, tokens, true, cut) && EndFormat(m, name).Ok? && (m.open != [] ==> m.count > 0)
    ensures Tells(EndFormat(m, name).value, if dropped then [] else written, tokens, true, cut || dropped)
  {
    dropped := false;
    var found := LastFormat(m.format, name, |m.format|);
    if found < |m.format| {
      RetireTells(m, found, if m.excess > 0 then m.excess - 1 else 0, written, tokens, true, cut);
      if m.format[found].id !in m.early {
        assert forall i :: 0 <= i < |m.format| ==> IsFormat(m.format[i].content);
        ReformatKeeps(m, m.format[..found], m.excess);
        var c := m.(format := m.format[..found]);
        assert c == m.(format := m.format[..found], excess := m.excess);
        hide Inv, Tells, PopTo;
        PopToTells(c, name, written, tokens, true, cut);
        PopToKeeps(c, name);
        var p := PopTo(c, name);
        dropped := p.open == [] && c.open != [];
        ReopenTells(p, m.format[found + 1..], if dropped then [] else written, tokens, cut || dropped);
      }
    }
  }

  lemma {:induction false} FormatStarted(format: seq<Opened>, tokens: seq<Token>, name: Name, i: nat)
    requires Formats(format, tokens) && i < |format| && HasName(format[i].content, name)
    ensures TagToken(Start(name, format[i].content.attributes)) in tokens
  {
    assert Formatting(format[i].content, tokens);
  }

  /** One whose name no start tag had does nothing. */
  lemma {:induction false} EndFormatQuiet(m: Machine, name: Name, tokens: seq<Token>)
    requires Fits(m.limit) && Formats(m.format, tokens)
    requires forall attributes :: TagToken(Start(name, attributes)) !in tokens
    ensures EndFormat(m, name) == Ok(m)
  {
    hide Formats, Formatting;
    var found := LastFormat(m.format, name, |m.format|);
    if found < |m.format| {
      FormatStarted(m.format, tokens, name, found);
    }
  }

  // ----- Every token -----

  lemma {:induction false} TellsKnown(m: Machine, written: seq<Content>, tokens: seq<Token>, token: Token,
                                      copies: bool, cut: bool)
    requires Tells(m, written, tokens, copies, cut)
    ensures Tells(m, written, tokens + [token], copies, cut)
  {
    SpreadKnown(Contents(WalkOpen(m.open)), written, tokens, token, copies);
    hide WalkOpen, Spread;
  }

  lemma {:induction false} Counted(m: Machine)
    requires Inv(m)
    ensures m.open != [] ==> m.count > 0
  {
    if m.open != [] {
      var n := |m.open| - 1;
      assert WalkOpen(m.open) == WalkOpen(m.open[..n]) + Walk(m.open[n], n);
      assert Walk(m.open[n], n)[0].id == m.open[n].id;
      assert WalkOpen(m.open)[|WalkOpen(m.open[..n])|] == Walk(m.open[n], n)[0];
    }
  }

  /** What one token writes. */
  function Adds(token: Token): seq<Content> {
    match token
    case TextToken(text) => [Text(text)]
    case TagToken(Start(name, attributes)) => [Element(name, attributes)]
    case _ => []
  }

  /** A formatting end tag none of whose name has been started. */
  ghost predicate Unmatched(token: Token, tokens: seq<Token>) {
    token.TagToken? && token.tag.End? && token.tag.name.Format? ==>
      forall attributes :: TagToken(Start(token.tag.name, attributes)) !in tokens
  }

  lemma {:induction false} TagTells(m: Machine, tag: Tag, written: seq<Content>, tokens: seq<Token>, copies: bool,
                                    cut: bool)
      returns (dropped: bool)
    requires Inv(m) && Tells(m, written, tokens, copies, cut) && TagToken(tag) in tokens && HandleTag(m, tag).Ok?
    requires copies || Unmatched(TagToken(tag), tokens)
    ensures Tells(HandleTag(m, tag).value, if dropped then [] else written + Adds(TagToken(tag)), tokens, copies, cut || dropped)
    ensures dropped ==> copies
  {
    dropped := false;
    assert Fits(m.limit);
    assert written + [] == written;
    if !tag.Declaration? {
      hide Inv, Tells, StartElement, EndFormat, Implied, EndPlain;
      ImpliedKeeps(m, Some(tag));
      ImpliedTells(m, Some(tag), written, tokens, copies, cut);
      var m1 := Implied(m, Some(tag)).value;
      var m2 := m1;
      if ClosesOne(m1, tag) {
        EndPlainKeeps(m1);
        EndPlainTells(m1, written, tokens, copies, cut);
        m2 := EndPlain(m1);
      }
      if tag.Start? {
        StartTells(m2, tag.name, tag.attributes, written, tokens, copies, cut);
      } else if !tag.name.Format? {
        EndPlainTells(m2, written, tokens, copies, cut);
      } else if copies {
        Counted(m2);
        dropped := EndFormatTells(m2, tag.name, written, tokens, cut);
      } else {
        TellsFormats(m2, written, tokens, copies, cut);
        EndFormatQuiet(m2, tag.name, tokens);
      }
    }
  }

  lemma {:induction false} TellsFormats(m: Machine, written: seq<Content>, tokens: seq<Token>, copies: bool, cut: bool)
    requires Tells(m, written, tokens, copies, cut)
    ensures Formats(m.format, tokens)
  {
  }

  lemma {:induction false} StepTells(m: Machine, token: Token, written: seq<Content>, tokens: seq<Token>, copies: bool,
                                     cut: bool)
      returns (dropped: bool)
    requires Inv(m) && Tells(m, written, tokens, copies, cut) && Step(m, token).Ok?
    requires copies || Unmatched(token, tokens)
    ensures Tells(Step(m, token).value, if dropped then [] else written + Adds(token), tokens + [token], copies, cut || dropped)
    ensures dropped ==> copies
  {
    assert Fits(m.limit);
    hide Inv, Tells, Implied, AddLeaf, HandleTag;
    TellsKnown(m, written, tokens, token, copies, cut);
    match token
    case TextToken(text) =>
      dropped := false;
      ImpliedTells(m, None, written, tokens + [token], copies, cut);
      LeafTells(Implied(m, None).value, Text(text), written, tokens + [token], copies, cut);
    case TagToken(tag) =>
      assert token in tokens + [token];
      dropped := TagTells(m, tag, written, tokens + [token], copies, cut);
  }

  // ----- Every stream -----

  lemma {:induction false} WrittenMore(tokens: seq<Token>, token: Token)
    ensures Written(tokens + [token]) == Written(tokens) + Adds(token)
  {
    assert (tokens + [token])[..|tokens|] == tokens;
    assert Written(tokens) + [] == Written(tokens);
  }

  /** No formatting end tag of the stream has a start tag of its name before it. */
  ghost predicate AllUnmatched(tokens: seq<Token>) {
    forall k :: 0 <= k < |tokens| ==> Unmatched(tokens[k], tokens[..k])
  }

  lemma {:induction false} RunTells(limit: Option<nat>, budget: nat, tokens: seq<Token>, copies: bool) returns (k: nat)
    requires Fits(limit) && Run(Initial(limit, budget), tokens).Ok? && (copies || AllUnmatched(tokens))
    ensures k <= |tokens| && (k > 0 ==> copies)
    ensures Tells(Run(Initial(limit, budget), tokens).value, Written(tokens[k..]), tokens, copies, k > 0)
    decreases |tokens|
  {
    hide *;
    if tokens == [] {
      k := 0;
      RunNone(limit, budget, tokens, copies);
    } else {
      var front := tokens[..|tokens| - 1];
      RunLast(limit, budget, tokens);
      UnmatchedFront(tokens, copies);
      k := RunTells(limit, budget, front, copies);
      RunKeeps(limit, budget, front);
      k := NextTells(Run(Initial(limit, budget), front).value, tokens, k, copies);
    }
  }

  lemma {:induction false} RunNone(limit: Option<nat>, budget: nat, tokens: seq<Token>, copies: bool)
    requires Fits(limit) && tokens == []
    ensures Run(Initial(limit, budget), tokens).Ok?
    ensures Tells(Run(Initial(limit, budget), tokens).value, Written(tokens[0..]), tokens, copies, false)
  {
    assert WalkOpen([]) == [] && Contents([]) == [];
  }

  /** What is told of the tokens from k on, one token later. */
  lemma {:induction false} NextTells(m: Machine, tokens: seq<Token>, k: nat, copies: bool) returns (next: nat)
    requires tokens != [] && k < |tokens| && (k > 0 ==> copies) && Inv(m) && Fits(m.limit)
    requires Tells(m, Written(tokens[..|tokens| - 1][k..]), tokens[..|tokens| - 1], copies, k > 0)
    requires copies || Unmatched(tokens[|tokens| - 1], tokens[..|tokens| - 1])
    requires Step(m, tokens[|tokens| - 1]).Ok?
    ensures next <= |tokens| && (next > 0 ==> copies)
    ensures Tells(Step(m, tokens[|tokens| - 1]).value, Written(tokens[next..]), tokens, copies, next > 0)
  {
    hide *;
    var front, token := tokens[..|tokens| - 1], tokens[|tokens| - 1];
    var dropped := StepTells(m, token, Written(front[k..]), front, copies, k > 0);
    assert front + [token] == tokens;
    if dropped {
      next := |tokens|;
      WrittenNone(tokens[next..]);
    } else {
      next := k;
      assert tokens[k..] == front[k..] + [token];
      WrittenMore(front[k..], token);
    }
  }

  lemma {:induction false} RunLast(limit: Option<nat>, budget: nat, tokens: seq<Token>)
    requires Fits(limit) && tokens != [] && Run(Initial(limit, budget), tokens).Ok?
    ensures var front := Run(Initial(limit, budget), tokens[..|tokens| - 1]);
      && front.Ok? && Fits(front.value.limit)
      && Step(front.value, tokens[|tokens| - 1]) == Run(Initial(limit, budget), tokens)
  {
    hide Step;
  }

  lemma {:induction false} WrittenNone(tokens: seq<Token>)
    requires tokens == []
    ensures Written(tokens) == []
  {
  }

  lemma {:induction false} UnmatchedFront(tokens: seq<Token>, copies: bool)
    requires tokens != [] && (copies || AllUnmatched(tokens))
    ensures copies || (AllUnmatched(tokens[..|tokens| - 1]) && Unmatched(tokens[|tokens| - 1], tokens[..|tokens| - 1]))
  {
    var front := tokens[..|tokens| - 1];
    assert forall i :: 0 <= i < |front| ==> front[i] == tokens[i] && front[..i] == tokens[..i];
  }

  // ----- The parsed tree -----

  /** Where the written contents are; the rest are extras. */
  ghost predicate PlacedAt(all: seq<Content>, written: seq<Content>, at: seq<nat>, tokens: seq<Token>, copies: bool) {
    && |at| == |written|
    && (forall i, j :: 0 <= i < j < |at| ==> at[i] < at[j])
    && (forall i :: 0 <= i < |at| ==> at[i] < |all| && all[at[i]] == written[i])
    && (forall n :: 0 <= n < |all| && n !in at ==> Extra(all[n], tokens, copies))
  }

  lemma {:induction false} SpreadPlaces(all: seq<Content>, written: seq<Content>, tokens: seq<Token>, copies: bool)
      returns (at: seq<nat>)
    requires Spread(all, written, tokens, copies)
    ensures PlacedAt(all, written, at, tokens, copies)
    decreases |all|
  {
    at := [];
    if all != [] {
      var front, last := all[..|all| - 1], all[|all| - 1];
      if Extra(last, tokens, copies) && Spread(front, written, tokens, copies) {
        at := SpreadPlaces(front, written, tokens, copies);
        PlacesMore(front, written, at, tokens, copies, last);
        assert all == front + [last];
      } else {
        at := SpreadPlaces(front, written[..|written| - 1], tokens, copies);
        PlacesNext(front, written[..|written| - 1], at, tokens, copies, last);
        at := at + [|front|];
        assert all == front + [last] && written == written[..|written| - 1] + [last];
      }
    }
  }

  lemma {:induction false} PlacesMore(all: seq<Content>, written: seq<Content>, at: seq<nat>, tokens: seq<Token>,
                                      copies: bool, c: Content)
    requires PlacedAt(all, written, at, tokens, copies) && Extra(c, tokens, copies)
    ensures PlacedAt(all + [c], written, at, tokens, copies)
  {
    hide Extra;
  }

  lemma {:induction false} PlacesNext(all: seq<Content>, written: seq<Content>, at: seq<nat>, tokens: seq<Token>,
                                      copies: bool, c: Content)
    requires PlacedAt(all, written, at, tokens, copies)
    ensures PlacedAt(all + [c], written + [c], at + [|all|], tokens, copies)
  {
    hide Extra;
    var next := at + [|all|];
    assert next[|at|] == |all|;
    assert forall n :: n in at ==> n in next;
  }

  lemma {:induction false} ParsedTells(limit: Option<nat>, budget: nat, tokens: seq<Token>, copies: bool)
      returns (k: nat)
    requires Fits(limit) && Parse(limit, budget, tokens).Ok? && (copies || AllUnmatched(tokens))
    ensures k <= |tokens| && (k > 0 ==> copies && Parse(limit, budget, tokens).value.1.id > 0)
    ensures Spread(Contents(Walk(Parse(limit, budget, tokens).value.1, 0)), Written(tokens[k..]), tokens, copies)
  {
    hide Run, Implied, Tells, AllUnmatched, Written;
    k := RunTells(limit, budget, tokens, copies);
    RunKeeps(limit, budget, tokens);
    var m := Run(Initial(limit, budget), tokens).value;
    if m.open == [] {
      ImpliedTells(m, None, Written(tokens[k..]), tokens, copies, k > 0);
    }
    var c := Finish(m).value;
    ClosedTells(c, Written(tokens[k..]), tokens, copies, k > 0);
  }

  lemma {:induction false} ClosedTells(m: Machine, written: seq<Content>, tokens: seq<Token>, copies: bool, cut: bool)
    requires Tells(m, written, tokens, copies, cut) && m.open != []
    ensures Spread(Contents(Walk(CloseAll(m.open), 0)), written, tokens, copies)
    ensures cut ==> CloseAll(m.open).id > 0
  {
    CloseAllWalk(m.open);
    assert Walk(CloseAll(m.open), 0)[0].id == CloseAll(m.open).id;
    hide Spread, WalkOpen;
  }

  /** Every tag and text of the stream is one node, in the order of the stream and with the token's
      name, attributes or text.  The other nodes are html, head or body elements without attributes
      and reopened copies of formatting elements.  Only when the first root was dropped do the tokens
      begin after its end.  */
  lemma {:induction false} WrittenOnce(limit: Option<nat>, budget: nat, tokens: seq<Token>)
      returns (k: nat, at: seq<nat>)
    requires Fits(limit) && Parse(limit, budget, tokens).Ok?
    ensures k <= |tokens| && (k > 0 ==> Parse(limit, budget, tokens).value.1.id > 0)
    ensures PlacedAt(Contents(Walk(Parse(limit, budget, tokens).value.1, 0)), Written(tokens[k..]), at, tokens, true)
  {
    hide *;
    k := ParsedTells(limit, budget, tokens, true);
    at := SpreadPlaces(Contents(Walk(Parse(limit, budget, tokens).value.1, 0)), Written(tokens[k..]), tokens, true);
  }

  /** When no formatting end tag has a start tag of its name before it, nothing is dropped or copied. */
  lemma {:induction false} WrittenExactly(limit: Option<nat>, budget: nat, tokens: seq<Token>) returns (at: seq<nat>)
    requires Fits(limit) && Parse(limit, budget, tokens).Ok? && AllUnmatched(tokens)
    ensures PlacedAt(Contents(Walk(Parse(limit, budget, tokens).value.1, 0)), Written(tokens), at, tokens, false)
  {
    hide *;
    var k := ParsedTells(limit, budget, tokens, false);
    assert tokens[k..] == tokens;
    at := SpreadPlaces(Contents(Walk(Parse(limit, budget, tokens).value.1, 0)), Written(tokens), tokens, false);
  }

  /** What the k-th token writes, and nothing else is written. */
  lemma {:induction false} WrittenMember(tokens: seq<Token>, c: Content)
    requires c in Written(tokens)
    ensures match c
      case Text(text) => TextToken(text) in tokens
      case Element(name, attributes) => TagToken(Start(name, attributes)) in tokens
    decreases |tokens|
  {
    if c in Written(tokens[..|tokens| - 1]) {
      WrittenMember(tokens[..|tokens| - 1], c);
    }
  }

  /** Where every node of a parsed tree comes from. */
  lemma {:induction false} EveryContent(limit: Option<nat>, budget: nat, tokens: seq<Token>, e: Entry)
    requires Fits(limit) && Parse(limit, budget, tokens).Ok?
    requires e in Walk(Parse(limit, budget, tokens).value.1, 0)
    ensures match e.content
      case Text(text) => TextToken(text) in tokens
      case Element(name, attributes) =>
        || TagToken(Start(name, attributes)) in tokens
        || ((name == Html || name == Head || name == Body) && attributes == [])
  {
    hide Parse, Walk, Written;
    var k, at := WrittenOnce(limit, budget, tokens);
    var w := Walk(Parse(limit, budget, tokens).value.1, 0);
    var n :| 0 <= n < |w| && w[n] == e;
    assert Contents(w)[n] == e.content;
    if n in at {
      var i :| 0 <= i < |at| && at[i] == n;
      assert e.content == Written(tokens[k..])[i];
      WrittenMember(tokens[k..], e.content);
      assert forall token :: token in tokens[k..] ==> token in tokens;
    }
  }
}
