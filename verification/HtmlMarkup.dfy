/** Markup written for a properly nested document is read and parsed back to that document. */
module HtmlMarkup {
  import opened Results
  import opened HtmlMachine
  import opened HtmlScan
  import opened DomSerialize
  import RoundTrip = HtmlRoundTrip

  function Dom(t: Tree): DomTree
    decreases t, 1
  {
    match t.content
    case Text(text) => Leaf(text)
    case Element(name, attributes) => Branch(TagText(name), attributes, DomAll(t.kids))
  }

  function DomAll(ts: seq<Tree>): (r: seq<DomTree>)
    ensures |r| == |ts| && forall i :: 0 <= i < |ts| ==> r[i] == Dom(ts[i])
    decreases ts, 0
  {
    if ts == [] then [] else DomAll(ts[..|ts| - 1]) + [Dom(ts[|ts| - 1])]
  }

  /** The tree with the attribute values as they are written. */
  function Kept(t: Tree): Tree
    decreases t, 1
  {
    Tree(t.id,
         match t.content
         case Text(text) => t.content
         case Element(name, attributes) => Element(name, Written(attributes)),
         KeptAll(t.kids))
  }

  function KeptAll(ts: seq<Tree>): (r: seq<Tree>)
    ensures |r| == |ts| && forall i :: 0 <= i < |ts| ==> r[i] == Kept(ts[i])
    decreases ts, 0
  {
    if ts == [] then [] else KeptAll(ts[..|ts| - 1]) + [Kept(ts[|ts| - 1])]
  }

  // ----- Names -----

  /** A name with no list of its own is not one of a list. */
  predicate Own(name: Name) {
    name.Other? ==> NameOf(name.text) == name
  }

  lemma {:induction false} FormatRead(name: FormatName)
    ensures NameOf(FormatText(name)) == Format(name) && FormatText(name) !in VOID
  {
  }

  lemma {:induction false} HeadRead(name: HeadName)
    ensures NameOf(HeadText(name)) == HeadContent(name) && HeadText(name) !in VOID
  {
  }

  lemma {:induction false} VoidRead(name: VoidName)
    ensures NameOf(VoidText(name)) == Void(name) && VoidText(name) in VOID
  {
    var i := match name
      case Area => 0 case Br => 2 case Col => 3 case Embed => 4 case Hr => 5 case Img => 6 case Input => 7
      case Param => 10 case Source => 11 case Track => 12 case Wbr => 13;
    assert VOID[i] == VoidText(name);
  }

  /** The parser knows a name by its text, and the void elements are those without an end tag. */
  lemma {:induction false} NameRead(name: Name)
    requires Own(name)
    ensures NameOf(TagText(name)) == name && (TagText(name) in VOID <==> IsVoid(name))
  {
    match name
    case Format(format) => FormatRead(format);
    case HeadContent(headContent) => HeadRead(headContent);
    case Void(void) => VoidRead(void);
    case HeadVoid(_) =>
      assert VOID[1] == "base" && VOID[8] == "link" && VOID[9] == "meta";
    case Other(text) => OtherRead(text);
    case _ =>
  }

  lemma {:induction false} VoidKnown(i: nat)
    requires i < |VOID|
    ensures !NameOf(VOID[i]).Other?
  {
  }

  lemma {:induction false} OtherRead(text: string)
    requires NameOf(text) == Other(text)
    ensures text !in VOID
  {
    hide NameOf;
    forall i | 0 <= i < |VOID|
      ensures VOID[i] != text
    {
      VoidKnown(i);
    }
  }

  // ----- Tokens -----

  /** Every name is one the parser gives that text. */
  predicate Owned(t: Tree)
    decreases t, 1
  {
    (t.content.Element? ==> Own(t.content.name)) && OwnedAll(t.kids)
  }

  predicate OwnedAll(ts: seq<Tree>)
    decreases ts, 0
  {
    ts == [] || (OwnedAll(ts[..|ts| - 1]) && Owned(ts[|ts| - 1]))
  }

  lemma {:induction false} TokensTwo(fold: string -> string, a: seq<Raw>, b: seq<Raw>)
    ensures TokensOf(fold, a + b) == TokensOf(fold, a) + TokensOf(fold, b)
  {
    hide TokenOf;
  }

  lemma {:induction false} TokensOne(fold: string -> string, raw: Raw)
    ensures TokensOf(fold, [raw]) == [TokenOf(fold, raw)]
  {
    hide TokenOf;
  }

  lemma {:induction false} RawsLast(ts: seq<DomTree>, t: DomTree)
    ensures RawsAll(ts + [t]) == RawsAll(ts) + Raws(t)
    decreases |ts|
  {
    hide Raws;
    if ts == [] {
      assert [t][1..] == [] && ts + [t] == [t];
      assert RawsAll([]) == [] && Raws(t) + [] == Raws(t);
    } else {
      assert (ts + [t])[1..] == ts[1..] + [t];
      RawsLast(ts[1..], t);
    }
  }

  lemma {:induction false} ReadableEach(fold: string -> string, ts: seq<DomTree>, i: nat)
    requires ReadableAll(fold, ts) && i < |ts|
    ensures Readable(fold, ts[i])
    decreases |ts|
  {
    hide Readable;
    if i > 0 {
      ReadableEach(fold, ts[1..], i - 1);
    }
  }

  /** What is written for a tree is read as its tokens. */
  lemma {:induction false} TreeTokens(fold: string -> string, t: Tree)
    requires Readable(fold, Dom(t)) && Owned(t)
    ensures TokensOf(fold, Raws(Dom(t))) == RoundTrip.Tokens(Kept(t))
    decreases t, 1
  {
    hide Escape, TagText, NameOf, AttributeText, PlainTag, Keyed, TokenOf, TokensOf;
    match t.content
    case Text(text) =>
      TokensOne(fold, RawText(Escape(text, false)));
      TextRead(fold, text);
    case Element(name, attributes) =>
      NameRead(name);
      var tag := TagText(name);
      StartRead(fold, tag, attributes);
      TokensOne(fold, RawTag(tag + AttributeText(attributes)));
      if IsVoid(name) {
        assert Raws(Dom(t)) == [RawTag(tag + AttributeText(attributes))];
      } else {
        assert ReadableAll(fold, DomAll(t.kids));
        forall i | 0 <= i < |t.kids|
          ensures Readable(fold, Dom(t.kids[i]))
        {
          ReadableEach(fold, DomAll(t.kids), i);
        }
        ForestTokens(fold, t.kids);
        hide Readable, ReadableAll, Owned, OwnedAll, DomAll, KeptAll;
        EndRead(fold, tag);
        TokensOne(fold, RawTag("/" + tag));
        TokensTwo(fold, RawsAll(DomAll(t.kids)), [RawTag("/" + tag)]);
        TokensTwo(fold, [RawTag(tag + AttributeText(attributes))], RawsAll(DomAll(t.kids)) + [RawTag("/" + tag)]);
      }
  }

  lemma {:induction false} TextRead(fold: string -> string, text: string)
    ensures TokenOf(fold, RawText(Escape(text, false))) == TextToken(text)
  {
    EscapeReads(text, false);
    hide Escape, Unescape;
  }

  lemma {:induction false} StartRead(fold: string -> string, tag: string, attributes: Attributes)
    requires PlainTag(fold, tag) && Keyed(fold, attributes)
    ensures TokenOf(fold, RawTag(tag + AttributeText(attributes))) == TagToken(Start(NameOf(tag), Written(attributes)))
  {
    StartTagRead(fold, tag, attributes);
    hide TagOf, AttributeText, NameOf, Written;
  }

  lemma {:induction false} EndRead(fold: string -> string, tag: string)
    requires PlainTag(fold, tag)
    ensures TokenOf(fold, RawTag("/" + tag)) == TagToken(End(NameOf(tag)))
  {
    EndTagRead(fold, tag);
    hide TagOf, NameOf;
  }

  lemma {:induction false} ForestTokens(fold: string -> string, ts: seq<Tree>)
    requires (forall i :: 0 <= i < |ts| ==> Readable(fold, Dom(ts[i]))) && OwnedAll(ts)
    ensures TokensOf(fold, RawsAll(DomAll(ts))) == RoundTrip.TokensAll(KeptAll(ts))
    decreases ts, 0
  {
    hide Readable, Dom, Kept, Raws, TokensOf;
    if ts == [] {
      TokensNone(fold);
    } else {
      var n := |ts| - 1;
      ForestTokens(fold, ts[..n]);
      TreeTokens(fold, ts[n]);
      RawsLast(DomAll(ts[..n]), Dom(ts[n]));
      TokensTwo(fold, RawsAll(DomAll(ts[..n])), Raws(Dom(ts[n])));
      assert KeptAll(ts)[..n] == KeptAll(ts[..n]);
    }
  }

  lemma {:induction false} TokensNone(fold: string -> string)
    ensures TokensOf(fold, RawsAll([])) == []
  {
  }

  // ----- The way back -----

  lemma {:induction false} KeptShape(t: Tree, first: nat, depth: nat, limit: Option<nat>, up: RoundTrip.Inside)
    ensures RoundTrip.Size(Kept(t)) == RoundTrip.Size(t)
    ensures RoundTrip.Numbered(t, first) ==> RoundTrip.Numbered(Kept(t), first)
    ensures RoundTrip.Nested(t, depth, limit, up) ==> RoundTrip.Nested(Kept(t), depth, limit, up)
    decreases t, 1
  {
    hide Written;
    KeptShapes(t.kids, first + 1, depth + 1, limit,
               if t.content.Element? then RoundTrip.Within(t.content.name, up) else up);
  }

  lemma {:induction false} KeptShapes(ts: seq<Tree>, first: nat, depth: nat, limit: Option<nat>, up: RoundTrip.Inside)
    ensures RoundTrip.Sizes(KeptAll(ts)) == RoundTrip.Sizes(ts)
    ensures RoundTrip.NumberedAll(ts, first) ==> RoundTrip.NumberedAll(KeptAll(ts), first)
    ensures RoundTrip.NestedAll(ts, depth, limit, up) ==> RoundTrip.NestedAll(KeptAll(ts), depth, limit, up)
    decreases ts, 0
  {
    hide Kept;
    if ts != [] {
      var n := |ts| - 1;
      KeptShapes(ts[..n], first, depth, limit, up);
      KeptShape(ts[n], first + RoundTrip.Sizes(ts[..n]), depth, limit, up);
      assert KeptAll(ts)[..n] == KeptAll(ts[..n]);
    }
  }

  lemma {:induction false} KeptDocument(t: Tree)
    requires RoundTrip.Document(t)
    ensures RoundTrip.Document(Kept(t))
  {
    hide Written;
  }

  // ----- When nothing changes -----

  predicate Verbatim(t: Tree)
    decreases t, 1
  {
    && (t.content.Element? ==> Unescaped(t.content.attributes))
    && VerbatimAll(t.kids)
  }

  predicate VerbatimAll(ts: seq<Tree>)
    decreases ts, 0
  {
    ts == [] || (VerbatimAll(ts[..|ts| - 1]) && Verbatim(ts[|ts| - 1]))
  }

  /** No value has a character that is escaped. */
  predicate Unescaped(list: Attributes) {
    forall i :: 0 <= i < |list| ==> Literal(list[i].1)
  }

  predicate Literal(value: string) {
    forall c :: c in value ==> Ordinary(c)
  }

  predicate Ordinary(c: char) {
    c != '&' && c != '<' && c != '>' && c != '"' && c != '\''
  }

  lemma {:induction false} LiteralLast(value: string)
    requires value != ""
    ensures Literal(value) <==> Literal(value[..|value| - 1]) && Ordinary(value[|value| - 1])
  {
    hide Ordinary;
    var n := |value| - 1;
    assert value[n] in value;
    assert forall c :: c in value[..n] ==> c in value;
    assert forall c :: c in value ==> c in value[..n] || c == value[n];
  }

  lemma {:induction false} EscapedOne(c: char)
    ensures if Ordinary(c) then Escaped(c, true) == [c] else |Escaped(c, true)| > 1
  {
  }

  lemma {:induction false} LiteralExactly(value: string)
    ensures |Escape(value, true)| >= |value|
    ensures Escape(value, true) == value <==> Literal(value)
    decreases |value|
  {
    if value != "" {
      var n := |value| - 1;
      LiteralExactly(value[..n]);
      LiteralLast(value);
      EscapedOne(value[n]);
      assert value == value[..n] + [value[n]];
      assert Escape(value, true) == Escape(value[..n], true) + Escaped(value[n], true);
      hide Escaped, Literal, Escape, Ordinary;
      if Escape(value, true) == value {
        assert |Escaped(value[n], true)| == 1;
        assert Escape(value[..n], true) == value[..n];
      }
    }
  }

  lemma {:induction false} UnescapedExactly(list: Attributes)
    ensures Written(list) == list <==> Unescaped(list)
  {
    forall i | 0 <= i < |list|
      ensures Written(list)[i] == list[i] <==> Literal(list[i].1)
    {
      LiteralExactly(list[i].1);
    }
    hide Escape, Literal;
  }

  lemma {:induction false} VerbatimExactly(t: Tree)
    ensures Kept(t) == t <==> Verbatim(t)
    decreases t, 1
  {
    VerbatimEach(t.kids);
    if t.content.Element? {
      UnescapedExactly(t.content.attributes);
    }
    hide KeptAll, VerbatimAll, Unescaped, Written;
  }

  lemma {:induction false} VerbatimEach(ts: seq<Tree>)
    ensures KeptAll(ts) == ts <==> VerbatimAll(ts)
    decreases ts, 0
  {
    hide Kept, Verbatim;
    if ts != [] {
      var n := |ts| - 1;
      VerbatimEach(ts[..n]);
      VerbatimExactly(ts[n]);
      assert ts == ts[..n] + [ts[n]];
      assert KeptAll(ts)[..n] == KeptAll(ts[..n]);
    }
  }

  /** An ampersand alone as a value is not undone. */
  lemma {:induction false} ValueChanges()
    ensures Kept(Tree(0, Element(Other("a"), [("href", "&")]), [])) ==
      Tree(0, Element(Other("a"), [("href", "&amp;")]), [])
  {
    assert Escape("&", true) == "&amp;" by {
      assert "&"[..0] == "";
    }
    hide Escape;
    assert Written([("href", "&")]) == [("href", "&amp;")];
  }

  // ----- The theorems -----

  /** The markup of a properly nested document, read and parsed again, is that document, with its
      attribute values as they were written; so it is the same document exactly when no value has a
      character that is escaped. */
  lemma {:induction false} MarkupBack(fold: string -> string, limit: Option<nat>, budget: nat, t: Tree)
    requires Fits(limit) && RoundTrip.Document(t) && RoundTrip.Numbered(t, 0)
    requires RoundTrip.Nested(t, 0, limit, RoundTrip.Inside(false, false))
    requires budget == 0 || RoundTrip.Size(t) <= budget
    requires Readable(fold, Dom(t)) && Owned(t)
    ensures Parse(limit, budget, Read(fold, Outer(Dom(t)))) == Ok((RoundTrip.Size(t), Kept(t)))
    ensures Parse(limit, budget, Read(fold, Outer(Dom(t)))) == Ok((RoundTrip.Size(t), t)) <==> Verbatim(t)
  {
    assert t.content.Element?;
    hide *;
    OuterRead(fold, t);
    KeptShape(t, 0, 0, limit, RoundTrip.Inside(false, false));
    KeptDocument(t);
    RoundTrip.ReadsBack(limit, budget, Kept(t));
    VerbatimExactly(t);
  }

  lemma {:induction false} OuterRead(fold: string -> string, t: Tree)
    requires Readable(fold, Dom(t)) && Owned(t) && t.content.Element?
    ensures Read(fold, Outer(Dom(t))) == RoundTrip.Tokens(Kept(t))
  {
    var d := Dom(t);
    assert d.Branch?;
    hide Scan, Outer, Raws, Readable, Dom, Kept, TokensOf;
    BranchScans(fold, d, "", "");
    assert Outer(d) + "" == Outer(d);
    ScanNone(fold);
    assert Raws(d) + [] == Raws(d) && [] + Raws(d) == Raws(d);
    TreeTokens(fold, t);
  }

  lemma {:induction false} ScanNone(fold: string -> string)
    ensures Scan(fold, "", false, NONE, "") == []
  {
  }

  /** The body of the document that setting the inner markup parses. */
  function Wrapped(kids: seq<Tree>): Tree {
    Tree(0, Element(Html, []), [Tree(1, Element(Body, []), kids)])
  }

  /** The text that setting inner markup parses. */
  function Around(inner: string): string {
    "<html><body>" + inner + "</body></html>"
  }

  /** The inner markup of an element, set again, gives its children, with the attribute values as they
      were written. */
  lemma {:induction false} InnerBack(fold: string -> string, limit: Option<nat>, budget: nat, kids: seq<Tree>)
    requires Fits(limit) && RoundTrip.NumberedAll(kids, 2)
    requires RoundTrip.NestedAll(kids, 2, limit, RoundTrip.Inside(false, false))
    requires budget == 0 || 2 + RoundTrip.Sizes(kids) <= budget
    requires ReadableAll(fold, DomAll(kids)) && OwnedAll(kids) && PlainTag(fold, "html") && PlainTag(fold, "body")
    ensures Parse(limit, budget, Read(fold, Around(Inner(DomAll(kids))))) ==
      Ok((2 + RoundTrip.Sizes(kids), Wrapped(KeptAll(kids))))
  {
    WrappedShape(kids, limit);
    WrappedReads(fold, kids);
    WrappedText(kids);
    WrappedKept(kids);
    hide *;
    MarkupBack(fold, limit, budget, Wrapped(kids));
  }

  lemma {:induction false} WrappedShape(kids: seq<Tree>, limit: Option<nat>)
    requires Fits(limit) && RoundTrip.NumberedAll(kids, 2)
    requires RoundTrip.NestedAll(kids, 2, limit, RoundTrip.Inside(false, false))
    ensures var t := Wrapped(kids);
      && RoundTrip.Document(t) && RoundTrip.Numbered(t, 0) && RoundTrip.Nested(t, 0, limit, RoundTrip.Inside(false, false))
      && RoundTrip.Size(t) == 2 + RoundTrip.Sizes(kids)
  {
    var body := Tree(1, Element(Body, []), kids);
    assert [body][..0] == [];
    assert RoundTrip.Sizes([]) == 0;
  }

  lemma {:induction false} OneDom(t: Tree)
    ensures DomAll([t]) == [Dom(t)] && Inner([Dom(t)]) == Outer(Dom(t))
  {
    assert [t][..0] == [] && [Dom(t)][1..] == [];
    hide Dom, Outer;
    assert Inner([]) == "" && Outer(Dom(t)) + "" == Outer(Dom(t));
  }

  lemma {:induction false} OneReads(fold: string -> string, t: Tree)
    requires Readable(fold, Dom(t)) && Owned(t)
    ensures ReadableAll(fold, [Dom(t)]) && OwnedAll([t])
  {
    hide Readable, Owned, Dom;
    assert [t][..0] == [] && [Dom(t)][1..] == [];
  }

  lemma {:induction false} PlainReads(fold: string -> string, name: Name, t: Tree)
    requires ReadableAll(fold, DomAll(t.kids)) && OwnedAll(t.kids) && PlainTag(fold, TagText(name))
    requires t.content == Element(name, []) && (name == Html || name == Body)
    ensures Readable(fold, Dom(t)) && Owned(t)
  {
    NameRead(name);
    hide PlainTag, ReadableAll, OwnedAll, DomAll;
  }

  lemma {:induction false} WrappedReads(fold: string -> string, kids: seq<Tree>)
    requires ReadableAll(fold, DomAll(kids)) && OwnedAll(kids) && PlainTag(fold, "html") && PlainTag(fold, "body")
    ensures Readable(fold, Dom(Wrapped(kids))) && Owned(Wrapped(kids))
  {
    var body := Tree(1, Element(Body, []), kids);
    assert TagText(Body) == "body" && TagText(Html) == "html";
    hide PlainTag, Own, Readable, ReadableAll, Owned, OwnedAll, Dom, DomAll;
    PlainReads(fold, Body, body);
    OneReads(fold, body);
    OneDom(body);
    PlainReads(fold, Html, Wrapped(kids));
  }

  /** An element without attributes around what is in it. */
  lemma {:induction false} PlainText(name: Name, t: Tree)
    requires t.content == Element(name, []) && (name == Html || name == Body)
    ensures Outer(Dom(t)) == ("<" + TagText(name) + ">") + (Inner(DomAll(t.kids)) + ("</" + TagText(name) + ">"))
  {
    NameRead(name);
    AttributeNone([]);
    hide AttributeText, Inner, DomAll, TagText;
    assert "<" + TagText(name) + "" + ">" == "<" + TagText(name) + ">";
  }

  lemma {:induction false} WrappedText(kids: seq<Tree>)
    ensures Outer(Dom(Wrapped(kids))) == Around(Inner(DomAll(kids)))
  {
    var body := Tree(1, Element(Body, []), kids);
    assert TagText(Body) == "body" && TagText(Html) == "html";
    hide Outer, Inner, Dom, DomAll;
    PlainText(Body, body);
    OneDom(body);
    PlainText(Html, Wrapped(kids));
    Joined(Inner(DomAll(kids)));
  }

  lemma {:induction false} Joined(inner: string)
    ensures ("<" + "html" + ">") + ((("<" + "body" + ">") + (inner + ("</" + "body" + ">"))) + ("</" + "html" + ">")) ==
      Around(inner)
  {
  }

  lemma {:induction false} WrappedKept(kids: seq<Tree>)
    ensures Kept(Wrapped(kids)) == Wrapped(KeptAll(kids))
  {
    var body := Tree(1, Element(Body, []), kids);
    assert [body][..0] == [];
    assert KeptAll([body]) == [Kept(body)];
    assert Written([]) == [];
  }
}
