/** tai_node_serialize of src/dom.c: markup from the node array, with a stack of frames instead of
    recursion. */
module DomSerialize {
  import opened HtmlMachine
  import opened HtmlArena
  import opened DomForest
  import opened DomDocument

  datatype DomTree =
    | Leaf(text: string)
    | Branch(tag: string, attributes: Attributes, children: seq<DomTree>)

  const VOID: seq<string> :=
    ["area", "base", "br", "col", "embed", "hr", "img", "input", "link", "meta", "param", "source", "track", "wbr"]

  // ----- Escaping -----

  function Escaped(c: char, quote: bool): string {
    if c == '&' then "&amp;"
    else if c == '<' then "&lt;"
    else if c == '>' then "&gt;"
    else if quote && c == '"' then "&quot;"
    else if quote && c == '\'' then "&#x27;"
    else [c]
  }

  function Escape(text: string, quote: bool): string
    decreases |text|
  {
    if text == "" then "" else Escape(text[..|text| - 1], quote) + Escaped(text[|text| - 1], quote)
  }

  /** The length of the escape at the front, 0 if an ordinary character stands there. */
  function EscapeLength(s: string): nat {
    if s == "" || s[0] != '&' then 0
    else if |s| >= 4 && (s[..4] == "&lt;" || s[..4] == "&gt;") then 4
    else if |s| >= 5 && s[..5] == "&amp;" then 5
    else if |s| >= 6 && (s[..6] == "&quot;" || s[..6] == "&#x27;") then 6
    else 0
  }

  function Escaping(s: string): char {
    if |s| < 2 then '&'
    else if s[1] == 'l' then '<'
    else if s[1] == 'g' then '>'
    else if s[1] == 'q' then '"'
    else if s[1] == '#' then '\''
    else '&'
  }

  /** Reading escapes back. */
  function Unescape(s: string): string
    decreases |s|
  {
    if s == "" then ""
    else if 0 < EscapeLength(s) <= |s| then [Escaping(s)] + Unescape(s[EscapeLength(s)..])
    else [s[0]] + Unescape(s[1..])
  }

  lemma {:induction false} PrefixOf(e: string, rest: string, k: nat)
    requires k <= |e|
    ensures (e + rest)[..k] == e[..k] && (e + rest)[|e|..] == rest && (k > 0 ==> (e + rest)[k - 1] == e[k - 1])
  {
  }

  lemma {:induction false} EscapeRead(c: char, quote: bool, rest: string)
    ensures var e := Escaped(c, quote);
      if |e| == 1 then EscapeLength(e + rest) == 0 && e == [c]
      else EscapeLength(e + rest) == |e| && Escaping(e + rest) == c
  {
    var e := Escaped(c, quote);
    PrefixOf(e, rest, 1);
    if |e| > 1 {
      PrefixOf(e, rest, 2);
      PrefixOf(e, rest, 4);
      PrefixOf(e, rest, |e|);
      if |e| > 4 {
        PrefixOf(e, rest, 5);
      }
    }
  }

  lemma {:induction false} UnescapeOne(c: char, quote: bool, rest: string)
    ensures Unescape(Escaped(c, quote) + rest) == [c] + Unescape(rest)
  {
    var e := Escaped(c, quote);
    EscapeRead(c, quote, rest);
    PrefixOf(e, rest, 1);
    hide EscapeLength, Escaping, Escaped;
    if |e| == 1 {
      assert (e + rest)[1..] == rest;
    }
  }

  lemma {:induction false} EscapeFirst(text: string, quote: bool)
    requires text != ""
    ensures Escape(text, quote) == Escaped(text[0], quote) + Escape(text[1..], quote)
    decreases |text|
  {
    hide Escaped;
    var n := |text| - 1;
    if n == 0 {
      assert Escape(text[..0], quote) == "" && Escape(text[1..], quote) == "";
    } else {
      EscapeLast(text, quote);
      EscapeLast(text[1..], quote);
      hide Escape;
      EscapeFirst(text[..n], quote);
      assert text[..n][1..] == text[1..][..n - 1];
    }
  }

  lemma {:induction false} EscapeLast(text: string, quote: bool)
    requires text != ""
    ensures Escape(text, quote) == Escape(text[..|text| - 1], quote) + Escaped(text[|text| - 1], quote)
  {
    hide Escaped;
  }

  /** Escaped text reads back as the text. */
  lemma {:induction false} EscapeReads(text: string, quote: bool)
    ensures Unescape(Escape(text, quote)) == text
    decreases |text|
  {
    if text != "" {
      hide Escape, Escaped, Unescape;
      EscapeFirst(text, quote);
      EscapeReads(text[1..], quote);
      UnescapeOne(text[0], quote, Escape(text[1..], quote));
    }
  }

  lemma {:induction false} EscapedClean(c: char, quote: bool)
    ensures '<' !in Escaped(c, quote) && '>' !in Escaped(c, quote)
    ensures quote ==> '"' !in Escaped(c, quote) && '\'' !in Escaped(c, quote)
  {
  }

  /** Escaped text opens no tag, and closes no attribute value. */
  lemma {:induction false} EscapeClean(text: string, quote: bool)
    ensures '<' !in Escape(text, quote) && '>' !in Escape(text, quote)
    ensures quote ==> '"' !in Escape(text, quote) && '\'' !in Escape(text, quote)
    decreases |text|
  {
    if text != "" {
      hide Escaped;
      EscapeClean(text[..|text| - 1], quote);
      EscapedClean(text[|text| - 1], quote);
    }
  }

  method EscapeInto(b: string, text: string, quote: bool) returns (r: string)
    ensures r == b + Escape(text, quote)
  {
    hide Escaped;
    r := b;
    var i := 0;
    assert text[..0] == "" && b + "" == b;
    while i < |text|
      invariant i <= |text| && r == b + Escape(text[..i], quote)
    {
      assert text[..i + 1][..i] == text[..i];
      Regroup(b, Escape(text[..i + 1], quote), Escape(text[..i], quote), Escaped(text[i], quote));
      r := r + Escaped(text[i], quote);
      i := i + 1;
    }
    assert text[..i] == text;
  }

  // ----- The markup of a tree -----

  function AttributeText(list: Attributes): string
    decreases |list|
  {
    if list == [] then ""
    else
      var (key, value) := list[|list| - 1];
      AttributeText(list[..|list| - 1]) + (" " + key + "=\"" + Escape(value, true) + "\"")
  }

  function OpenTag(tag: string, attributes: Attributes): string {
    "<" + tag + AttributeText(attributes) + ">"
  }

  function CloseTag(tag: string): string {
    "</" + tag + ">"
  }

  function Outer(t: DomTree): string
    decreases t, 1
  {
    match t
    case Leaf(text) => Escape(text, false)
    case Branch(tag, attributes, children) =>
      if tag in VOID then OpenTag(tag, attributes)
      else OpenTag(tag, attributes) + (Inner(children) + CloseTag(tag))
  }

  function Inner(ts: seq<DomTree>): string
    decreases ts, 0
  {
    if ts == [] then "" else Outer(ts[0]) + Inner(ts[1..])
  }

  function Markup(t: DomTree, outer: bool): string {
    if outer then Outer(t) else if t.Branch? then Inner(t.children) else ""
  }

  // ----- Frames -----

  datatype Frame = Frame(tag: string, rest: seq<DomTree>)

  /** What the open frames still write, innermost last on the stack. */
  function Pending(stack: seq<Frame>, outer: bool): string
    decreases |stack|
  {
    if stack == [] then ""
    else
      var top := stack[|stack| - 1];
      Inner(top.rest) + ((if |stack| > 1 || outer then CloseTag(top.tag) else "") + Pending(stack[..|stack| - 1], outer))
  }

  function Size(t: DomTree): nat
    decreases t, 1
  {
    match t
    case Leaf(_) => 1
    case Branch(_, _, children) => 2 + Sizes(children)
  }

  function Sizes(ts: seq<DomTree>): nat
    decreases ts, 0
  {
    if ts == [] then 0 else Size(ts[0]) + Sizes(ts[1..])
  }

  function Work(stack: seq<Frame>): nat
    decreases |stack|
  {
    if stack == [] then 0 else 1 + Sizes(stack[|stack| - 1].rest) + Work(stack[..|stack| - 1])
  }

  /** The innermost frame writes its next child. */
  lemma {:induction false} NextChild(stack: seq<Frame>, outer: bool)
    requires stack != [] && stack[|stack| - 1].rest != []
    ensures var n := |stack| - 1;
      var rest := stack[n].rest;
      var on := stack[n := stack[n].(rest := rest[1..])];
      && Pending(stack, outer) == Outer(rest[0]) + Pending(on, outer)
      && Work(stack) == Work(on) + Size(rest[0])
  {
    hide Outer, CloseTag;
    var n := |stack| - 1;
    var on := stack[n := stack[n].(rest := stack[n].rest[1..])];
    assert on[..n] == stack[..n];
  }

  /** An element that can hold something becomes a frame. */
  lemma {:induction false} PushFrame(stack: seq<Frame>, outer: bool, t: DomTree)
    requires stack != [] && t.Branch? && t.tag !in VOID
    ensures var deeper := stack + [Frame(t.tag, t.children)];
      && Outer(t) + Pending(stack, outer) == OpenTag(t.tag, t.attributes) + Pending(deeper, outer)
      && Work(deeper) + 1 == Work(stack) + Size(t)
  {
    hide OpenTag, CloseTag, Inner;
    var deeper := stack + [Frame(t.tag, t.children)];
    assert deeper[..|stack|] == stack;
  }

  /** A frame with nothing left writes its end tag, the outermost only when asked to. */
  lemma {:induction false} PopFrame(stack: seq<Frame>, outer: bool)
    requires stack != [] && stack[|stack| - 1].rest == []
    ensures Pending(stack, outer) ==
      (if |stack| > 1 || outer then CloseTag(stack[|stack| - 1].tag) else "") + Pending(stack[..|stack| - 1], outer)
    ensures Work(stack) == 1 + Work(stack[..|stack| - 1])
  {
    hide CloseTag;
    assert Inner([]) == "";
  }

  lemma {:induction false} Regroup(a: string, b: string, c: string, d: string)
    requires b == c + d
    ensures (a + c) + d == a + b
  {
  }

  lemma {:induction false} OneFrame(t: DomTree, outer: bool)
    requires t.Branch?
    ensures Pending([Frame(t.tag, t.children)], outer) == Inner(t.children) + if outer then CloseTag(t.tag) else ""
  {
    hide CloseTag, Inner;
    assert [Frame(t.tag, t.children)][..0] == [];
    assert Pending([], outer) == "";
  }

  // ----- The tree of a node -----

  function FormatText(name: FormatName): string {
    match name
    case FmtB => "b"
    case FmtI => "i"
    case FmtU => "u"
    case FmtSmall => "small"
    case FmtBig => "big"
  }

  function HeadText(name: HeadName): string {
    match name
    case Basefont => "basefont"
    case Bgsound => "bgsound"
    case Noscript => "noscript"
    case Title => "title"
    case Style => "style"
    case Script => "script"
  }

  function VoidText(name: VoidName): string {
    match name
    case Area => "area"
    case Br => "br"
    case Col => "col"
    case Embed => "embed"
    case Hr => "hr"
    case Img => "img"
    case Input => "input"
    case Param => "param"
    case Source => "source"
    case Track => "track"
    case Wbr => "wbr"
  }

  function TagText(name: Name): string {
    match name
    case Html => "html"
    case Head => "head"
    case Body => "body"
    case P => "p"
    case Li => "li"
    case Ul => "ul"
    case Ol => "ol"
    case Format(format) => FormatText(format)
    case HeadVoid(headVoid) => if headVoid.BaseTag? then "base" else if headVoid.LinkTag? then "link" else "meta"
    case HeadContent(headContent) => HeadText(headContent)
    case Void(void) => VoidText(void)
    case Other(text) => text
  }

  ghost predicate Rooted(nodes: seq<Node>, rank: seq<nat>, bound: nat) {
    Linked(nodes) && Ranked(nodes, rank) && Bounded(rank, bound)
  }

  ghost function NodeTree(nodes: seq<Node>, rank: seq<nat>, bound: nat, n: nat): DomTree
    requires Rooted(nodes, rank, bound) && n < |nodes|
    decreases bound - rank[n]
  {
    match nodes[n].content
    case Text(text) => Leaf(text)
    case Element(name, attributes) =>
      var kids := nodes[n].children;
      Branch(TagText(name), attributes,
             seq(|kids|, i requires 0 <= i < |kids| =>
               ChildBelow(nodes, rank, bound, n, i);
               NodeTree(nodes, rank, bound, kids[i])))
  }

  lemma {:induction false} ChildBelow(nodes: seq<Node>, rank: seq<nat>, bound: nat, n: nat, i: nat)
    requires Rooted(nodes, rank, bound) && n < |nodes| && i < |nodes[n].children|
    ensures |rank| == |nodes| && nodes[n].children[i] < |nodes| && rank[n] < rank[nodes[n].children[i]] <= bound
  {
  }

  /** A frame of the loop: a node and its next child. */
  datatype Cursor = Cursor(n: nat, next: nat)

  ghost predicate Placed(nodes: seq<Node>, at: Cursor) {
    at.n < |nodes| && nodes[at.n].content.Element? && at.next <= |nodes[at.n].children|
  }

  ghost function FrameOf(nodes: seq<Node>, rank: seq<nat>, bound: nat, at: Cursor): Frame
    requires Rooted(nodes, rank, bound) && Placed(nodes, at)
  {
    var t := NodeTree(nodes, rank, bound, at.n);
    Frame(t.tag, t.children[at.next..])
  }

  ghost predicate AllPlaced(nodes: seq<Node>, stack: seq<Cursor>) {
    forall k :: 0 <= k < |stack| ==> Placed(nodes, stack[k])
  }

  ghost function Frames(nodes: seq<Node>, rank: seq<nat>, bound: nat, stack: seq<Cursor>): (r: seq<Frame>)
    requires Rooted(nodes, rank, bound) && AllPlaced(nodes, stack)
    ensures |r| == |stack| && forall k :: 0 <= k < |stack| ==> r[k] == FrameOf(nodes, rank, bound, stack[k])
  {
    seq(|stack|, k requires 0 <= k < |stack| => FrameOf(nodes, rank, bound, stack[k]))
  }

  lemma {:induction false} FramesParts(nodes: seq<Node>, rank: seq<nat>, bound: nat, front: seq<Cursor>, top: Cursor)
    requires Rooted(nodes, rank, bound) && AllPlaced(nodes, front) && Placed(nodes, top)
    ensures AllPlaced(nodes, front + [top])
    ensures Frames(nodes, rank, bound, front + [top]) ==
      Frames(nodes, rank, bound, front) + [FrameOf(nodes, rank, bound, top)]
  {
    hide Rooted, FrameOf, Placed;
  }

  lemma {:induction false} FrontPlaced(nodes: seq<Node>, stack: seq<Cursor>)
    requires AllPlaced(nodes, stack) && stack != []
    ensures AllPlaced(nodes, stack[..|stack| - 1]) && Placed(nodes, stack[|stack| - 1])
  {
  }

  /** The frame of a cursor has the next child first, and is at its end with the children. */
  lemma {:induction false} FrameNext(nodes: seq<Node>, rank: seq<nat>, bound: nat, at: Cursor)
    requires Rooted(nodes, rank, bound) && Placed(nodes, at)
    ensures var frame, kids := FrameOf(nodes, rank, bound, at), nodes[at.n].children;
      && frame.tag == TagText(nodes[at.n].content.name)
      && (frame.rest == [] <==> at.next == |kids|)
      && (at.next < |kids| ==>
            && kids[at.next] < |nodes| && Placed(nodes, at.(next := at.next + 1))
            && frame.rest[0] == NodeTree(nodes, rank, bound, kids[at.next])
            && FrameOf(nodes, rank, bound, at.(next := at.next + 1)) == frame.(rest := frame.rest[1..]))
  {
    if at.next < |nodes[at.n].children| {
      ChildBelow(nodes, rank, bound, at.n, at.next);
    }
    hide Rooted, TagText;
  }

  /** A fresh frame holds all children. */
  lemma {:induction false} FrameFirst(nodes: seq<Node>, rank: seq<nat>, bound: nat, n: nat)
    requires Rooted(nodes, rank, bound) && n < |nodes| && nodes[n].content.Element?
    ensures var t := NodeTree(nodes, rank, bound, n);
      && t.Branch? && t.tag == TagText(nodes[n].content.name) && t.attributes == nodes[n].content.attributes
      && FrameOf(nodes, rank, bound, Cursor(n, 0)) == Frame(t.tag, t.children)
  {
    hide TagText;
  }

  /** tai_node_serialize. */
  method Serialize(nodes: seq<Node>, ghost rank: seq<nat>, ghost bound: nat, n: nat, outer: bool) returns (b: string)
    requires Rooted(nodes, rank, bound) && n < |nodes|
    ensures b == Markup(NodeTree(nodes, rank, bound, n), outer)
  {
    hide OpenTag, CloseTag, Inner, Pending, Escape, Rooted, FrameOf, Frames, TagText;
    ghost var tree := NodeTree(nodes, rank, bound, n);
    b := "";
    if outer {
      match nodes[n].content {
        case Text(text) =>
          b := EscapeInto(b, text, false);
        case Element(name, attributes) =>
          b := OpenTag(TagText(name), attributes);
          if TagText(name) in VOID {
            return;
          }
      }
    }
    if nodes[n].content.Text? {
      return;
    }
    FrameFirst(nodes, rank, bound, n);
    OneFrame(tree, outer);
    hide NodeTree, Outer;
    var stack := [Cursor(n, 0)];
    FramesParts(nodes, rank, bound, [], Cursor(n, 0));
    assert [] + [Cursor(n, 0)] == stack;
    assert Frames(nodes, rank, bound, stack) == [Frame(tree.tag, tree.children)];
    NoFrames(outer);
    while |stack| > 0
      invariant AllPlaced(nodes, stack)
      invariant b + Pending(Frames(nodes, rank, bound, stack), outer) == Markup(tree, outer)
      decreases Work(Frames(nodes, rank, bound, stack))
    {
      b, stack := WriteNext(nodes, rank, bound, b, stack, outer);
    }
    NoFrames(outer);
  }

  lemma {:induction false} NoFrames(outer: bool)
    ensures Pending([], outer) == "" && forall b: string :: b + "" == b
  {
  }

  /** One turn of the loop: the end tag of the innermost frame, or its next child. */
  method WriteNext(nodes: seq<Node>, ghost rank: seq<nat>, ghost bound: nat, b: string, stack: seq<Cursor>, outer: bool)
      returns (b': string, stack': seq<Cursor>)
    requires Rooted(nodes, rank, bound) && AllPlaced(nodes, stack) && stack != []
    ensures AllPlaced(nodes, stack')
    ensures b' + Pending(Frames(nodes, rank, bound, stack'), outer) == b + Pending(Frames(nodes, rank, bound, stack), outer)
    ensures Work(Frames(nodes, rank, bound, stack')) < Work(Frames(nodes, rank, bound, stack))
  {
    hide OpenTag, CloseTag, Inner, Outer, Pending, Escape, Work, Rooted, FrameOf, Frames, NodeTree, TagText;
    var k := |stack| - 1;
    var top, front := stack[k], stack[..k];
    FrontPlaced(nodes, stack);
    assert stack == front + [top];
    FramesParts(nodes, rank, bound, front, top);
    FrameNext(nodes, rank, bound, top);
    ghost var frames := Frames(nodes, rank, bound, stack);
    ghost var below := Frames(nodes, rank, bound, front);
    assert frames[..k] == below;
    if top.next == |nodes[top.n].children| {
      PopFrame(frames, outer);
      var text := if k > 0 || outer then CloseTag(TagText(nodes[top.n].content.name)) else "";
      Regroup(b, Pending(frames, outer), text, Pending(below, outer));
      b', stack' := b + text, front;
    } else {
      var on := top.(next := top.next + 1);
      NextChild(frames, outer);
      FramesParts(nodes, rank, bound, front, on);
      assert frames[k := frames[k].(rest := frames[k].rest[1..])] == below + [FrameOf(nodes, rank, bound, on)];
      b', stack' := WriteChild(nodes, rank, bound, b, front + [on], nodes[top.n].children[top.next], outer);
    }
  }

  /** One child of the innermost frame. */
  method WriteChild(nodes: seq<Node>, ghost rank: seq<nat>, ghost bound: nat, b: string, stack: seq<Cursor>, c: nat,
                    outer: bool)
      returns (b': string, stack': seq<Cursor>)
    requires Rooted(nodes, rank, bound) && AllPlaced(nodes, stack) && stack != [] && c < |nodes|
    ensures AllPlaced(nodes, stack')
    ensures var child := NodeTree(nodes, rank, bound, c);
      && b' + Pending(Frames(nodes, rank, bound, stack'), outer) ==
           b + (Outer(child) + Pending(Frames(nodes, rank, bound, stack), outer))
      && Work(Frames(nodes, rank, bound, stack')) < Work(Frames(nodes, rank, bound, stack)) + Size(child)
  {
    hide OpenTag, CloseTag, Inner, Pending, Escape, Work, Rooted, FrameOf, Frames, TagText;
    ghost var child, frames := NodeTree(nodes, rank, bound, c), Frames(nodes, rank, bound, stack);
    stack' := stack;
    match nodes[c].content {
      case Text(text) =>
        b' := EscapeInto(b, text, false);
      case Element(name, attributes) =>
        FrameFirst(nodes, rank, bound, c);
        b' := b + OpenTag(TagText(name), attributes);
        if TagText(name) !in VOID {
          PushFrame(frames, outer, child);
          stack' := stack + [Cursor(c, 0)];
          FramesParts(nodes, rank, bound, stack, Cursor(c, 0));
        }
    }
  }

  /** The markup of a node of a document. */
  method SerializeNode(d: Document, n: nat, outer: bool) returns (b: string)
    requires d.Valid() && n < |d.nodes|
    ensures Rooted(d.nodes, d.rank, d.bound) && b == Markup(NodeTree(d.nodes, d.rank, d.bound, n), outer)
  {
    hide Linked, Ranked, Reachable, Bounded, NodeTree;
    b := Serialize(d.nodes, d.rank, d.bound, n, outer);
  }
}
