/** tai_node_text_content and tai_node_set_text_content of src/dom.c: what is set is read back. */
module DomText {
  import opened HtmlMachine
  import opened HtmlArena
  import opened DomDocument
  import opened DomSerialize

  /** The texts of a tree, one after the other. */
  function TextOf(t: DomTree): string
    decreases t, 1
  {
    match t
    case Leaf(text) => text
    case Branch(_, _, children) => TextsOf(children)
  }

  function TextsOf(ts: seq<DomTree>): string
    decreases ts, 0
  {
    if ts == [] then "" else TextOf(ts[0]) + TextsOf(ts[1..])
  }

  ghost predicate AllIn(nodes: seq<Node>, stack: seq<nat>) {
    forall k :: 0 <= k < |stack| ==> stack[k] < |nodes|
  }

  /** What the nodes on the stack still give, the top first. */
  ghost function Waiting(nodes: seq<Node>, rank: seq<nat>, bound: nat, stack: seq<nat>): string
    requires Rooted(nodes, rank, bound) && AllIn(nodes, stack)
    decreases |stack|
  {
    if stack == [] then ""
    else TextOf(NodeTree(nodes, rank, bound, stack[|stack| - 1])) + Waiting(nodes, rank, bound, stack[..|stack| - 1])
  }

  ghost function Load(nodes: seq<Node>, rank: seq<nat>, bound: nat, stack: seq<nat>): nat
    requires Rooted(nodes, rank, bound) && AllIn(nodes, stack)
    decreases |stack|
  {
    if stack == [] then 0
    else Size(NodeTree(nodes, rank, bound, stack[|stack| - 1])) + Load(nodes, rank, bound, stack[..|stack| - 1])
  }

  lemma {:induction false} PushedOne(nodes: seq<Node>, rank: seq<nat>, bound: nat, stack: seq<nat>, x: nat)
    requires Rooted(nodes, rank, bound) && AllIn(nodes, stack) && x < |nodes|
    ensures AllIn(nodes, stack + [x])
    ensures Waiting(nodes, rank, bound, stack + [x]) ==
      TextOf(NodeTree(nodes, rank, bound, x)) + Waiting(nodes, rank, bound, stack)
    ensures Load(nodes, rank, bound, stack + [x]) == Size(NodeTree(nodes, rank, bound, x)) + Load(nodes, rank, bound, stack)
  {
    hide Rooted, NodeTree, TextOf, Size;
    assert (stack + [x])[..|stack|] == stack;
  }

  lemma {:induction false} PoppedOne(nodes: seq<Node>, rank: seq<nat>, bound: nat, stack: seq<nat>)
    requires Rooted(nodes, rank, bound) && AllIn(nodes, stack) && stack != []
    ensures var x, rest := stack[|stack| - 1], stack[..|stack| - 1];
      && x < |nodes| && AllIn(nodes, rest)
      && Waiting(nodes, rank, bound, stack) == TextOf(NodeTree(nodes, rank, bound, x)) + Waiting(nodes, rank, bound, rest)
      && Load(nodes, rank, bound, stack) == Size(NodeTree(nodes, rank, bound, x)) + Load(nodes, rank, bound, rest)
  {
    hide Rooted, NodeTree, TextOf, Size;
  }

  /** The trees of the children of x, from i on. */
  ghost function Kids(nodes: seq<Node>, rank: seq<nat>, bound: nat, x: nat): (ts: seq<DomTree>)
    requires Rooted(nodes, rank, bound) && x < |nodes| && nodes[x].content.Element?
    ensures |ts| == |nodes[x].children|
    ensures forall i :: 0 <= i < |ts| ==>
      nodes[x].children[i] < |nodes| && ts[i] == NodeTree(nodes, rank, bound, nodes[x].children[i])
  {
    ChildrenBelow(nodes, rank, bound, x);
    NodeTree(nodes, rank, bound, x).children
  }

  lemma {:induction false} ChildrenBelow(nodes: seq<Node>, rank: seq<nat>, bound: nat, x: nat)
    requires Rooted(nodes, rank, bound) && x < |nodes|
    ensures forall i :: 0 <= i < |nodes[x].children| ==> nodes[x].children[i] < |nodes|
  {
    forall i | 0 <= i < |nodes[x].children|
      ensures nodes[x].children[i] < |nodes|
    {
      ChildBelow(nodes, rank, bound, x, i);
    }
  }

  lemma {:induction false} NextKid(ts: seq<DomTree>, i: nat, rest: string)
    requires i < |ts|
    ensures TextOf(ts[i]) + (TextsOf(ts[i + 1..]) + rest) == TextsOf(ts[i..]) + rest
    ensures Size(ts[i]) + Sizes(ts[i + 1..]) == Sizes(ts[i..])
  {
    assert ts[i..][1..] == ts[i + 1..];
    hide TextOf, Size;
  }

  /** tai_node_text_content. */
  method TextContent(nodes: seq<Node>, ghost rank: seq<nat>, ghost bound: nat, n: nat) returns (b: string)
    requires Rooted(nodes, rank, bound) && n < |nodes|
    ensures b == TextOf(NodeTree(nodes, rank, bound, n))
  {
    hide *;
    b := "";
    var stack := [n];
    StackIs(nodes, rank, bound, n);
    while |stack| > 0
      invariant AllIn(nodes, stack)
      invariant b + Waiting(nodes, rank, bound, stack) == TextOf(NodeTree(nodes, rank, bound, n))
      decreases Load(nodes, rank, bound, stack)
    {
      PoppedOne(nodes, rank, bound, stack);
      var x := stack[|stack| - 1];
      b, stack := Visit(nodes, rank, bound, b, stack[..|stack| - 1], x);
    }
    NothingWaits(nodes, rank, bound, b, stack);
  }

  lemma {:induction false} StackIs(nodes: seq<Node>, rank: seq<nat>, bound: nat, n: nat)
    requires Rooted(nodes, rank, bound) && n < |nodes|
    ensures AllIn(nodes, [n]) && "" + Waiting(nodes, rank, bound, [n]) == TextOf(NodeTree(nodes, rank, bound, n))
  {
    hide Rooted, NodeTree, TextOf;
    assert [n][..0] == [];
    assert Waiting(nodes, rank, bound, []) == "";
  }

  lemma {:induction false} NothingWaits(nodes: seq<Node>, rank: seq<nat>, bound: nat, b: string, stack: seq<nat>)
    requires Rooted(nodes, rank, bound) && AllIn(nodes, stack) && |stack| == 0
    ensures b + Waiting(nodes, rank, bound, stack) == b
  {
    hide Rooted;
  }

  /** One node taken from the stack: its text, or its children pushed last first. */
  method Visit(nodes: seq<Node>, ghost rank: seq<nat>, ghost bound: nat, b: string, rest: seq<nat>, x: nat)
      returns (b': string, stack: seq<nat>)
    requires Rooted(nodes, rank, bound) && AllIn(nodes, rest) && x < |nodes|
    ensures AllIn(nodes, stack)
    ensures b' + Waiting(nodes, rank, bound, stack) ==
      b + (TextOf(NodeTree(nodes, rank, bound, x)) + Waiting(nodes, rank, bound, rest))
    ensures Load(nodes, rank, bound, stack) < Size(NodeTree(nodes, rank, bound, x)) + Load(nodes, rank, bound, rest)
  {
    hide Rooted, AllIn, Waiting, Load;
    b', stack := b, rest;
    match nodes[x].content {
      case Text(text) =>
        b' := b + text;
        Regroup(b, text + Waiting(nodes, rank, bound, rest), text, Waiting(nodes, rank, bound, rest));
      case Element(_, _) =>
        ghost var ts := Kids(nodes, rank, bound, x);
        assert NodeTree(nodes, rank, bound, x).children == ts;
        hide NodeTree, TextOf, Size;
        var i := |nodes[x].children|;
        assert ts[i..] == [];
        assert TextsOf([]) + Waiting(nodes, rank, bound, rest) == Waiting(nodes, rank, bound, rest);
        while i > 0
          invariant i <= |nodes[x].children| && AllIn(nodes, stack)
          invariant Waiting(nodes, rank, bound, stack) == TextsOf(ts[i..]) + Waiting(nodes, rank, bound, rest)
          invariant Load(nodes, rank, bound, stack) == Sizes(ts[i..]) + Load(nodes, rank, bound, rest)
        {
          i := i - 1;
          PushedOne(nodes, rank, bound, stack, nodes[x].children[i]);
          NextKid(ts, i, Waiting(nodes, rank, bound, rest));
          stack := stack + [nodes[x].children[i]];
        }
        assert ts[0..] == ts;
    }
  }

  // ----- Setting and reading -----

  /** A text that was set is what stands under the node and what is read back. */
  lemma {:induction false} TextBack(nodes: seq<Node>, n: nat, text: string, r: seq<nat>, bound: nat)
    requires n < |nodes| && Rooted(WithText(nodes, n, text), r, bound)
    ensures n < |WithText(nodes, n, text)|
    ensures TextOf(NodeTree(WithText(nodes, n, text), r, bound, n)) == text
    ensures var t := NodeTree(WithText(nodes, n, text), r, bound, n);
      match nodes[n].content
      case Text(_) => t == Leaf(text)
      case Element(name, attributes) => t == Branch(TagText(name), attributes, if text == "" then [] else [Leaf(text)])
  {
    var nodes' := WithText(nodes, n, text);
    assert nodes'[n].content == if nodes[n].content.Text? then Text(text) else nodes[n].content;
    if nodes[n].content.Element? {
      assert nodes'[n].children == if text == "" then [] else [|nodes|];
      assert text != "" ==> nodes'[|nodes|].content == Text(text);
      hide WithText, Rooted, TagText;
      var kids := Kids(nodes', r, bound, n);
      assert NodeTree(nodes', r, bound, n).children == kids;
      OneText(kids, text);
    }
  }

  lemma {:induction false} OneText(ts: seq<DomTree>, text: string)
    requires ts == if text == "" then [] else [Leaf(text)]
    ensures TextsOf(ts) == text
  {
    if ts != [] {
      assert ts[1..] == [];
      assert TextsOf([]) == "" && text + "" == text;
    }
  }
}
