/** What stands under a node after its inner markup is set: the trees the parser made of the body. */
module DomInnerTree {
  import opened Results
  import opened HtmlMachine
  import opened HtmlOrder
  import opened HtmlArena
  import opened DomDocument
  import opened DomAdopt
  import opened DomInnerHtml
  import opened DomSerialize
  import M = HtmlMarkup
  import RoundTrip = HtmlRoundTrip
  import Scan = HtmlScan

  /** The new array at the places of the old document and of the fragment. */
  lemma {:induction false} InnerAt(nodes: seq<Node>, n: nat, fragment: seq<Node>, body: nat, x: nat)
    requires n < |nodes| && body < |fragment| && x < |nodes| + |fragment|
    ensures var nodes' := WithInner(nodes, n, fragment, Some(body));
      && |nodes'| == |nodes| + |fragment|
      && (x < |nodes| ==> nodes'[x].content == nodes[x].content)
      && (x < |nodes| && x != n ==> nodes'[x].children == nodes[x].children)
      && (x == n ==> nodes'[x].children == Renumbered(fragment[body], |nodes|).children)
      && (x >= |nodes| ==> nodes'[x].content == fragment[x - |nodes|].content)
      && (x >= |nodes| && x != |nodes| + body ==>
            nodes'[x].children == Renumbered(fragment[x - |nodes|], |nodes|).children)
  {
    hide Joined, Cleared;
    var base := Cleared(nodes, n, |nodes[n].children|);
    ClearedAt(nodes, n, x);
    JoinedAt(base, fragment, x);
    JoinedAt(base, fragment, |nodes| + body);
  }

  lemma {:induction false} ClearedAt(nodes: seq<Node>, n: nat, x: nat)
    requires n < |nodes|
    ensures var base := Cleared(nodes, n, |nodes[n].children|);
      |base| == |nodes| && (x < |nodes| ==> base[x].content == nodes[x].content && (x != n ==> base[x].children == nodes[x].children))
  {
  }

  /** Below its body the fragment is in the array, from off on. */
  ghost predicate Holds(nodes: seq<Node>, off: nat, fragment: seq<Node>, body: nat) {
    |nodes| == off + |fragment| && forall x :: body < x < |fragment| ==> HoldsAt(nodes, off, fragment, x)
  }

  ghost predicate HoldsAt(nodes: seq<Node>, off: nat, fragment: seq<Node>, x: nat)
    requires x < |fragment| && |nodes| == off + |fragment|
  {
    nodes[off + x].content == fragment[x].content && SameKids(nodes[off + x].children, off, fragment[x].children)
  }

  predicate SameKids(ids: seq<nat>, off: nat, from: seq<nat>) {
    |ids| == |from| && forall k :: 0 <= k < |ids| ==> ids[k] == off + from[k]
  }

  lemma {:induction false} InnerHolds(nodes: seq<Node>, n: nat, fragment: seq<Node>, body: nat)
    requires n < |nodes| && body < |fragment|
    ensures Holds(WithInner(nodes, n, fragment, Some(body)), |nodes|, fragment, body)
    ensures var nodes' := WithInner(nodes, n, fragment, Some(body));
      && nodes'[n].content == nodes[n].content && SameKids(nodes'[n].children, |nodes|, fragment[body].children)
      && forall x :: 0 <= x < |nodes| && x != n ==>
           nodes'[x].content == nodes[x].content && nodes'[x].children == nodes[x].children
  {
    hide WithInner;
    forall x: nat | x < |nodes| + |fragment|
      ensures var nodes' := WithInner(nodes, n, fragment, Some(body));
        && |nodes'| == |nodes| + |fragment|
        && (x < |nodes| ==> nodes'[x].content == nodes[x].content)
        && (x < |nodes| && x != n ==> nodes'[x].children == nodes[x].children)
        && (body < x - |nodes| < |fragment| ==> HoldsAt(nodes', |nodes|, fragment, x - |nodes|))
    {
      InnerAt(nodes, n, fragment, body, x);
    }
    InnerAt(nodes, n, fragment, body, n);
    forall x | body < x < |fragment|
      ensures HoldsAt(WithInner(nodes, n, fragment, Some(body)), |nodes|, fragment, x)
    {
      InnerAt(nodes, n, fragment, body, |nodes| + x);
      assert |nodes| + x - |nodes| == x;
    }
  }

  /** A tree of the fragment below its body is a tree of the document. */
  lemma {:induction false} FragmentTree(nodes: seq<Node>, off: nat, fragment: seq<Node>, body: nat, r: seq<nat>,
                                        bound: nat, x: nat)
    requires Forward(fragment) && body < x < |fragment| && Holds(nodes, off, fragment, body) && Rooted(nodes, r, bound)
    ensures |nodes| == off + |fragment|
    ensures NodeTree(nodes, r, bound, off + x) == M.Dom(TreeOf(fragment, x))
    decreases |fragment| - x
  {
    assert HoldsAt(nodes, off, fragment, x);
    var ids := fragment[x].children;
    KidsAfter(fragment, x);
    hide Rooted, TagText, Holds, NodeTree, M.Dom, TreeOf, Forward, SameKids;
    forall i | 0 <= i < |ids|
      ensures x < ids[i] < |fragment|
      ensures NodeTree(nodes, r, bound, off + ids[i]) == M.Dom(TreeOf(fragment, ids[i]))
    {
      FragmentTree(nodes, off, fragment, body, r, bound, ids[i]);
    }
    if fragment[x].content.Element? {
      SameTrees(nodes, r, bound, off + x, off, fragment, ids);
      DomOf(fragment, x);
    } else {
      LeafOf(nodes, r, bound, off + x, fragment, x);
    }
  }

  lemma {:induction false} KidsAfter(fragment: seq<Node>, x: nat)
    requires Forward(fragment) && x < |fragment|
    ensures forall i :: 0 <= i < |fragment[x].children| ==> x < fragment[x].children[i] < |fragment|
  {
  }

  lemma {:induction false} LeafOf(nodes: seq<Node>, r: seq<nat>, bound: nat, at: nat, fragment: seq<Node>, x: nat)
    requires Rooted(nodes, r, bound) && at < |nodes| && Forward(fragment) && x < |fragment|
    requires fragment[x].content.Text? && nodes[at].content == fragment[x].content
    ensures NodeTree(nodes, r, bound, at) == M.Dom(TreeOf(fragment, x))
  {
    hide Rooted;
  }

  lemma {:induction false} DomOf(fragment: seq<Node>, x: nat)
    requires Forward(fragment) && x < |fragment| && fragment[x].content.Element?
    ensures M.Dom(TreeOf(fragment, x)) ==
      Branch(TagText(fragment[x].content.name), fragment[x].content.attributes,
             M.DomAll(TreesOf(fragment, fragment[x].children)))
  {
    assert TreeOf(fragment, x).kids == TreesOf(fragment, fragment[x].children);
    hide TagText;
  }

  lemma {:induction false} SameTrees(nodes: seq<Node>, r: seq<nat>, bound: nat, at: nat, off: nat, fragment: seq<Node>,
                                     ids: seq<nat>)
    requires Rooted(nodes, r, bound) && at < |nodes| == off + |fragment| && nodes[at].content.Element?
    requires SameKids(nodes[at].children, off, ids)
    requires Forward(fragment) && forall i :: 0 <= i < |ids| ==> ids[i] < |fragment|
    requires forall i :: 0 <= i < |ids| ==> NodeTree(nodes, r, bound, off + ids[i]) == M.Dom(TreeOf(fragment, ids[i]))
    ensures NodeTree(nodes, r, bound, at) ==
      Branch(TagText(nodes[at].content.name), nodes[at].content.attributes, M.DomAll(TreesOf(fragment, ids)))
  {
    hide Rooted, TagText, TreeOf, M.Dom;
    assert NodeTree(nodes, r, bound, at).children == M.DomAll(TreesOf(fragment, ids));
  }

  /** A node with the body's children has their trees. */
  lemma {:induction false} BodyTrees(nodes: seq<Node>, off: nat, fragment: seq<Node>, body: nat, r: seq<nat>,
                                     bound: nat, n: nat)
    requires Forward(fragment) && body < |fragment| && Holds(nodes, off, fragment, body) && Rooted(nodes, r, bound)
    requires n < |nodes| && nodes[n].content.Element? && SameKids(nodes[n].children, off, fragment[body].children)
    ensures NodeTree(nodes, r, bound, n) ==
      Branch(TagText(nodes[n].content.name), nodes[n].content.attributes, M.DomAll(TreeOf(fragment, body).kids))
  {
    var ids := fragment[body].children;
    assert TreeOf(fragment, body).kids == TreesOf(fragment, ids);
    assert |nodes| == off + |fragment|;
    hide Rooted, TagText, Holds, NodeTree, M.Dom, TreeOf;
    forall i | 0 <= i < |ids|
      ensures body < ids[i] < |fragment|
      ensures NodeTree(nodes, r, bound, off + ids[i]) == M.Dom(TreeOf(fragment, ids[i]))
    {
      FragmentTree(nodes, off, fragment, body, r, bound, ids[i]);
    }
    SameTrees(nodes, r, bound, n, off, fragment, ids);
  }

  /** The children of the node are the trees of the body's children, and no other child list of the
      document changes. */
  lemma {:induction false} InnerTree(nodes: seq<Node>, n: nat, fragment: seq<Node>, body: nat, r: seq<nat>, bound: nat)
    requires n < |nodes| && Forward(fragment) && body < |fragment| && nodes[n].content.Element?
    requires Rooted(WithInner(nodes, n, fragment, Some(body)), r, bound)
    ensures var nodes' := WithInner(nodes, n, fragment, Some(body));
      && |nodes'| == |nodes| + |fragment|
      && NodeTree(nodes', r, bound, n) ==
           Branch(TagText(nodes[n].content.name), nodes[n].content.attributes, M.DomAll(TreeOf(fragment, body).kids))
      && forall x :: 0 <= x < |nodes| && x != n ==>
           nodes'[x].content == nodes[x].content && nodes'[x].children == nodes[x].children
  {
    hide *;
    InnerHolds(nodes, n, fragment, body);
    HoldsSize(WithInner(nodes, n, fragment, Some(body)), |nodes|, fragment, body);
    BodyTrees(WithInner(nodes, n, fragment, Some(body)), |nodes|, fragment, body, r, bound, n);
  }

  lemma {:induction false} HoldsSize(nodes: seq<Node>, off: nat, fragment: seq<Node>, body: nat)
    requires Holds(nodes, off, fragment, body)
    ensures |nodes| == off + |fragment|
  {
  }

  // ----- Markup that was written before -----

  predicate NoBody(ts: seq<Tree>) {
    forall k :: 0 <= k < |WalkAll(ts, 2)| ==> !HasName(WalkAll(ts, 2)[k].content, Body)
  }

  lemma {:induction false} NoneNamed(w: seq<Entry>, name: Name)
    requires forall k :: 0 <= k < |w| ==> !HasName(w[k].content, name)
    ensures LastNamed(w, name) == None
    decreases |w|
  {
    if w != [] {
      NoneNamed(w[..|w| - 1], name);
    }
  }

  /** The body of wrapped markup is the outer one when there is no other. */
  lemma {:induction false} WrappedBody(kids: seq<Tree>)
    requires NoBody(kids)
    ensures LastNamed(Walk(M.Wrapped(kids), 0), Body) == Some(1)
  {
    var body := Tree(1, Element(Body, []), kids);
    var html, head := Entry(0, Element(Html, []), 0), Entry(1, Element(Body, []), 1);
    assert Walk(M.Wrapped(kids), 0) == [html] + ([head] + WalkAll(kids, 2)) by {
      assert [body][..0] == [];
      assert WalkAll([body], 1) == WalkAll([], 1) + Walk(body, 1);
      assert Walk(body, 1) == [head] + WalkAll(kids, 2);
      hide Walk;
      assert WalkAll([], 1) == [];
    }
    hide Walk, WalkAll, LastNamed;
    NoneNamed(WalkAll(kids, 2), Body);
    LastNamedConcat([html], [head] + WalkAll(kids, 2), Body);
    LastNamedConcat([head], WalkAll(kids, 2), Body);
    LastNamedOne(head, Body);
  }

  lemma {:induction false} KeptBody(kids: seq<Tree>)
    requires NoBody(kids)
    ensures NoBody(M.KeptAll(kids))
  {
    KeptNames(kids, 2);
    hide WalkAll, M.KeptAll;
  }

  lemma {:induction false} KeptName(t: Tree, depth: nat)
    ensures |Walk(M.Kept(t), depth)| == |Walk(t, depth)|
    ensures forall k :: 0 <= k < |Walk(t, depth)| ==>
      (HasName(Walk(M.Kept(t), depth)[k].content, Body) <==> HasName(Walk(t, depth)[k].content, Body))
    decreases t, 1
  {
    KeptNames(t.kids, depth + 1);
    hide Scan.Written, WalkAll, M.KeptAll;
  }

  lemma {:induction false} KeptNames(ts: seq<Tree>, depth: nat)
    ensures |WalkAll(M.KeptAll(ts), depth)| == |WalkAll(ts, depth)|
    ensures forall k :: 0 <= k < |WalkAll(ts, depth)| ==>
      (HasName(WalkAll(M.KeptAll(ts), depth)[k].content, Body) <==> HasName(WalkAll(ts, depth)[k].content, Body))
    decreases ts, 0
  {
    if ts != [] {
      var n := |ts| - 1;
      KeptNames(ts[..n], depth);
      KeptName(ts[n], depth);
      assert M.KeptAll(ts)[..n] == M.KeptAll(ts[..n]);
      hide Walk, M.Kept;
    }
  }

  /** After the children of the fragment's last body came under n, its children are these trees. */
  ghost predicate ComesUnder(nodes: seq<Node>, n: nat, fragment: seq<Node>, root: nat, r: seq<nat>, bound: nat,
                             ts: seq<DomTree>) {
    && Forward(fragment) && root < |fragment| && n < |nodes| && nodes[n].content.Element?
    && var body := LastNamed(Walk(TreeOf(fragment, root), 0), Body);
    && body.Some? && body.value < |fragment|
    && var nodes' := WithInner(nodes, n, fragment, body);
    && n < |nodes'|
    && (Rooted(nodes', r, bound) ==>
          NodeTree(nodes', r, bound, n) == Branch(TagText(nodes[n].content.name), nodes[n].content.attributes, ts))
  }

  lemma {:induction false} WrappedCopies(nodes: seq<Node>, n: nat, kids: seq<Tree>, count: nat, limit: nat, budget: nat,
                                         tokens: seq<Token>, fragment: seq<Node>, root: nat, r: seq<nat>, bound: nat)
    requires limit >= 3 && NoBody(kids) && Parsed(fragment, root, limit, budget, tokens)
    requires HtmlMachine.Parse(Some(limit), budget, tokens) == Outcome.Ok((count, M.Wrapped(kids)))
    requires n < |nodes| && nodes[n].content.Element?
    ensures ComesUnder(nodes, n, fragment, root, r, bound, M.DomAll(kids))
  {
    ParsedTree(fragment, root, limit, budget, tokens, kids, count);
    WrappedBody(kids);
    InnerHolds(nodes, n, fragment, 1);
    hide WithInner, Rooted, NodeTree, TreeOf, LastNamed, Walk, HoldsAt, Parsed, HtmlMachine.Parse, M.Wrapped, M.DomAll, TagText;
    if Rooted(WithInner(nodes, n, fragment, Some(1)), r, bound) {
      InnerTree(nodes, n, fragment, 1, r, bound);
    }
  }

  lemma {:induction false} LimitFits(limit: nat)
    requires limit >= 3
    ensures Fits(Some(limit))
  {
  }

  /** Setting the inner markup of a node to what was written for some trees puts these trees under it,
      with the attribute values as they were written. */
  lemma {:induction false} MarkupCopies(fold: string -> string, nodes: seq<Node>, n: nat, kids: seq<Tree>, limit: nat,
                                        budget: nat,
                                        fragment: seq<Node>, root: nat, r: seq<nat>, bound: nat)
    requires limit >= 3 && RoundTrip.NumberedAll(kids, 2)
    requires RoundTrip.NestedAll(kids, 2, Some(limit), RoundTrip.Inside(false, false)) && NoBody(kids)
    requires budget == 0 || 2 + RoundTrip.Sizes(kids) <= budget
    requires Scan.ReadableAll(fold, M.DomAll(kids)) && M.OwnedAll(kids)
    requires Scan.PlainTag(fold, "html") && Scan.PlainTag(fold, "body")
    requires Parsed(fragment, root, limit, budget,
                    Scan.Read(fold, M.Around(Inner(M.DomAll(kids)))))
    requires n < |nodes| && nodes[n].content.Element?
    ensures ComesUnder(nodes, n, fragment, root, r, bound, M.DomAll(M.KeptAll(kids)))
  {
    hide *;
    LimitFits(limit);
    M.InnerBack(fold, Some(limit), budget, kids);
    KeptBody(kids);
    WrappedCopies(nodes, n, M.KeptAll(kids), 2 + RoundTrip.Sizes(kids), limit, budget,
                  Scan.Read(fold, M.Around(Inner(M.DomAll(kids)))), fragment, root, r, bound);
  }

  lemma {:induction false} ParsedTree(fragment: seq<Node>, root: nat, limit: nat, budget: nat, tokens: seq<Token>,
                                      kids: seq<Tree>, count: nat)
    requires limit >= 3 && Parsed(fragment, root, limit, budget, tokens)
    requires HtmlMachine.Parse(Some(limit), budget, tokens) == Outcome.Ok((count, M.Wrapped(kids)))
    ensures Forward(fragment) && root < |fragment| && TreeOf(fragment, root) == M.Wrapped(kids)
    ensures 1 < |fragment| && TreeOf(fragment, 1).kids == kids
  {
    assert TreeOf(fragment, root) == M.Wrapped(kids);
    assert TreeOf(fragment, root).kids[0] == Tree(1, Element(Body, []), kids);
    assert TreeOf(fragment, root).kids[0] == TreeOf(fragment, fragment[root].children[0]);
    assert fragment[root].children[0] == 1;
    hide HtmlMachine.Parse;
  }
}
