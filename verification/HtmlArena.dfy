/** The node array of the HTML tree builder in src/dom.c.

    Every id is greater than its parent's, so trees can be read off the array. Linking an orphan
    under another node, or leaving it for later, changes child lists and parent links in place; the
    lemmas say what that does to the trees, and that links agree and levels stay within the depth
    cap.
*/
module HtmlArena {
  import opened Results
  import opened HtmlMachine

  datatype Node = Node(content: Content, parent: Option<nat>, children: seq<nat>)

  /** Children have larger ids than their parents. */
  ghost predicate Forward(nodes: seq<Node>) {
    && (forall x, k :: 0 <= x < |nodes| && 0 <= k < |nodes[x].children| ==>
          x < nodes[x].children[k] < |nodes|)
    && (forall x :: 0 <= x < |nodes| && nodes[x].parent.Some? ==> nodes[x].parent.value < x)
  }

  ghost predicate Orphan(nodes: seq<Node>, id: nat) {
    forall x, k :: 0 <= x < |nodes| && 0 <= k < |nodes[x].children| ==> nodes[x].children[k] != id
  }

  ghost function TreeOf(nodes: seq<Node>, id: nat): Tree
    requires Forward(nodes) && id < |nodes|
    decreases |nodes| - id
  {
    var ids := nodes[id].children;
    Tree(id, nodes[id].content, seq(|ids|, i requires 0 <= i < |ids| => TreeOf(nodes, ids[i])))
  }

  ghost function TreesOf(nodes: seq<Node>, ids: seq<nat>): (ts: seq<Tree>)
    requires Forward(nodes)
    requires forall i :: 0 <= i < |ids| ==> ids[i] < |nodes|
    ensures |ts| == |ids|
    ensures forall i :: 0 <= i < |ids| ==> ts[i] == TreeOf(nodes, ids[i])
  {
    seq(|ids|, i requires 0 <= i < |ids| => TreeOf(nodes, ids[i]))
  }

  /** Two arenas that differ below `changed` only, a node that is nobody's child. */
  ghost predicate SameBut(nodes: seq<Node>, nodes': seq<Node>, changed: nat) {
    && |nodes| <= |nodes'|
    && forall x :: 0 <= x < |nodes| && x != changed ==>
         nodes'[x].content == nodes[x].content && nodes'[x].children == nodes[x].children
  }

  ghost predicate SameContent(nodes: seq<Node>, nodes': seq<Node>) {
    |nodes| <= |nodes'| && forall x :: 0 <= x < |nodes| ==> nodes'[x].content == nodes[x].content
  }

  lemma {:induction false} TreeFrame(nodes: seq<Node>, nodes': seq<Node>, changed: nat, id: nat)
    requires Forward(nodes) && Forward(nodes')
    requires SameBut(nodes, nodes', changed) && Orphan(nodes, changed)
    requires id < |nodes| && id != changed
    ensures TreeOf(nodes', id) == TreeOf(nodes, id)
    decreases |nodes| - id
  {
    var ids := nodes[id].children;
    forall k | 0 <= k < |ids|
      ensures TreeOf(nodes', ids[k]) == TreeOf(nodes, ids[k])
    {
      TreeFrame(nodes, nodes', changed, ids[k]);
    }
    assert TreeOf(nodes', id).kids == TreeOf(nodes, id).kids;
  }

  lemma {:induction false} TreesFrame(nodes: seq<Node>, nodes': seq<Node>, changed: nat, ids: seq<nat>)
    requires Forward(nodes) && Forward(nodes')
    requires SameBut(nodes, nodes', changed) && Orphan(nodes, changed)
    requires forall i :: 0 <= i < |ids| ==> ids[i] < |nodes| && ids[i] != changed
    ensures TreesOf(nodes', ids) == TreesOf(nodes, ids)
  {
    forall i | 0 <= i < |ids|
      ensures TreeOf(nodes', ids[i]) == TreeOf(nodes, ids[i])
    {
      TreeFrame(nodes, nodes', changed, ids[i]);
    }
  }

  // ----- Linking a child -----

  predicate Reaches(nodes: seq<Node>, from: nat, c: nat)
    requires forall x :: 0 <= x < |nodes| && nodes[x].parent.Some? ==> nodes[x].parent.value < x
    requires from < |nodes|
    decreases from
  {
    from == c || (nodes[from].parent.Some? && Reaches(nodes, nodes[from].parent.value, c))
  }

  function Without(ids: seq<nat>, c: nat): seq<nat> {
    if ids == [] then []
    else if ids[0] == c then ids[1..]
    else [ids[0]] + Without(ids[1..], c)
  }

  lemma {:induction false} WithoutAt(ids: seq<nat>, c: nat, i: nat)
    requires i <= |ids|
    requires forall k :: 0 <= k < i ==> ids[k] != c
    requires i < |ids| ==> ids[i] == c
    ensures Without(ids, c) == if i < |ids| then ids[..i] + ids[i + 1..] else ids
    decreases i
  {
    if 0 < i {
      WithoutAt(ids[1..], c, i - 1);
      assert [ids[0]] + ids[1..] == ids;
      if i < |ids| {
        assert ids[1..][..i - 1] == ids[1..i];
        assert ids[1..][i..] == ids[i + 1..];
        assert [ids[0]] + ids[1..i] == ids[..i];
      }
    }
  }

  function Unlinked(nodes: seq<Node>, c: nat): seq<Node>
    requires c < |nodes|
    requires nodes[c].parent.Some? ==> nodes[c].parent.value < |nodes|
  {
    if nodes[c].parent.None? then nodes
    else
      var p := nodes[c].parent.value;
      nodes[p := nodes[p].(children := Without(nodes[p].children, c))]
  }

  function LinkedUnder(nodes: seq<Node>, p: nat, c: nat): seq<Node>
    requires c < |nodes| && p < |nodes|
    requires nodes[c].parent.Some? ==> nodes[c].parent.value < |nodes|
  {
    var u := Unlinked(nodes, c);
    var grown := u[p := u[p].(children := u[p].children + [c])];
    grown[c := grown[c].(parent := Some(p))]
  }

  // ----- The open-element stack -----

  /** Each open element's parent link is the element below it on the stack, though no child array
      holds it yet. */
  ghost predicate Stacked(nodes: seq<Node>, stack: seq<nat>) {
    && Forward(nodes)
    && (forall i :: 0 <= i < |stack| ==> stack[i] < |nodes| && Orphan(nodes, stack[i]))
    && (forall i, j :: 0 <= i < j < |stack| ==> stack[i] < stack[j])
    && (stack != [] ==> nodes[stack[0]].parent == None)
    && (forall i, j :: 0 <= i < j < |stack| && j == i + 1 ==> nodes[stack[j]].parent == Some(stack[i]))
  }

  lemma {:induction false} StackReaches(nodes: seq<Node>, stack: seq<nat>, i: nat, c: nat)
    requires Stacked(nodes, stack) && i < |stack|
    requires forall k :: 0 <= k <= i ==> stack[k] != c
    ensures !Reaches(nodes, stack[i], c)
    decreases i
  {
    if i > 0 {
      StackReaches(nodes, stack, i - 1, c);
    }
  }

  lemma {:induction false} UnlinkOrphan(nodes: seq<Node>, c: nat)
    requires Forward(nodes) && c < |nodes| && Orphan(nodes, c)
    ensures Unlinked(nodes, c) == nodes
  {
    if nodes[c].parent.Some? {
      var ids := nodes[nodes[c].parent.value].children;
      WithoutAt(ids, c, |ids|);
    }
  }

  lemma {:induction false} LinkForward(nodes: seq<Node>, p: nat, c: nat)
    requires Forward(nodes) && p < c < |nodes|
    requires Unlinked(nodes, c) == nodes
    ensures Forward(LinkedUnder(nodes, p, c))
    ensures SameBut(nodes, LinkedUnder(nodes, p, c), p)
    ensures SameContent(nodes, LinkedUnder(nodes, p, c))
  {
  }

  lemma {:induction false} LinkOrphans(nodes: seq<Node>, p: nat, c: nat, stack: seq<nat>)
    requires Stacked(nodes, stack) && p < c < |nodes|
    requires Unlinked(nodes, c) == nodes
    requires c !in stack
    ensures Stacked(LinkedUnder(nodes, p, c), stack)
  {
    LinkForward(nodes, p, c);
  }

  lemma {:induction false} LinkTree(nodes: seq<Node>, p: nat, c: nat)
    requires Forward(nodes) && p < c < |nodes|
    requires Unlinked(nodes, c) == nodes && Orphan(nodes, p)
    requires Forward(LinkedUnder(nodes, p, c)) && SameBut(nodes, LinkedUnder(nodes, p, c), p)
    ensures var nodes' := LinkedUnder(nodes, p, c);
      TreeOf(nodes', p) == TreeOf(nodes, p).(kids := TreeOf(nodes, p).kids + [TreeOf(nodes, c)])
  {
    var nodes' := LinkedUnder(nodes, p, c);
    var ids := nodes[p].children;
    forall k | 0 <= k < |ids|
      ensures TreeOf(nodes', ids[k]) == TreeOf(nodes, ids[k])
    {
      TreeFrame(nodes, nodes', p, ids[k]);
    }
    TreeFrame(nodes, nodes', p, c);
    assert nodes'[p].children == ids + [c];
    assert TreeOf(nodes', p).kids == TreeOf(nodes, p).kids + [TreeOf(nodes, c)];
  }

  lemma {:induction false} TopTree(nodes: seq<Node>, nodes': seq<Node>, stack: seq<nat>, kid: Tree)
    requires Forward(nodes) && Forward(nodes') && stack != []
    requires forall i :: 0 <= i < |stack| ==> stack[i] < |nodes| <= |nodes'|
    requires TreesOf(nodes', stack[..|stack| - 1]) == TreesOf(nodes, stack[..|stack| - 1])
    requires var t := TreeOf(nodes, stack[|stack| - 1]);
      TreeOf(nodes', stack[|stack| - 1]) == t.(kids := t.kids + [kid])
    ensures TreesOf(nodes', stack) == Attach(TreesOf(nodes, stack), kid)
  {
    hide TreeOf;
    var n := |stack|;
    assert stack == stack[..n - 1] + [stack[n - 1]];
    assert TreesOf(nodes', stack)[..n - 1] == TreesOf(nodes', stack[..n - 1]);
    assert TreesOf(nodes, stack)[..n - 1] == TreesOf(nodes, stack[..n - 1]);
  }

  /** Linking an orphan under the top of the stack attaches its tree there. */
  lemma {:induction false} LinkTop(nodes: seq<Node>, stack: seq<nat>, c: nat)
    requires Stacked(nodes, stack) && stack != []
    requires stack[|stack| - 1] < c < |nodes|
    requires Orphan(nodes, c)
    ensures var nodes' := LinkedUnder(nodes, stack[|stack| - 1], c);
      && Stacked(nodes', stack)
      && TreesOf(nodes', stack) == Attach(TreesOf(nodes, stack), TreeOf(nodes, c))
      && SameContent(nodes, nodes') && |nodes'| == |nodes|
  {
    hide TreeOf;
    var n := |stack|;
    var p := stack[n - 1];
    var nodes' := LinkedUnder(nodes, p, c);
    UnlinkOrphan(nodes, c);
    LinkForward(nodes, p, c);
    LinkOrphans(nodes, p, c, stack);
    LinkTree(nodes, p, c);
    TreesFrame(nodes, nodes', p, stack[..n - 1]);
    TopTree(nodes, nodes', stack, TreeOf(nodes, c));
  }

  // ----- Parent links and child lists agree -----

  /** The number of ancestors by parent links. */
  function Level(nodes: seq<Node>, x: nat): nat
    requires forall y :: 0 <= y < |nodes| && nodes[y].parent.Some? ==> nodes[y].parent.value < y
    requires x < |nodes|
    decreases x
  {
    if nodes[x].parent.None? then 0 else 1 + Level(nodes, nodes[x].parent.value)
  }

  /** Every node with a parent is in its parent's child list, once, unless it is still open, and no
      node has more than limit ancestors. */
  ghost predicate Settled(nodes: seq<Node>, stack: seq<nat>, limit: nat)
    requires Forward(nodes)
  {
    && |stack| <= limit
    && (forall x, k :: 0 <= x < |nodes| && 0 <= k < |nodes[x].children| ==>
          nodes[nodes[x].children[k]].parent == Some(x))
    && (forall x, p :: 0 <= x < |nodes| && 0 <= p < |nodes| && nodes[x].parent == Some(p) && x !in stack ==>
          x in nodes[p].children)
    && (forall x, j, k :: 0 <= x < |nodes| && 0 <= j < k < |nodes[x].children| ==>
          nodes[x].children[j] != nodes[x].children[k])
    && (forall x :: 0 <= x < |nodes| ==> Level(nodes, x) <= limit)
  }

  /** Levels depend on the parent links of smaller nodes only. */
  lemma {:induction false} LevelFrame(nodes: seq<Node>, nodes': seq<Node>, x: nat)
    requires Forward(nodes) && Forward(nodes')
    requires x < |nodes| <= |nodes'|
    requires forall y :: 0 <= y <= x ==> nodes'[y].parent == nodes[y].parent
    ensures Level(nodes', x) == Level(nodes, x)
    decreases x
  {
    if nodes[x].parent.Some? {
      LevelFrame(nodes, nodes', nodes[x].parent.value);
    }
  }

  lemma {:induction false} StackLevel(nodes: seq<Node>, stack: seq<nat>, i: nat)
    requires Stacked(nodes, stack) && i < |stack|
    ensures Level(nodes, stack[i]) == i
    decreases i
  {
    if i > 0 {
      StackLevel(nodes, stack, i - 1);
    }
  }

  lemma {:induction false} NewSettled(nodes: seq<Node>, stack: seq<nat>, limit: nat, content: Content)
    requires Forward(nodes) && Settled(nodes, stack, limit)
    ensures var nodes' := nodes + [Node(content, None, [])];
      Forward(nodes') && Settled(nodes', stack, limit)
  {
    var nodes' := nodes + [Node(content, None, [])];
    assert Forward(nodes');
    forall x | 0 <= x < |nodes'|
      ensures Level(nodes', x) <= limit
    {
      if x < |nodes| {
        LevelFrame(nodes, nodes', x);
      }
    }
  }

  /** The child lists after linking an orphan, whose parent link changes at most. */
  lemma {:induction false} LinkSettled(nodes: seq<Node>, stack: seq<nat>, limit: nat, p: nat, c: nat)
    requires Forward(nodes) && Settled(nodes, stack + [c], limit + 1) && |stack| <= limit
    requires p < c < |nodes| && Orphan(nodes, c)
    requires forall x :: 0 <= x < |nodes| ==> Level(LinkedNodes(nodes, p, c), x) <= limit
    ensures LinkedUnder(nodes, p, c) == LinkedNodes(nodes, p, c)
    ensures Settled(LinkedUnder(nodes, p, c), stack, limit)
  {
    UnlinkOrphan(nodes, c);
    hide Level;
  }

  /** LinkedUnder for an orphan. */
  ghost function LinkedNodes(nodes: seq<Node>, p: nat, c: nat): (r: seq<Node>)
    requires Forward(nodes) && p < c < |nodes|
    ensures Forward(r)
  {
    var grown := nodes[p := nodes[p].(children := nodes[p].children + [c])];
    grown[c := grown[c].(parent := Some(p))]
  }

  lemma {:induction false} PopSettled(nodes: seq<Node>, stack: seq<nat>, limit: nat)
    requires Stacked(nodes, stack) && |stack| >= 2 && Settled(nodes, stack, limit)
    ensures var n := |stack|;
      var nodes' := LinkedUnder(nodes, stack[n - 2], stack[n - 1]);
      Forward(nodes') && Settled(nodes', stack[..n - 1], limit)
  {
    var n := |stack|;
    var p, c := stack[n - 2], stack[n - 1];
    var nodes' := LinkedNodes(nodes, p, c);
    forall x | 0 <= x < |nodes|
      ensures Level(nodes', x) <= limit
    {
      LevelFrame(nodes, nodes', x);
    }
    assert stack == stack[..n - 1] + [c];
    hide Level;
    LinkSettled(nodes, stack[..n - 1], limit, p, c);
  }

  lemma {:induction false} LeafSettled(nodes: seq<Node>, stack: seq<nat>, limit: nat, c: nat)
    requires Stacked(nodes, stack) && stack != [] && Settled(nodes, stack, limit)
    requires Orphan(nodes, c) && stack[|stack| - 1] < c && |nodes| == c + 1
    ensures var nodes' := LinkedUnder(nodes, stack[|stack| - 1], c);
      Forward(nodes') && Settled(nodes', stack, limit)
  {
    var n := |stack|;
    var p := stack[n - 1];
    var nodes' := LinkedNodes(nodes, p, c);
    forall x | 0 <= x < |nodes|
      ensures Level(nodes', x) <= limit
    {
      LevelFrame(nodes, nodes', if x < c then x else p);
      StackLevel(nodes, stack, n - 1);
    }
    hide Level;
    LinkSettled(nodes, stack, limit, p, c);
  }

  lemma {:induction false} PushSettled(nodes: seq<Node>, stack: seq<nat>, limit: nat, n: nat)
    requires Stacked(nodes, stack) && Settled(nodes, stack, limit) && |stack| < limit
    requires Orphan(nodes, n) && |nodes| == n + 1 && (stack != [] ==> stack[|stack| - 1] < n)
    ensures Forward(Pushed(nodes, stack, n)) && Settled(Pushed(nodes, stack, n), stack + [n], limit)
  {
    var nodes' := Pushed(nodes, stack, n);
    assert Forward(nodes');
    forall x | 0 <= x < |nodes|
      ensures Level(nodes', x) <= limit
    {
      if x < n {
        LevelFrame(nodes, nodes', x);
      } else if stack != [] {
        LevelFrame(nodes, nodes', stack[|stack| - 1]);
        StackLevel(nodes, stack, |stack| - 1);
      }
    }
    hide Level;
  }

  ghost function Pushed(nodes: seq<Node>, stack: seq<nat>, n: nat): seq<Node>
    requires n < |nodes|
  {
    nodes[n := nodes[n].(parent := if stack == [] then None else Some(stack[|stack| - 1]))]
  }

}
