/** The HTML tree builder of src/dom.c as it runs: Builder is its parser structure.

    Nodes live in an array, and open elements and active formatting elements are stacks of their
    positions; child lists and parent links are edited in place. Every method is proved to do what
    the machine of HtmlMachine does. The recursion of implicit and tag ends by the measure
    Rank(t), Work(m, t): the place of a tag among the implied ones, then what is left to supply
    or close.
*/
module HtmlBuilder {
  import opened Results
  import opened HtmlMachine
  import opened HtmlOrder
  import opened HtmlArena

  ghost function EntriesOf(nodes: seq<Node>, ids: seq<nat>): (es: seq<Opened>)
    requires forall i :: 0 <= i < |ids| ==> ids[i] < |nodes|
    ensures |es| == |ids|
    ensures forall i :: 0 <= i < |ids| ==> es[i] == Opened(ids[i], nodes[ids[i]].content)
  {
    seq(|ids|, i requires 0 <= i < |ids| => Opened(ids[i], nodes[ids[i]].content))
  }

  lemma {:induction false} SameEntries(nodes: seq<Node>, nodes': seq<Node>, ids: seq<nat>)
    requires SameContent(nodes, nodes')
    requires forall i :: 0 <= i < |ids| ==> ids[i] < |nodes|
    ensures EntriesOf(nodes', ids) == EntriesOf(nodes, ids)
  {
  }

  lemma {:induction false} NewNodeStacked(nodes: seq<Node>, stack: seq<nat>, content: Content)
    requires Stacked(nodes, stack)
    ensures Stacked(nodes + [Node(content, None, [])], stack)
    ensures Orphan(nodes + [Node(content, None, [])], |nodes|)
    ensures Orphan(nodes, |nodes|)
  {
  }

  lemma {:induction false} EntriesSlice(nodes: seq<Node>, nodes': seq<Node>, ids: seq<nat>, first: nat, last: nat)
    requires SameContent(nodes, nodes') && first <= last <= |ids|
    requires forall i :: 0 <= i < |ids| ==> ids[i] < |nodes|
    ensures EntriesOf(nodes', ids[first..last]) == EntriesOf(nodes, ids[..last])[first..]
    ensures forall i :: first <= i < last ==> nodes'[ids[i]].content == EntriesOf(nodes, ids[..last])[i].content
  {
  }

  /** A new node changes no tree. */
  lemma {:induction false} NewNodeKeeps(nodes: seq<Node>, stack: seq<nat>, content: Content)
    requires Stacked(nodes, stack)
    ensures var nodes' := nodes + [Node(content, None, [])];
      && Stacked(nodes', stack)
      && Orphan(nodes', |nodes|)
      && SameContent(nodes, nodes')
      && TreesOf(nodes', stack) == TreesOf(nodes, stack)
      && TreeOf(nodes', |nodes|) == Tree(|nodes|, content, [])
  {
    var nodes' := nodes + [Node(content, None, [])];
    NewNodeStacked(nodes, stack, content);
    TreesFrame(nodes, nodes', |nodes|, stack);
    assert TreeOf(nodes', |nodes|).kids == [];
    hide TreeOf, TreesOf, Stacked, Orphan;
  }

  lemma {:induction false} PushStacked(nodes: seq<Node>, stack: seq<nat>, n: nat)
    requires Stacked(nodes, stack) && Orphan(nodes, n) && n < |nodes|
    requires stack != [] ==> stack[|stack| - 1] < n
    ensures Stacked(Pushed(nodes, stack, n), stack + [n])
    ensures Orphan(nodes, |nodes|) && SameBut(nodes, Pushed(nodes, stack, n), |nodes|)
  {
    var nodes' := Pushed(nodes, stack, n);
    assert Forward(nodes') && forall x :: 0 <= x < |nodes| ==> nodes'[x].children == nodes[x].children;
  }

  lemma {:induction false} PushKeeps(nodes: seq<Node>, stack: seq<nat>, n: nat)
    requires Stacked(nodes, stack) && Orphan(nodes, n) && n < |nodes|
    requires stack != [] ==> stack[|stack| - 1] < n
    ensures var nodes' := Pushed(nodes, stack, n);
      && Stacked(nodes', stack + [n])
      && SameContent(nodes, nodes')
      && TreesOf(nodes', stack + [n]) == TreesOf(nodes, stack) + [TreeOf(nodes, n)]
  {
    var nodes' := Pushed(nodes, stack, n);
    PushStacked(nodes, stack, n);
    TreesFrame(nodes, nodes', |nodes|, stack);
    TreeFrame(nodes, nodes', |nodes|, n);
    hide TreeOf, Orphan;
  }

  lemma {:induction false} PopReady(nodes: seq<Node>, stack: seq<nat>)
    requires Stacked(nodes, stack) && |stack| >= 2
    ensures var n := |stack|;
      && Stacked(nodes, stack[..n - 1])
      && !Reaches(nodes, stack[n - 2], stack[n - 1])
      && TreesOf(nodes, stack[..n - 1]) == TreesOf(nodes, stack)[..n - 1]
  {
    StackReaches(nodes, stack, |stack| - 2, stack[|stack| - 1]);
  }

  /** Dropping the root. */
  lemma {:induction false} DropSettled(nodes: seq<Node>, stack: seq<nat>, limit: nat)
    requires Stacked(nodes, stack) && stack != [] && Settled(nodes, stack, limit)
    ensures |stack| == 1 ==> Stacked(nodes, []) && Settled(nodes, [], limit)
  {
  }

  lemma {:induction false} PopResult(nodes: seq<Node>, stack: seq<nat>, limit: nat)
    requires Stacked(nodes, stack) && |stack| >= 2 && Settled(nodes, stack, limit)
    ensures Forward(nodes) && forall i :: 0 <= i < |stack| ==> stack[i] < |nodes|
    ensures var n := |stack|;
      var nodes' := LinkedUnder(nodes, stack[n - 2], stack[n - 1]);
      var ts := TreesOf(nodes, stack);
      && Stacked(nodes', stack[..n - 1]) && Settled(nodes', stack[..n - 1], limit)
      && !Reaches(nodes, stack[n - 2], stack[n - 1])
      && Stacked(nodes', stack[..n - 1]) && SameContent(nodes, nodes') && |nodes'| == |nodes|
      && TreesOf(nodes', stack[..n - 1]) == Attach(ts[..n - 1], ts[n - 1])
  {
    PopReady(nodes, stack);
    LinkTop(nodes, stack[..|stack| - 1], stack[|stack| - 1]);
    PopSettled(nodes, stack, limit);
    hide Settled, TreesOf;
  }

  lemma {:induction false} PopKeepsOrphan(nodes: seq<Node>, stack: seq<nat>, n: nat)
    requires Stacked(nodes, stack) && |stack| >= 2
    requires n < |nodes| && Orphan(nodes, n) && stack[|stack| - 1] < n
    ensures var nodes' := LinkedUnder(nodes, stack[|stack| - 2], stack[|stack| - 1]);
      Forward(nodes') && Orphan(nodes', n) && TreeOf(nodes', n) == TreeOf(nodes, n)
  {
    var nodes' := LinkedUnder(nodes, stack[|stack| - 2], stack[|stack| - 1]);
    UnlinkOrphan(nodes, stack[|stack| - 1]);
    LinkForward(nodes, stack[|stack| - 2], stack[|stack| - 1]);
    TreeFrame(nodes, nodes', stack[|stack| - 2], n);
    hide TreeOf;
  }

  lemma {:induction false} StackContents(nodes: seq<Node>, stack: seq<nat>)
    requires Stacked(nodes, stack)
    ensures forall i :: 0 <= i < |stack| ==> TreesOf(nodes, stack)[i].id == stack[i]
    ensures forall i :: 0 <= i < |stack| ==> stack[i] < |nodes|
    ensures forall i :: 0 <= i < |stack| ==> TreesOf(nodes, stack)[i].content == nodes[stack[i]].content
  {
  }

  /** One round of the reopening loop. */
  lemma {:induction false} ReopenStep(m: Machine, es: seq<Opened>, i: nat)
    requires Fits(m.limit) && i < |es|
    ensures m.open == [] ==> Reopen(m, es[i..]) == Invalid
    ensures m.open != [] && !NewNode(m, es[i].content).Ok? ==> Reopen(m, es[i..]) == OverBudget
    ensures m.open != [] && NewNode(m, es[i].content).Ok? ==>
      Reopen(m, es[i..]) == Reopen(Remember(OpenNew(m, es[i].content), m.count, es[i].content), es[i + 1..])
  {
    hide OpenNew;
    assert es[i..][1..] == es[i + 1..];
  }

  lemma {:induction false} ReopenNone(m: Machine)
    requires Fits(m.limit)
    ensures Reopen(m, []) == Ok(m)
  {
  }

  lemma {:induction false} RunPrefix(m: Machine, tokens: seq<Token>, i: nat)
    requires Fits(m.limit) && i < |tokens|
    ensures Run(m, tokens[..i + 1]) ==
      match Run(m, tokens[..i])
      case Ok(c) => HtmlMachine.Step(c, tokens[i])
      case Invalid => Invalid
      case OverBudget => OverBudget
  {
    hide HtmlMachine.Step;
    assert tokens[..i + 1][..i] == tokens[..i];
  }

  /** A failure is final. */
  lemma {:induction false} RunFails(m: Machine, tokens: seq<Token>, i: nat)
    requires Fits(m.limit) && i <= |tokens|
    requires !Run(m, tokens[..i]).Ok?
    ensures Run(m, tokens) == Run(m, tokens[..i])
    decreases |tokens|
  {
    if i == |tokens| {
      assert tokens[..i] == tokens;
    } else {
      var before := tokens[..|tokens| - 1];
      assert before[..i] == tokens[..i];
      RunFails(m, before, i);
    }
  }

  // ----- Termination of the mutual recursion of implicit and tag -----

  /** 1 for the start tags that first end another element, 0 for the tags implicit supplies. */
  function Rank(t: Option<Tag>): nat {
    if IsStart(t, P) || IsStart(t, Li) then 1 else 0
  }

  /** How much implicit still has to do before t; the excess delays the end of an open head. */
  function Work(m: Machine, t: Option<Tag>): nat {
    if m.open == [] then (if IsStart(t, Html) then 0 else 4)
    else if LeavesHead(m, t) then 3 + m.excess
    else if LeavesRoot(m, t) then 2
    else 0
  }

  /** The tag implicit supplies when there is work to do. */
  function Supplied(m: Machine, t: Option<Tag>): Tag {
    if m.open == [] then Start(Html, [])
    else if LeavesHead(m, t) then End(Head)
    else Start(if IsHeadStart(t) then Head else Body, [])
  }

  /** Handling `u` leaves the outcome for t as it was, with less work to do. */
  ghost predicate Advances(m: Machine, t: Option<Tag>, u: Tag)
    requires Fits(m.limit)
  {
    && Rank(Some(u)) == 0 && Work(m, Some(u)) == 0
    && match HandleTag(m, u)
       case Ok(c) => c.limit == m.limit && Implied(c, t) == Implied(m, t) && Work(c, t) < Work(m, t)
       case Invalid => Implied(m, t) == Invalid
       case OverBudget => Implied(m, t) == OverBudget
  }

  lemma {:induction false} EarlyStart(m: Machine, name: Name)
    requires Fits(m.limit) && |m.open| <= 1
    requires name == Html || name == Head || name == Body
    requires StartElement(m, name, []).Ok?
    ensures var c := StartElement(m, name, []).value;
      c == m.(count := m.count + 1, open := m.open + [Tree(m.count, Element(name, []), [])])
  {
  }

  lemma {:induction false} RootRound(m: Machine, t: Option<Tag>)
    requires Inv(m) && m.open == [] && !IsStart(t, Html)
    ensures Advances(m, t, Start(Html, []))
  {
    hide WalkOpen, Walk, StartElement;
    assert Implied(m, Some(Start(Html, []))) == Ok(m);
    assert HandleTag(m, Start(Html, [])) == StartElement(m, Html, []);
    if StartElement(m, Html, []).Ok? {
      EarlyStart(m, Html);
    }
  }

  lemma {:induction false} DescendRound(m: Machine, t: Option<Tag>)
    requires Inv(m) && LeavesRoot(m, t)
    ensures Advances(m, t, Start(if IsHeadStart(t) then Head else Body, []))
  {
    hide WalkOpen, Walk, StartElement;
    var name := if IsHeadStart(t) then Head else Body;
    assert Implied(m, Some(Start(name, []))) == Ok(m);
    assert HandleTag(m, Start(name, [])) == StartElement(m, name, []);
    if StartElement(m, name, []).Ok? {
      EarlyStart(m, name);
    }
  }

  lemma {:induction false} HeadRound(m: Machine, t: Option<Tag>)
    requires Inv(m) && LeavesHead(m, t)
    ensures Advances(m, t, End(Head))
  {
    hide WalkOpen, Walk, StartElement;
    assert Implied(m, Some(End(Head))) == Ok(m);
    assert HandleTag(m, End(Head)) == Ok(EndPlain(m));
    if m.excess == 0 {
      assert m.(excess := 0) == m;
    }
  }

  /** One round of implicit. */
  lemma {:induction false} ImpliedRound(m: Machine, t: Option<Tag>)
    requires Inv(m)
    ensures Work(m, t) == 0 ==> Implied(m, t) == Ok(m)
    ensures Work(m, t) > 0 ==> Advances(m, t, Supplied(m, t))
  {
    hide WalkOpen, Walk, StartElement, Advances, Inv;
    if m.open == [] {
      if !IsStart(t, Html) {
        RootRound(m, t);
      }
    } else if LeavesHead(m, t) {
      HeadRound(m, t);
    } else if LeavesRoot(m, t) {
      DescendRound(m, t);
    }
  }

  lemma {:induction false} DescendDone(m: Machine, t: Option<Tag>)
    requires Fits(m.limit) && m.open != []
    requires Descend(m, t).Ok?
    ensures Work(Descend(m, t).value, t) == 0
  {
    hide WalkOpen, Walk, StartElement;
    var c := if LeavesHead(m, t) then PopAttach(m.(excess := 0)) else m;
    if LeavesRoot(c, t) {
      EarlyStart(c, if IsHeadStart(t) then Head else Body);
    }
  }

  lemma {:induction false} ImpliedDone(m: Machine, t: Option<Tag>)
    requires Inv(m) && Implied(m, t).Ok?
    ensures Work(Implied(m, t).value, t) == 0
  {
    hide WalkOpen, Walk, StartElement, Descend;
    if m.open != [] {
      DescendDone(m, t);
    } else if !IsStart(t, Html) {
      DescendDone(StartElement(m, Html, []).value, t);
    }
  }

  /** The end tag a p or li supplies needs no tag of its own. */
  lemma {:induction false} NestedEnd(m: Machine, t: Tag)
    requires Inv(m) && m.open != []
    requires t.Start? && (t.name == P || t.name == Li)
    requires !LeavesHead(m, Some(t)) && !LeavesRoot(m, Some(t))
    ensures HandleTag(m, End(t.name)) == Ok(EndPlain(m))
    ensures Rank(Some(End(t.name))) == 0
  {
    hide WalkOpen, Walk;
  }

  class Builder {
    const limit: nat
    const budget: nat
    var nodes: seq<Node>
    var stack: seq<nat>
    var excess: nat
    var format: seq<nat>
    var formatCount: nat
    var early: set<nat>
    var invalid: bool
    var overBudget: bool

    ghost predicate Sound()
      reads this
    {
      && limit >= 3
      && Stacked(nodes, stack) && |stack| <= limit && Settled(nodes, stack, limit)
      && formatCount <= |format|
      && (forall i :: 0 <= i < |format| ==> format[i] < |nodes|)
    }

    ghost function Abs(): Machine
      reads this
      requires Sound()
    {
      Machine(Some(limit), budget, |nodes|, TreesOf(nodes, stack), excess,
              EntriesOf(nodes, format[..formatCount]), early)
    }

    constructor (limit: nat, budget: nat)
      requires limit >= 3
      ensures Sound() && Abs() == Initial(Some(limit), budget)
      ensures !invalid && !overBudget
    {
      this.limit, this.budget := limit, budget;
      nodes, stack, excess := [], [], 0;
      format, formatCount, early := [], 0, {};
      invalid, overBudget := false, false;
    }

    method NewNode(content: Content) returns (ok: bool, id: nat)
      requires Sound()
      modifies `nodes, `overBudget
      ensures ok == !(budget != 0 && |old(nodes)| >= budget)
      ensures !ok ==> nodes == old(nodes) && overBudget
      ensures ok ==> overBudget == old(overBudget)
      ensures ok ==> Sound() && id == |old(nodes)| && |nodes| == id + 1 && nodes[id].content == content
      ensures ok ==> SameContent(old(nodes), nodes)
      ensures ok ==> Orphan(nodes, id) && TreeOf(nodes, id) == Tree(id, content, [])
      ensures ok && stack != [] ==> stack[|stack| - 1] < id
      ensures ok ==> Abs() == old(Abs()).(count := id + 1)
    {
      hide Settled, TreeOf, TreesOf, EntriesOf, Orphan;
      NewNodeKeeps(nodes, stack, content);
      NewSettled(nodes, stack, limit, content);
      SameEntries(nodes, nodes + [Node(content, None, [])], format[..formatCount]);
      ok, id := false, 0;
      if budget != 0 && |nodes| >= budget {
        overBudget := true;
        return;
      }
      ok, id := true, |nodes|;
      nodes := nodes + [Node(content, None, [])];
    }

    /** tai_node_append: fails exactly when c is p or above it. */
    method Append(p: nat, c: nat) returns (ok: bool)
      requires Forward(nodes) && p < |nodes| && c < |nodes|
      modifies `nodes
      ensures ok == !Reaches(old(nodes), p, c)
      ensures nodes == if ok then LinkedUnder(old(nodes), p, c) else old(nodes)
    {
      var n: Option<nat> := Some(p);
      while n.Some?
        invariant n.Some? ==> n.value < |nodes|
        invariant Reaches(nodes, p, c) == (n.Some? && Reaches(nodes, n.value, c))
        decreases if n.Some? then n.value + 1 else 0
      {
        if n.value == c {
          return false;
        }
        n := nodes[n.value].parent;
      }
      if nodes[c].parent.Some? {
        var o := nodes[c].parent.value;
        var ids := nodes[o].children;
        var i := 0;
        while i < |ids| && ids[i] != c
          invariant i <= |ids|
          invariant forall k :: 0 <= k < i ==> ids[k] != c
        {
          i := i + 1;
        }
        WithoutAt(ids, c, i);
        if i < |ids| {
          nodes := nodes[o := nodes[o].(children := ids[..i] + ids[i + 1..])];
        }
      }
      nodes := nodes[p := nodes[p].(children := nodes[p].children + [c])];
      nodes := nodes[c := nodes[c].(parent := Some(p))];
      ok := true;
    }

    /** Takes the top off the stack and links it under the element below. */
    method LinkBelow() returns (ok: bool)
      requires Sound() && |stack| >= 2
      modifies `nodes, `stack
      ensures ok && Sound() && SameContent(old(nodes), nodes)
      ensures |nodes| == |old(nodes)| && stack == old(stack)[..|old(stack)| - 1]
      ensures nodes == LinkedUnder(old(nodes), stack[|stack| - 1], old(stack[|stack| - 1]))
      ensures Abs() == HtmlMachine.PopAttach(old(Abs()))
    {
      hide Stacked, Settled, TreeOf, TreesOf, LinkedUnder, Reaches, EntriesOf, Attach;
      var n := stack[|stack| - 1];
      PopResult(nodes, stack, limit);
      SameEntries(nodes, LinkedUnder(nodes, stack[|stack| - 2], n), format[..formatCount]);
      stack := stack[..|stack| - 1];
      ok := Append(stack[|stack| - 1], n);
    }

    method PopAttach() returns (ok: bool)
      requires Sound()
      modifies `nodes, `stack, `invalid
      ensures ok == (|old(stack)| >= 2)
      ensures !ok ==> invalid && nodes == old(nodes) && stack == old(stack)
      ensures ok ==> Sound() && invalid == old(invalid) && SameContent(old(nodes), nodes)
      ensures ok ==> |nodes| == |old(nodes)| && stack == old(stack)[..|old(stack)| - 1]
      ensures ok ==> nodes == LinkedUnder(old(nodes), stack[|stack| - 1], old(stack[|stack| - 1]))
      ensures ok ==> Abs() == HtmlMachine.PopAttach(old(Abs()))
    {
      hide Stacked, Settled, TreeOf, TreesOf, LinkedUnder, EntriesOf, Attach;
      if |stack| < 2 {
        invalid := true;
        return false;
      }
      ok := LinkBelow();
    }

    ghost predicate Valid()
      reads this
    {
      Sound() && Inv(Abs()) && !invalid && !overBudget
    }

    /** The state after a call the machine answers with r. */
    ghost predicate Yields(r: Outcome<Machine>, ok: bool)
      reads this
    {
      && ok == r.Ok? && invalid == r.Invalid? && overBudget == r.OverBudget?
      && (r.Ok? ==> Valid() && Abs() == r.value)
    }

    method PushElement(n: nat)
      requires Sound() && |stack| < limit
      requires |nodes| == n + 1 && Orphan(nodes, n)
      requires stack != [] ==> stack[|stack| - 1] < n
      modifies `nodes, `stack
      ensures Sound() && SameContent(old(nodes), nodes) && |nodes| == |old(nodes)|
      ensures Abs() == old(Abs().(open := Abs().open + [TreeOf(nodes, n)]))
    {
      hide Settled, TreeOf, TreesOf, EntriesOf, Orphan;
      PushKeeps(nodes, stack, n);
      PushSettled(nodes, stack, limit, n);
      SameEntries(nodes, Pushed(nodes, stack, n), format[..formatCount]);
      var parent := if stack == [] then None else Some(stack[|stack| - 1]);
      nodes := nodes[n := nodes[n].(parent := parent)];
      stack := stack + [n];
    }

    /** Remembers that a formatting element is about to be closed before its end tag. */
    method MarkTop()
      requires Sound() && stack != []
      modifies `early
      ensures Sound() && Abs() == Marked(old(Abs()))
    {
      hide Settled, TreeOf, TreesOf, EntriesOf, Orphan;
      var top := stack[|stack| - 1];
      StackContents(nodes, stack);
      if IsFormat(nodes[top].content) {
        early := early + {top};
      }
    }

    /** Closes the deepest open element to make room for n. */
    method CloseEarly(n: nat) returns (ok: bool)
      requires Sound() && |stack| >= limit
      requires |nodes| == n + 1 && Orphan(nodes, n) && stack[|stack| - 1] < n
      modifies `nodes, `stack, `early, `excess, `invalid
      ensures ok && Sound() && invalid == old(invalid)
      ensures SameContent(old(nodes), nodes) && |nodes| == |old(nodes)|
      ensures Orphan(nodes, n) && TreeOf(nodes, n) == old(TreeOf(nodes, n))
      ensures |stack| == |old(stack)| - 1 && stack[|stack| - 1] < n
      ensures Abs() == HtmlMachine.PopAttach(Marked(old(Abs())).(excess := old(excess) + 1))
    {
      hide Settled, TreeOf, TreesOf, LinkedUnder, EntriesOf, Orphan, Reaches, Attach, Marked;
      MarkTop();
      PopKeepsOrphan(nodes, stack, n);
      ok := PopAttach();
      if !ok {
        return;
      }
      excess := excess + 1;
    }

    /** Pushes a new element, closing the deepest open one first when the stack is full. */
    method OpenElement(n: nat) returns (ok: bool)
      requires Sound() && |stack| <= limit
      requires |nodes| == n + 1 && Orphan(nodes, n)
      requires stack != [] ==> stack[|stack| - 1] < n
      modifies `nodes, `stack, `early, `excess, `invalid
      ensures ok && Sound() && invalid == old(invalid)
      ensures SameContent(old(nodes), nodes) && |nodes| == |old(nodes)|
      ensures Abs() == HtmlMachine.OpenElement(old(Abs()), old(TreeOf(nodes, n)))
    {
      hide Settled, TreeOf, Orphan, Stacked, EntriesOf;
      if |stack| >= limit {
        ok := CloseEarly(n);
        if !ok {
          return;
        }
      }
      PushElement(n);
      ok := true;
    }

    method EmptyStack() returns (empty: bool)
      modifies `invalid
      ensures empty == (stack == [])
      ensures invalid == (old(invalid) || empty)
    {
      if |stack| == 0 {
        invalid := true;
      }
      empty := |stack| == 0;
    }

    /** Attaches the node made last, which no element keeps open, under the deepest open one. */
    method AppendLeaf(n: nat) returns (ok: bool)
      requires Sound() && |nodes| == n + 1
      requires Orphan(nodes, n) && (stack != [] ==> stack[|stack| - 1] < n)
      modifies `nodes, `invalid
      ensures ok == (stack != [])
      ensures invalid == (old(invalid) || !ok)
      ensures ok ==> Sound()
      ensures ok ==> Abs() == old(Abs().(open := Attach(Abs().open, TreeOf(nodes, n))))
    {
      hide Settled, TreeOf, TreesOf, EntriesOf, Orphan, LinkedUnder, Reaches, Attach;
      var empty := EmptyStack();
      if empty {
        return false;
      }
      hide Inv;
      StackReaches(nodes, stack, |stack| - 1, n);
      LinkTop(nodes, stack, n);
      LeafSettled(nodes, stack, limit, n);
      SameEntries(nodes, LinkedUnder(nodes, stack[|stack| - 1], n), format[..formatCount]);
      ok := Append(stack[|stack| - 1], n);
    }

    /** Appends to the list of active formatting elements, reusing its buffer. */
    method Remember(n: nat)
      requires Sound() && n < |nodes|
      modifies `format, `formatCount
      ensures Sound()
      ensures Abs() == HtmlMachine.Remember(old(Abs()), n, nodes[n].content)
      ensures formatCount == old(formatCount) + 1
      ensures |format| >= |old(format)|
      ensures forall i :: formatCount <= i < |old(format)| ==> format[i] == old(format)[i]
    {
      if formatCount < |format| {
        format := format[formatCount := n];
      } else {
        format := format + [n];
      }
      formatCount := formatCount + 1;
      assert format[..formatCount] == old(format[..formatCount]) + [n];
    }

    method StartTag(name: Name, attributes: Attributes) returns (ok: bool)
      requires Valid()
      requires stack == [] ==> name == Html
      modifies this
      ensures Yields(StartElement(old(Abs()), name, attributes), ok)
    {
      hide Settled, TreeOf, TreesOf, EntriesOf, Orphan, Inv, Stacked, HtmlMachine.OpenElement;
      var content := Element(name, attributes);
      var made, n := NewNode(content);
      if !made {
        return false;
      }
      StartKeeps(old(Abs()), name, attributes);
      if IsVoid(name) {
        ok := AppendLeaf(n);
      } else {
        ok := OpenElement(n);
        if ok && name.Format? {
          Remember(n);
        }
      }
    }

    method EndPlainTag() returns (ok: bool)
      requires Valid() && stack != []
      modifies this
      ensures ok && Yields(Ok(EndPlain(old(Abs()))), ok)
    {
      hide Settled, TreeOf, TreesOf, EntriesOf, Inv, Stacked;
      EndPlainKeeps(Abs());
      ok := true;
      if excess > 0 && |stack| < limit {
        excess := excess - 1;
      } else if |stack| != 1 {
        ok := PopAttach();
      }
    }

    /** One pop of a formatting end tag. */
    method PopForFormat() returns (n: nat, ok: bool)
      requires Sound() && stack != []
      modifies `nodes, `stack, `excess
      ensures ok && n == old(stack)[|old(stack)| - 1]
      ensures Sound() && SameContent(old(nodes), nodes) && |nodes| == |old(nodes)|
      ensures Abs() == PopOne(old(Abs()))
      ensures |stack| == |old(stack)| - 1
    {
      hide Stacked, Settled, TreeOf, TreesOf, EntriesOf, LinkedUnder, Reaches, Attach;
      n := stack[|stack| - 1];
      DropSettled(nodes, stack, limit);
      if |stack| >= 2 {
        PopResult(nodes, stack, limit);
        SameEntries(nodes, LinkedUnder(nodes, stack[|stack| - 2], n), format[..formatCount]);
      }
      stack := stack[..|stack| - 1];
      if |stack| + 1 < limit {
        excess := 0;
      }
      ok := true;
      if |stack| > 0 {
        ok := Append(stack[|stack| - 1], n);
      }
    }

    /** The pops of a formatting end tag that found its element in the list. */
    method PopFormatted(name: Name) returns (ok: bool)
      requires Sound()
      modifies `nodes, `stack, `excess
      ensures ok && Sound() && SameContent(old(nodes), nodes) && |nodes| == |old(nodes)|
      ensures Abs() == PopTo(old(Abs()), name)
    {
      hide Settled, TreeOf, TreesOf, EntriesOf;
      while |stack| > 0
        invariant Sound() && SameContent(old(nodes), nodes) && |nodes| == |old(nodes)|
        invariant PopTo(Abs(), name) == PopTo(old(Abs()), name)
        decreases |stack|
      {
        StackContents(nodes, stack);
        var n;
        n, ok := PopForFormat();
        if !ok {
          return;
        }
        if HasName(nodes[n].content, name) {
          return;
        }
      }
      ok := true;
    }

    method FindFormat(name: Name) returns (found: nat)
      requires Sound()
      ensures found == LastFormat(Abs().format, name, formatCount)
    {
      hide Settled, TreeOf, TreesOf;
      ghost var es := Abs().format;
      found := formatCount;
      var i: nat := formatCount;
      while i > 0
        invariant i <= formatCount
        invariant LastFormat(es, name, formatCount) == LastFormat(es, name, i)
        decreases i
      {
        if HasName(nodes[format[i - 1]].content, name) {
          return i - 1;
        }
        i := i - 1;
      }
    }

    /** Opens a copy of one formatting element. */
    method ReopenOne(content: Content) returns (ok: bool)
      requires Valid() && IsFormat(content)
      modifies this
      ensures ok == (old(stack) != [] && HtmlMachine.NewNode(old(Abs()), content).Ok?)
      ensures !ok && old(stack) == [] ==> invalid && !overBudget
      ensures !ok && old(stack) != [] ==> overBudget && !invalid
      ensures ok ==> Valid() && SameContent(old(nodes), nodes)
      ensures ok ==> Abs() == HtmlMachine.Remember(OpenNew(old(Abs()), content), |old(nodes)|, content)
      ensures ok ==> formatCount == old(formatCount) + 1
      ensures ok ==> |format| >= |old(format)|
      ensures ok ==> forall i :: formatCount <= i < |old(format)| ==> format[i] == old(format)[i]
    {
      hide Settled, TreeOf, TreesOf, EntriesOf, Orphan, Stacked, Ordered, Shaped, HtmlMachine.OpenElement;
      var empty := EmptyStack();
      if empty {
        return false;
      }
      OpenKeeps(Abs(), content);
      RememberKeeps(OpenNew(Abs(), content), |nodes|, content);
      var made, n := NewNode(content);
      if !made {
        return false;
      }
      ok := OpenElement(n);
      if !ok {
        return;
      }
      Remember(n);
    }

    /** Reopens the formatting elements listed in format[first..last], which Remember overwrites
        only after they have been read. */
    method ReopenAll(first: nat, last: nat) returns (ok: bool)
      requires Valid() && formatCount < first <= last <= |format|
      requires forall i :: first <= i < last ==> IsFormat(nodes[format[i]].content)
      modifies this
      ensures Yields(Reopen(old(Abs()), EntriesOf(old(nodes), old(format)[first..last])), ok)
    {
      hide Settled, TreeOf, TreesOf, Orphan, Inv, OpenNew, Stacked, Ordered, Shaped, Reopen;
      ghost var es := EntriesOf(nodes, format[first..last]);
      ghost var result := Reopen(Abs(), es);
      assert es[0..] == es;
      var i := first;
      while i < last
        invariant Valid() && first <= i <= last <= |format| && formatCount < i + 1
        invariant SameContent(old(nodes), nodes)
        invariant forall k :: i <= k < last ==> format[k] == old(format)[k]
        invariant Reopen(Abs(), es[i - first..]) == result
      {
        var content := nodes[format[i]].content;
        ReopenStep(Abs(), es, i - first);
        ok := ReopenOne(content);
        if !ok {
          return;
        }
        i := i + 1;
      }
      ok := true;
      assert es[i - first..] == [];
      ReopenNone(Abs());
    }

    /** Removes a formatting entry whose element was closed early. */
    method Retire(found: nat)
      requires Valid() && found < formatCount
      modifies `format, `formatCount, `excess
      ensures Valid()
      ensures Abs() == old(Abs()).(
        format := old(Abs().format[..found] + Abs().format[found + 1..]),
        excess := if old(excess) > 0 then old(excess) - 1 else 0)
    {
      hide Settled, TreeOf, TreesOf, Orphan, Ordered, Stacked;
      ghost var m := Abs();
      format := format[..found] + format[found + 1..formatCount] + format[formatCount - 1..];
      formatCount := formatCount - 1;
      assert EntriesOf(nodes, format[..formatCount]) == m.format[..found] + m.format[found + 1..];
      if excess > 0 {
        excess := excess - 1;
      }
      ReformatKeeps(m, m.format[..found] + m.format[found + 1..], excess);
    }

    /** Shortens the list without touching its buffer, then pops the element and those above it. */
    method CutAndPop(found: nat, name: Name) returns (ok: bool)
      requires Valid() && found < formatCount
      modifies `formatCount, `nodes, `stack, `excess
      ensures ok && Valid() && SameContent(old(nodes), nodes)
      ensures formatCount == found && Abs() == PopTo(old(Abs()).(format := old(Abs()).format[..found]), name)
    {
      hide Settled, TreeOf, TreesOf, Orphan, Ordered, Stacked, PopTo;
      ghost var m := Abs();
      formatCount := found;
      assert EntriesOf(nodes, format[..formatCount]) == m.format[..found];
      ReformatKeeps(m, m.format[..found], m.excess);
      PopToKeeps(Abs(), name);
      ok := PopFormatted(name);
    }

    method EndFormatTag(name: Name) returns (ok: bool)
      requires Valid()
      modifies this
      ensures Yields(EndFormat(old(Abs()), name), ok)
    {
      hide Settled, TreeOf, TreesOf, EntriesOf, Orphan, Ordered, Stacked, Reopen, PopTo, SameContent;
      var found := FindFormat(name);
      if found == formatCount {
        return true;
      }
      if format[found] in early {
        Retire(found);
        return true;
      }
      var last := formatCount;
      ok := CutAndPop(found, name);
      if !ok {
        return;
      }
      EntriesSlice(old(nodes), nodes, format, found + 1, last);
      ok := ReopenAll(found + 1, last);
    }

    /** Supplies the tags the document leaves out before t. */
    method Implicit(t: Option<Tag>) returns (ok: bool)
      requires Valid()
      modifies this
      ensures Yields(Implied(old(Abs()), t), ok)
      decreases Rank(t), Work(Abs(), t), 0
    {
      hide Settled, TreeOf, TreesOf, EntriesOf, Orphan, Stacked, Inv, Implied, HtmlMachine.HandleTag;
      while true
        invariant Valid()
        invariant Implied(Abs(), t) == Implied(old(Abs()), t)
        invariant Work(Abs(), t) <= old(Work(Abs(), t))
        decreases Work(Abs(), t)
      {
        ghost var m := Abs();
        ImpliedRound(m, t);
        StackContents(nodes, stack);
        if |stack| == 0 && !IsStart(t, Html) {
          ok := HandleTag(Start(Html, []));
          if !ok {
            return;
          }
        } else if |stack| == 1 && HasName(nodes[stack[0]].content, Html) &&
                  !IsStart(t, Head) && !IsStart(t, Body) && !IsEnd(t, Html) {
          ok := HandleTag(Start(if IsHeadStart(t) then Head else Body, []));
          if !ok {
            return;
          }
        } else if |stack| == 2 && HasName(nodes[stack[0]].content, Html) &&
                  HasName(nodes[stack[1]].content, Head) && !IsEnd(t, Head) && !IsHeadStart(t) {
          ok := HandleTag(End(Head));
          if !ok {
            return;
          }
        } else {
          return true;
        }
      }
    }

    method HandleTag(t: Tag) returns (ok: bool)
      requires Valid()
      modifies this
      ensures Yields(HtmlMachine.HandleTag(old(Abs()), t), ok)
      decreases Rank(Some(t)), Work(Abs(), Some(t)), 1
    {
      hide Settled, TreeOf, TreesOf, EntriesOf, Orphan, Stacked, Inv, Implied;
      if t.Declaration? {
        return true;
      }
      ok := Implicit(Some(t));
      if !ok {
        return;
      }
      ImpliedDone(old(Abs()), Some(t));
      ok := CloseFirst(t);
      if !ok {
        return;
      }
      match t
      case End(name) =>
        if name.Format? {
          ok := EndFormatTag(name);
        } else {
          ok := EndPlainTag();
        }
      case Start(name, attributes) =>
        ok := StartTag(name, attributes);
    }

    method FindParagraph() returns (found: bool)
      requires Sound()
      ensures found == OpenParagraph(Abs().open)
    {
      hide Settled, TreeOf, TreesOf, EntriesOf, Orphan;
      StackContents(nodes, stack);
      ghost var open := Abs().open;
      var i := 0;
      while i < |stack|
        invariant i <= |stack|
        invariant forall k :: 0 <= k < i ==> !HasName(open[k].content, P)
      {
        if HasName(nodes[stack[i]].content, P) {
          assert HasName(open[i].content, P);
          return true;
        }
        i := i + 1;
      }
      found := false;
    }

    method FindItem() returns (found: bool)
      requires Sound()
      ensures found == OpenItem(Abs().open)
    {
      hide Settled, TreeOf, TreesOf, EntriesOf, Orphan;
      StackContents(nodes, stack);
      ghost var open := Abs().open;
      var i := |stack|;
      assert open[..i] == open;
      while i > 0
        invariant 0 <= i <= |stack|
        invariant OpenItem(open) == OpenItem(open[..i])
      {
        assert open[..i][..i - 1] == open[..i - 1];
        var content := nodes[stack[i - 1]].content;
        if HasName(content, Li) {
          return true;
        }
        if HasName(content, Ul) || HasName(content, Ol) {
          return false;
        }
        i := i - 1;
      }
      found := false;
    }

    /** A start tag p closes an open paragraph, li an open item of the same list. */
    method CloseFirst(t: Tag) returns (ok: bool)
      requires Valid() && !t.Declaration?
      requires stack == [] ==> t.Start? && t.name == Html
      requires Work(Abs(), Some(t)) == 0
      modifies this
      ensures Yields(Ok(if ClosesOne(old(Abs()), t) then EndPlain(old(Abs())) else old(Abs())), ok)
      decreases Rank(Some(t)), Work(Abs(), Some(t)), 0
    {
      hide Settled, TreeOf, TreesOf, EntriesOf, Orphan, Inv, Implied, EndPlain, HtmlMachine.HandleTag;
      ok := true;
      if t.Start? && t.name == P {
        NestedEnd(Abs(), t);
        var found := FindParagraph();
        if found {
          ok := HandleTag(End(P));
        }
      } else if t.Start? && t.name == Li {
        NestedEnd(Abs(), t);
        var found := FindItem();
        if found {
          ok := HandleTag(End(Li));
        }
      }
    }

    method AddText(text: string) returns (ok: bool)
      requires Valid()
      modifies this
      ensures Yields(HandleText(old(Abs()), text), ok)
    {
      hide Settled, TreeOf, TreesOf, EntriesOf, Orphan, Inv, Implied;
      ok := Implicit(None);
      if !ok {
        return;
      }
      LeafKeeps(Abs(), Text(text));
      var n;
      ok, n := NewNode(Text(text));
      if !ok {
        return;
      }
      ok := AppendLeaf(n);
    }

    method Step(token: Token) returns (ok: bool)
      requires Valid()
      modifies this
      ensures Yields(HtmlMachine.Step(old(Abs()), token), ok)
    {
      match token
      case TextToken(text) => ok := AddText(text);
      case TagToken(tag) => ok := HandleTag(tag);
    }

    /** The whole parse; `root` is the document's root node. */
    method Parse(tokens: seq<Token>) returns (ok: bool, root: nat)
      requires Valid() && Abs() == Initial(Some(limit), budget)
      modifies this
      ensures var r := HtmlMachine.Parse(Some(limit), budget, tokens);
        && ok == r.Ok? && invalid == r.Invalid? && overBudget == r.OverBudget?
        && (ok ==> Forward(nodes) && root < |nodes| && r.value == (|nodes|, TreeOf(nodes, root)))
        && (ok ==> Settled(nodes, [], limit) && nodes[root].parent == None)
    {
      hide Settled, TreeOf, TreesOf, EntriesOf, Orphan, Inv, Implied, HtmlMachine.Step;
      root := 0;
      var i := 0;
      ghost var start := Abs();
      while i < |tokens|
        invariant i <= |tokens| && Valid()
        invariant Run(start, tokens[..i]) == Ok(Abs())
      {
        RunPrefix(start, tokens, i);
        ok := Step(tokens[i]);
        if !ok {
          RunFails(start, tokens, i + 1);
          return;
        }
        i := i + 1;
      }
      assert tokens[..i] == tokens;
      ok := CloseAllOpen();
      if ok {
        root := stack[0];
        DropSettled(nodes, stack, limit);
        stack := [];
      }
    }

    /** The end of the input. */
    method CloseAllOpen() returns (ok: bool)
      requires Valid()
      modifies this
      ensures var r := Finish(old(Abs()));
        && ok == r.Ok? && invalid == r.Invalid? && overBudget == r.OverBudget?
        && (ok ==> Sound() && |stack| == 1 && |nodes| == r.value.count &&
                   TreeOf(nodes, stack[0]) == CloseAll(r.value.open))
    {
      hide Settled, TreeOf, TreesOf, LinkedUnder, EntriesOf, Orphan, Inv, Implied, Stacked;
      ok := true;
      if |stack| == 0 {
        assert Abs().open == [];
        ok := Implicit(None);
        if !ok {
          return;
        }
      }
      ghost var m := Abs();
      while |stack| > 1
        invariant Sound() && |stack| >= 1 && !invalid && !overBudget && |nodes| == m.count
        invariant CloseAll(Abs().open) == CloseAll(m.open)
        decreases |stack|
      {
        ok := PopAttach();
        if !ok {
          return;
        }
      }
      var empty := EmptyStack();
      if empty {
        return false;
      }
      ok := true;
    }
  }
}
