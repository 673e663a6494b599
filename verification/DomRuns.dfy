/** Every sequence of script mutations of a parsed page, by the calls of include/tai/dom.h. */
module DomRuns {
  import opened Results
  import opened HtmlMachine
  import opened HtmlOrder
  import opened HtmlWrapped
  import opened HtmlArena
  import opened DomForest
  import opened DomDepth
  import opened DomDocument
  import opened DomInnerHtml
  import opened DeepFragment
  import opened DomBound

  /** A document between two calls: live are the nodes a script can hold by then. Its rank is no
      choice, there is at most one. */
  datatype Page = Page(nodes: seq<Node>, rank: seq<nat>, live: set<nat>)

  datatype Call =
    | CreateElement(name: Name, attributes: Attributes)
    | InsertBefore(parent: nat, child: nat, reference: Option<nat>)
    | RemoveChild(parent: nat, child: nat)
    | SetTextContent(node: nat, text: string)
    | SetInnerHtml(node: nat, rest: seq<Token>)

  predicate Held(s: Page, n: nat) {
    n < |s.nodes| ==> n in s.live
  }

  /** A script names only nodes it holds, or nodes of another document. */
  predicate May(s: Page, e: Call) {
    match e
    case CreateElement(_, _) => true
    case InsertBefore(p, c, _) => Held(s, p) && Held(s, c)
    case RemoveChild(_, c) => Held(s, c)
    case SetTextContent(n, _) => Held(s, n)
    case SetInnerHtml(n, _) => Held(s, n)
  }

  /** Markup set on n: the parse decides, and what comes under n becomes live. */
  ghost predicate Inner(s: Page, n: nat, tokens: seq<Token>, fragment: seq<Node>, root: nat, body: Option<nat>,
                        status: Status, s': Page)
    requires n < |s.nodes| == |s.rank| && s.rank[n] <= MAX_DEPTH
  {
    && Decided(|s.nodes|, s.rank[n], tokens, status, fragment, root, body)
    && if status == Done then
         && (body.Some? ==> body.value < |fragment|) && Forward(fragment) && Ranked(fragment, Levels(fragment))
         && s'.nodes == WithInner(s.nodes, n, fragment, body)
         && s'.live == s.live + Brought(|s.nodes|, fragment, body)
       else s'.nodes == s.nodes && s'.live == s.live
  }

  /** What a call makes of the page. */
  ghost predicate Leads(s: Page, e: Call, s': Page)
    requires Ranked(s.nodes, s.rank)
  {
    && Ranked(s'.nodes, s'.rank)
    && match e
       case CreateElement(name, attributes) =>
         if |s.nodes| >= SCRIPT_NODE_LIMIT then s'.nodes == s.nodes && s'.live == s.live
         else
           s'.nodes == s.nodes + [Node(Element(name, attributes), None, [])] && s'.live == s.live + {|s.nodes|}
       case InsertBefore(p, c, ref) =>
         && s'.live == s.live
         && (if InsertStatus(s.nodes, s.rank, p, c, ref) == Done && ref != Some(c)
             then Inserts(s.nodes, p, c) && s'.nodes == Inserted(s.nodes, p, c, ref)
             else s'.nodes == s.nodes)
       case RemoveChild(p, c) =>
         && s'.live == s.live
         && s'.nodes == (if p < |s.nodes| && c < |s.nodes| && s.nodes[c].parent == Some(p)
                         then Detached(s.nodes, c) else s.nodes)
       case SetTextContent(n, text) =>
         if TextStatus(s.nodes, s.rank, n, text) == Done
         then s'.nodes == WithText(s.nodes, n, text) && s'.live == s.live + NewText(s.nodes, n, text)
         else s'.nodes == s.nodes && s'.live == s.live
       case SetInnerHtml(n, rest) =>
         if n >= |s.nodes| then s'.nodes == s.nodes && s'.live == s.live
         else
           |s.rank| == |s.nodes| && s.rank[n] <= MAX_DEPTH &&
           exists fragment, root, body, status :: Inner(s, n, Wrapped(rest), fragment, root, body, status, s')
  }

  /** An acyclic forest with agreeing links, whole live trees within 512 ancestors, and no node at all
      beyond the bound. */
  ghost predicate Sound(s: Page, bound: nat) {
    Forest(s.nodes, s.rank, s.live) && MAX_DEPTH <= bound <= MAX_DEPTH + 1 && Bounded(s.rank, bound)
  }

  /** A call that sets markup only where nothing can come too deep. */
  predicate Mild(s: Page, e: Call) {
    e.SetInnerHtml? && e.node < |s.nodes| ==> Safe(s.nodes, e.node)
  }

  // ----- One call -----

  /** The rank of a page is whatever rank its nodes have. */
  lemma {:induction false} TheRank(s: Page, nodes: seq<Node>, r: seq<nat>, live: set<nat>, bound: nat)
    requires Ranked(s.nodes, s.rank) && s.nodes == nodes && s.live == live
    requires Forest(nodes, r, live) && Bounded(r, bound) && MAX_DEPTH <= bound <= MAX_DEPTH + 1
    ensures Sound(s, bound)
  {
    RankUnique(nodes, s.rank, r);
    hide Linked, Ranked, Reachable, Bounded;
  }

  lemma {:induction false} SameKeeps(s: Page, s': Page, bound: nat)
    requires Sound(s, bound) && Ranked(s'.nodes, s'.rank) && s'.nodes == s.nodes && s'.live == s.live
    ensures Sound(s', bound)
  {
    TheRank(s', s.nodes, s.rank, s.live, bound);
  }

  lemma {:induction false} CreateKeeps(s: Page, s': Page, content: Content, bound: nat)
    requires Sound(s, bound) && Ranked(s'.nodes, s'.rank)
    requires s'.nodes == s.nodes + [Node(content, None, [])] && s'.live == s.live + {|s.nodes|}
    ensures Sound(s', bound)
  {
    hide Linked, Ranked, Reachable, Bounded;
    NewKeeps(s.nodes, s.rank, s.live, content);
    NewBounded(s.rank, bound);
    TheRank(s', s'.nodes, s.rank + [0], s'.live, bound);
  }

  lemma {:induction false} InsertStep(s: Page, e: Call, s': Page, bound: nat)
    requires Sound(s, bound) && e.InsertBefore? && May(s, e) && Leads(s, e, s')
    ensures Sound(s', bound)
  {
    hide Linked, Ranked, Reachable, Bounded, Under, Low, Shifted, Inserted;
    var p, c, ref := e.parent, e.child, e.reference;
    if InsertStatus(s.nodes, s.rank, p, c, ref) == Done && ref != Some(c) {
      LiveRange(s.nodes, s.rank, s.live, p);
      LiveRange(s.nodes, s.rank, s.live, c);
      InsertKeeps(s.nodes, s.rank, s.live, p, c, ref);
      MoveBounded(s.nodes, s.rank, s.live, c, s.rank[p] + 1, bound);
      TheRank(s', s'.nodes, Shifted(s.nodes, s.rank, c, s.rank[p] + 1), s.live, bound);
    } else {
      SameKeeps(s, s', bound);
    }
  }

  lemma {:induction false} RemoveStep(s: Page, e: Call, s': Page, bound: nat)
    requires Sound(s, bound) && e.RemoveChild? && May(s, e) && Leads(s, e, s')
    ensures Sound(s', bound)
  {
    hide Linked, Ranked, Reachable, Bounded, Under, Low, Shifted, Detached;
    if e.parent < |s.nodes| && e.child < |s.nodes| && s.nodes[e.child].parent == Some(e.parent) {
      LiveRange(s.nodes, s.rank, s.live, e.child);
      DetachKeeps(s.nodes, s.rank, s.live, e.child);
      DetachBounded(s.nodes, s.rank, s.live, e.child, bound);
      TheRank(s', s'.nodes, Shifted(s.nodes, s.rank, e.child, 0), s.live, bound);
    } else {
      SameKeeps(s, s', bound);
    }
  }

  lemma {:induction false} TextStep(s: Page, e: Call, s': Page, bound: nat)
    requires Sound(s, bound) && e.SetTextContent? && May(s, e) && Leads(s, e, s')
    ensures Sound(s', bound)
  {
    hide Linked, Ranked, Reachable, Bounded, WithText, NewText;
    if TextStatus(s.nodes, s.rank, e.node, e.text) == Done {
      var r := TextKeeps(s.nodes, s.rank, s.live, e.node, e.text, bound);
      TheRank(s', s'.nodes, r, s'.live, bound);
    } else {
      SameKeeps(s, s', bound);
    }
  }

  /** What an accepted fragment is like. */
  lemma {:induction false} DecidedParts(count: nat, depth: nat, tokens: seq<Token>, fragment: seq<Node>, root: nat,
                                        body: Option<nat>)
    requires depth <= MAX_DEPTH && Decided(count, depth, tokens, Done, fragment, root, body)
    ensures Forward(fragment) && Linked(fragment) && Ranked(fragment, Levels(fragment))
    ensures Bounded(Levels(fragment), MAX_DEPTH + 1)
    ensures body.Some? ==>
      body.value < |fragment| && Low(fragment, Levels(fragment), body.value, MAX_DEPTH - depth)
  {
    hide Linked, Ranked, Bounded, Settled, HtmlMachine.Parse, LastNamed, Walk, TreeOf, Low, Level;
    SettledForest(fragment, FragmentLimit(depth));
    BoundedMore(Levels(fragment), FragmentLimit(depth), MAX_DEPTH + 1);
  }

  /** A parsed fragment that is adopted keeps the page, within what the fragment leaves outside its
      body. */
  lemma {:induction false} AdoptStep(s: Page, n: nat, tokens: seq<Token>, fragment: seq<Node>, root: nat,
                                     body: Option<nat>, s': Page, bound: nat)
    requires Sound(s, bound) && n in s.live && n < |s.nodes| == |s.rank| && s.rank[n] <= MAX_DEPTH
    requires Inner(s, n, tokens, fragment, root, body, Done, s') && Ranked(s'.nodes, s'.rank)
    ensures Forward(fragment) && Ranked(fragment, Levels(fragment))
    ensures Sound(s', NewBound(fragment, body, bound))
    ensures forall x: nat :: Leftover(fragment, body, x) ==>
      |s.nodes| + x < |s'.rank| && s'.rank[|s.nodes| + x] == Level(fragment, x)
  {
    hide Linked, Ranked, Reachable, Bounded, Keeps, Leftover, Level, Levels, Low, WithInner, Brought, Decided;
    DecidedParts(|s.nodes|, s.rank[n], tokens, fragment, root, body);
    var r := InnerKeeps(s.nodes, s.rank, s.live, n, fragment, body, bound);
    TheRank(s', s'.nodes, r, s'.live, NewBound(fragment, body, bound));
    RankUnique(s'.nodes, s'.rank, r);
  }

  /** Where the fragment leaves nothing too deep outside its body, no node comes too deep. */
  lemma {:induction false} MildStep(s: Page, n: nat, rest: seq<Token>, fragment: seq<Node>, root: nat,
                                    body: Option<nat>, bound: nat)
    requires Sound(s, bound) && n < |s.nodes| == |s.rank| && s.rank[n] <= MAX_DEPTH && Safe(s.nodes, n)
    requires Decided(|s.nodes|, s.rank[n], Wrapped(rest), Done, fragment, root, body)
    ensures Forward(fragment) && Ranked(fragment, Levels(fragment)) && NewBound(fragment, body, bound) == bound
  {
    hide Linked, Ranked, Reachable, Bounded, Keeps, Decided, Safe, Low, Levels, Level, Wrapped;
    DecidedParts(|s.nodes|, s.rank[n], Wrapped(rest), fragment, root, body);
    SafeExactly(s.nodes, s.rank, n);
    assert StaysBounded(|s.nodes|, s.rank[n], Wrapped(rest));
    KeepsTo(fragment, body, MAX_DEPTH, bound);
  }

  lemma {:induction false} InnerStep(s: Page, e: Call, s': Page, bound: nat)
    requires Sound(s, bound) && e.SetInnerHtml? && May(s, e) && Leads(s, e, s')
    ensures Sound(s', MAX_DEPTH + 1) && (Mild(s, e) ==> Sound(s', bound))
    ensures s.live <= s'.live
  {
    hide Linked, Ranked, Reachable, Keeps, Leftover, Level, Levels, Low, WithInner, Brought, Decided, Safe, Bounded;
    var n := e.node;
    SoundMore(s, bound);
    if n >= |s.nodes| {
      SameKeeps(s, s', bound);
      SameKeeps(s, s', MAX_DEPTH + 1);
    } else {
      var fragment, root, body, status :| Inner(s, n, Wrapped(e.rest), fragment, root, body, status, s');
      if status == Done {
        AdoptStep(s, n, Wrapped(e.rest), fragment, root, body, s', bound);
        SoundMore(s', NewBound(fragment, body, bound));
        if Mild(s, e) {
          MildStep(s, n, e.rest, fragment, root, body, bound);
        }
      } else {
        SameKeeps(s, s', bound);
        SameKeeps(s, s', MAX_DEPTH + 1);
      }
    }
  }

  lemma {:induction false} SoundMore(s: Page, bound: nat)
    requires Sound(s, bound)
    ensures Sound(s, MAX_DEPTH + 1)
  {
  }

  /** Every call a script may make keeps the page sound, and a mild one its bound; what the script
      holds it goes on holding. */
  lemma {:induction false} CallKeeps(s: Page, e: Call, s': Page, bound: nat)
    requires Sound(s, bound) && May(s, e) && Leads(s, e, s')
    ensures Sound(s', MAX_DEPTH + 1) && (Mild(s, e) ==> Sound(s', bound)) && s.live <= s'.live
  {
    hide Linked, Ranked, Reachable, Bounded, Inserted, Detached, WithText, Sound, Mild, Inner, Safe;
    match e
    case CreateElement(name, attributes) =>
      if |s.nodes| >= SCRIPT_NODE_LIMIT {
        SameKeeps(s, s', bound);
      } else {
        CreateKeeps(s, s', Element(name, attributes), bound);
      }
      SoundMore(s', bound);
    case InsertBefore(_, _, _) =>
      InsertStep(s, e, s', bound);
      SoundMore(s', bound);
    case RemoveChild(_, _) =>
      RemoveStep(s, e, s', bound);
      SoundMore(s', bound);
    case SetTextContent(_, _) =>
      TextStep(s, e, s', bound);
      SoundMore(s', bound);
    case SetInnerHtml(_, _) =>
      InnerStep(s, e, s', bound);
  }

  // ----- Runs -----

  ghost predicate CallAt(states: seq<Page>, calls: seq<Call>, i: nat)
    requires i < |calls| && i + 1 < |states|
  {
    Ranked(states[i].nodes, states[i].rank) && May(states[i], calls[i]) && Leads(states[i], calls[i], states[i + 1])
  }

  /** The pages between the calls of a script, the first before all of them. */
  ghost predicate Run(states: seq<Page>, calls: seq<Call>) {
    |states| == |calls| + 1 && forall i :: 0 <= i < |calls| ==> CallAt(states, calls, i)
  }

  /** None of the first k calls sets markup where something can come too deep. */
  predicate AllMild(states: seq<Page>, calls: seq<Call>, k: nat)
    requires k <= |calls| && k <= |states|
  {
    forall i :: 0 <= i < k ==> Mild(states[i], calls[i])
  }

  /** A script goes on holding what it held, and every page of its run is sound. */
  lemma {:induction false} RunKeeps(states: seq<Page>, calls: seq<Call>, bound: nat, j: nat, k: nat)
    requires Run(states, calls) && Sound(states[0], bound) && j <= k <= |calls|
    ensures Sound(states[k], MAX_DEPTH + 1) && states[j].live <= states[k].live
    ensures AllMild(states, calls, k) ==> Sound(states[k], bound)
    decreases k
  {
    hide Sound, May, Leads, Mild;
    if k == 0 {
      SoundMore(states[0], bound);
    } else {
      var i := k - 1;
      RunKeeps(states, calls, bound, if j < k then j else i, i);
      assert CallAt(states, calls, i);
      CallKeeps(states[i], calls[i], states[k], MAX_DEPTH + 1);
      if AllMild(states, calls, k) {
        CallKeeps(states[i], calls[i], states[k], bound);
      }
    }
  }

  /** The page of parsed markup, all of whose nodes a script may come to hold. */
  ghost predicate Loaded(s: Page, root: nat, tokens: seq<Token>) {
    Parsed(s.nodes, root, MAX_DEPTH, 0, tokens) && Ranked(s.nodes, s.rank) && s.live == IdsBelow(|s.nodes|)
  }

  lemma {:induction false} LoadedSound(s: Page, root: nat, tokens: seq<Token>)
    requires Loaded(s, root, tokens)
    ensures Sound(s, MAX_DEPTH)
  {
    hide Settled, HtmlMachine.Parse, TreeOf, Level, Levels, Linked, Ranked, Reachable, Bounded, IdsBelow;
    ArenaForest(s.nodes);
    TheRank(s, s.nodes, Levels(s.nodes), s.live, MAX_DEPTH);
  }

  /** Whatever a script does to a parsed page, created nodes included: after every call the document
      is an acyclic forest with agreeing links, all the script holds or ever held is live and within
      512 ancestors, and no node has more than 513. It stays at 512 for all nodes as long as markup is
      set only on nodes with a parent, or where there is no room for deeper markup. */
  lemma {:induction false} ScriptKeeps(tokens: seq<Token>, root: nat, states: seq<Page>, calls: seq<Call>, j: nat, k: nat)
    requires Run(states, calls) && Loaded(states[0], root, tokens) && j <= k <= |calls|
    ensures Forest(states[k].nodes, states[k].rank, states[k].live) && Bounded(states[k].rank, MAX_DEPTH + 1)
    ensures states[j].live <= states[k].live
    ensures AllMild(states, calls, k) ==> Bounded(states[k].rank, MAX_DEPTH)
  {
    hide Loaded, Forest, Bounded, AllMild, CallAt;
    LoadedSound(states[0], root, tokens);
    RunKeeps(states, calls, MAX_DEPTH, j, k);
  }

  lemma {:induction false} DeepAdopt(s: Page, n: nat, fragment: seq<Node>, root: nat, body: Option<nat>, status: Status,
                                     s': Page, bound: nat)
    requires Sound(s, bound) && n < |s.nodes| == |s.rank| && n in s.live && s.rank[n] == 0 && Ranked(s'.nodes, s'.rank)
    requires |s.nodes| + MAX_DEPTH + 3 <= SCRIPT_NODE_LIMIT
    requires Inner(s, n, Wrapped(DeepMarkup(MAX_DEPTH + 1)), fragment, root, body, status, s')
    ensures !Bounded(s'.rank, MAX_DEPTH)
  {
    hide Linked, Ranked, Reachable, Level, Levels, Decided, Wrapped, DeepMarkup, Leftover, Sound, Bounded, WithInner, Brought;
    var tokens := Wrapped(DeepMarkup(MAX_DEPTH + 1));
    assert Decided(|s.nodes|, 0, tokens, status, fragment, root, body);
    hide Inner;
    DeepAlways(|s.nodes|, status, fragment, root, body);
    AdoptStep(s, n, tokens, fragment, root, body, s', bound);
    var x: nat := MAX_DEPTH + 1;
    assert Leftover(fragment, body, x);
    Beyond(s'.rank, |s.nodes| + x);
  }

  lemma {:induction false} Beyond(rank: seq<nat>, x: nat)
    requires x < |rank| && rank[x] > MAX_DEPTH
    ensures !Bounded(rank, MAX_DEPTH)
  {
  }

  /** Deep markup for a node without a parent always ends beyond 512. */
  lemma {:induction false} DeepCall(s: Page, n: nat, s': Page, bound: nat)
    requires Sound(s, bound) && n < |s.nodes| && n in s.live && s.nodes[n].parent.None?
    requires |s.nodes| + MAX_DEPTH + 3 <= SCRIPT_NODE_LIMIT
    requires Leads(s, SetInnerHtml(n, DeepMarkup(MAX_DEPTH + 1)), s')
    ensures !Bounded(s'.rank, MAX_DEPTH)
  {
    hide Linked, Ranked, Reachable, Inner, Wrapped, DeepMarkup, Bounded;
    RankZero(s.nodes, s.rank, n);
    LiveIndex(s.nodes, s.rank, s.live);
    var fragment, root, body, status :|
      Inner(s, n, Wrapped(DeepMarkup(MAX_DEPTH + 1)), fragment, root, body, status, s');
    DeepAdopt(s, n, fragment, root, body, status, s', bound);
  }

  /** A new element and deep markup for it are two calls that end beyond 512 on every page with room
      for them. */
  lemma {:induction false} DeepRun(states: seq<Page>, name: Name, attributes: Attributes, bound: nat)
    requires |states| == 3 && Sound(states[0], bound) && |states[0].nodes| + MAX_DEPTH + 4 <= SCRIPT_NODE_LIMIT
    requires Run(states, [CreateElement(name, attributes), SetInnerHtml(|states[0].nodes|, DeepMarkup(MAX_DEPTH + 1))])
    ensures !Bounded(states[2].rank, MAX_DEPTH)
  {
    var n, rest := |states[0].nodes|, DeepMarkup(MAX_DEPTH + 1);
    var calls := [CreateElement(name, attributes), SetInnerHtml(n, rest)];
    hide Sound, Bounded, Inner, DeepMarkup, Ranked;
    assert CallAt(states, calls, 0) && CallAt(states, calls, 1);
    CallKeeps(states[0], calls[0], states[1], bound);
    DeepCall(states[1], n, states[2], MAX_DEPTH + 1);
  }

  // ----- The calls themselves -----

  ghost function PageOf(d: Document): Page
    reads d
  {
    Page(d.nodes, d.rank, d.live)
  }

  /** One call of a script on the document. */
  method Perform(d: Document, e: Call)
    requires d.Valid() && May(PageOf(d), e)
    modifies d
    ensures d.Valid() && Ranked(old(d.nodes), old(d.rank)) && Leads(old(PageOf(d)), e, PageOf(d))
  {
    hide Linked, Reachable, Bounded, Inserted, Detached, WithText, NewText, WithInner, Brought, Decided, Low, Under, Levels,
         Level, Leftover, Wrapped;
    match e {
      case CreateElement(name, attributes) =>
        var status, id := d.CreateElement(name, attributes);
      case InsertBefore(p, c, ref) =>
        var status, changed := d.InsertBefore(p, c, ref);
      case RemoveChild(p, c) =>
        var status := d.RemoveChild(p, c);
      case SetTextContent(n, text) =>
        var status, removed := d.SetTextContent(n, text);
      case SetInnerHtml(n, rest) =>
        ghost var before := PageOf(d);
        var status, removed, fragment, root, body := DomInnerHtml.SetInnerHtml(d, n, Wrapped(rest));
        if n < |before.nodes| {
          assert Inner(before, n, Wrapped(rest), fragment, root, body, status, PageOf(d));
        }
    }
  }

  ghost predicate Begins(start: Page, calls: seq<Call>, states: seq<Page>, k: nat) {
    k <= |calls| && Run(states, calls[..k]) && states[0] == start
  }

  /** Whatever the pages so far, the script holds the nodes its next call names. */
  ghost predicate Obeys(start: Page, calls: seq<Call>) {
    forall states, k: nat :: k < |calls| && Begins(start, calls, states, k) ==> May(states[k], calls[k])
  }

  /** A whole script on the document. */
  method RunScript(d: Document, calls: seq<Call>) returns (ghost states: seq<Page>)
    requires d.Valid() && Obeys(PageOf(d), calls)
    modifies d
    ensures d.Valid() && Run(states, calls) && states[0] == old(PageOf(d)) && states[|calls|] == PageOf(d)
  {
    hide Leads, May;
    states := [PageOf(d)];
    var i := 0;
    while i < |calls|
      invariant i <= |calls| && d.Valid()
      invariant Run(states, calls[..i]) && states[0] == old(PageOf(d)) && states[i] == PageOf(d)
    {
      assert Begins(states[0], calls, states, i);
      Perform(d, calls[i]);
      RunGrows(states, calls, i, PageOf(d));
      states := states + [PageOf(d)];
      i := i + 1;
    }
    assert calls[..i] == calls;
  }

  lemma {:induction false} RunGrows(states: seq<Page>, calls: seq<Call>, i: nat, s: Page)
    requires i < |calls| && Run(states, calls[..i]) && Ranked(states[i].nodes, states[i].rank)
    requires May(states[i], calls[i]) && Leads(states[i], calls[i], s)
    ensures Run(states + [s], calls[..i + 1])
  {
    hide Leads, May, Ranked;
    var longer, more := states + [s], calls[..i + 1];
    forall k | 0 <= k < |more|
      ensures CallAt(longer, more, k)
    {
      if k < i {
        assert CallAt(states, calls[..i], k);
      }
    }
  }
}
