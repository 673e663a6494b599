/** What a selector weighs and which declaration wins, counted and compared one by one. */
module CascadeMeaning {
  import opened Results
  import opened Selectors
  import C = Cascade

  // ----- Weights -----

  /** How many simple selectors of s are of a kind; those inside :has count like the others. */
  function Count(s: Selector, kind: Selector -> bool): nat
    decreases s, 1
  {
    match s
    case Sequence(parts) => CountAll(parts, kind)
    case Descendant(parts) => CountAll(parts, kind)
    case Has(inner) => (if kind(s) then 1 else 0) + Count(inner, kind)
    case _ => if kind(s) then 1 else 0
  }

  function CountAll(parts: seq<Selector>, kind: Selector -> bool): nat
    decreases parts, 0
  {
    if parts == [] then 0 else Count(parts[0], kind) + CountAll(parts[1..], kind)
  }

  predicate Hundreds(s: Selector) {
    s.Id?
  }

  predicate Tens(s: Selector) {
    s.Class? || s.Visited? || s.Has?
  }

  predicate Ones(s: Selector) {
    s.Tag?
  }

  /** A hundred for every id, ten for every class, :visited and :has, one for every tag. */
  function Weight(s: Selector): nat {
    100 * Count(s, Hundreds) + 10 * Count(s, Tens) + Count(s, Ones)
  }

  lemma {:induction false} PriorityCounts(s: Selector)
    ensures Priority(s) == Weight(s)
    decreases s, 1
  {
    match s
    case Has(inner) => PriorityCounts(inner);
    case Sequence(parts) => PrioritiesCount(parts);
    case Descendant(parts) => PrioritiesCount(parts);
    case _ =>
  }

  lemma {:induction false} PrioritiesCount(parts: seq<Selector>)
    ensures Priorities(parts) == 100 * CountAll(parts, Hundreds) + 10 * CountAll(parts, Tens) + CountAll(parts, Ones)
    decreases parts, 0
  {
    if parts != [] {
      PriorityCounts(parts[0]);
      PrioritiesCount(parts[1..]);
    }
  }

  // ----- Matching -----

  /** What every kind of selector asks of a node. */
  lemma {:induction false} MatchesExactly(nodes: seq<StyleNode>, depth: seq<nat>, limit: nat, s: Selector, n: nat)
    requires Within(nodes, depth, limit, n)
    requires s.Class? ==> s.name != ""
    ensures Matches(nodes, depth, limit, s, n) <==>
      match s
      case Tag(name) => nodes[n].element && nodes[n].tag == name
      case Id(name) => nodes[n].element && nodes[n].id == name
      case Class(name) => nodes[n].element && Somewhere(nodes[n].class_, 0, name)
      case Visited => nodes[n].element && nodes[n].tag == "a" && nodes[n].visited
      case Has(inner) => nodes[n].element && MatchInside(nodes, depth, limit, inner, n)
      case Sequence(parts) => forall i :: 0 <= i < |parts| ==> Matches(nodes, depth, limit, parts[i], n)
      case Descendant(parts) =>
        && parts != [] && Matches(nodes, depth, limit, parts[|parts| - 1], n)
        && HasChain(nodes, depth, limit, parts, |parts| - 1, Path(nodes, depth, limit, nodes[n].parent))
  {
    hide Document, HasWord, MatchInside, HasChain, HasBelow, Climb, Path;
    match s
    case Class(name) => WordExactly(nodes[n].class_, name);
    case Has(inner) => HasExactly(nodes, depth, limit, inner, n);
    case Descendant(parts) =>
      if parts != [] {
        DescendantExactly(nodes, depth, limit, parts, n);
      }
    case _ =>
  }

  // ----- The winner -----

  /** Where a declaration stands. */
  datatype Origin = Default | ByRule(selector: Selector) | ByAttribute

  datatype Given = Given(property: C.Property, origin: Origin)

  /** What the cascade compares: 10000 for important, 1000 for the style attribute, the weight of the
      selector for a rule.  A default weighs nothing, important or not. */
  function Strength(g: Given): int {
    match g.origin
    case Default => 0
    case ByRule(selector) => Weight(selector) + if g.property.important then 10000 else 0
    case ByAttribute => 1000 + if g.property.important then 10000 else 0
  }

  function From(body: seq<C.Property>, origin: Origin): (r: seq<Given>)
    ensures |r| == |body|
  {
    seq(|body|, i requires 0 <= i < |body| => Given(body[i], origin))
  }

  ghost function RulesGiven(at: C.Place, rules: seq<C.Rule>): seq<Given>
    requires C.Known(at)
    decreases |rules|
  {
    if rules == [] then []
    else
      var last := rules[|rules| - 1];
      RulesGiven(at, rules[..|rules| - 1]) +
      if Matches(at.nodes, at.depth, at.limit, last.selector, at.n) then From(last.body, ByRule(last.selector)) else []
  }

  /** All declarations for a node, in their order. */
  ghost function AllGiven(at: C.Place, initial: seq<C.Property>, rules: seq<C.Rule>,
                          inline: seq<C.Property>): seq<Given>
    requires C.Known(at)
  {
    From(initial, Default) +
    if at.nodes[at.n].element then RulesGiven(at, rules) + From(inline, ByAttribute) else []
  }

  /** The declarations of the cascade with their ranks. */
  predicate Same(ds: seq<C.Declaration>, given: seq<Given>) {
    |ds| == |given| &&
    forall i :: 0 <= i < |ds| ==>
      ds[i] == C.Declaration(given[i].property.key, given[i].property.value, Strength(given[i]))
  }

  lemma {:induction false} SameJoin(a: seq<C.Declaration>, b: seq<C.Declaration>, x: seq<Given>, y: seq<Given>)
    requires Same(a, x) && Same(b, y)
    ensures Same(a + b, x + y)
  {
    hide Strength;
  }

  lemma {:induction false} RuleSame(body: seq<C.Property>, selector: Selector)
    ensures Same(C.Ranked(body, Priority(selector)), From(body, ByRule(selector)))
  {
    PriorityCounts(selector);
    hide Weight, Priority;
  }

  lemma {:induction false} RulesSame(at: C.Place, rules: seq<C.Rule>)
    requires C.Known(at)
    ensures Same(C.Matching(at, rules), RulesGiven(at, rules))
    decreases |rules|
  {
    hide C.Known, Matches, Strength, Same, Priority;
    if rules == [] {
      NoneSame();
    } else {
      var front, last := rules[..|rules| - 1], rules[|rules| - 1];
      RulesSame(at, front);
      if C.Applies(at, last) {
        RuleSame(last.body, last.selector);
        SameJoin(C.Matching(at, front), C.Ranked(last.body, Priority(last.selector)),
                 RulesGiven(at, front), From(last.body, ByRule(last.selector)));
      } else {
        NoneSame();
        SameJoin(C.Matching(at, front), [], RulesGiven(at, front), []);
      }
    }
  }

  lemma {:induction false} NoneSame()
    ensures Same([], [])
  {
  }

  lemma {:induction false} EndsSame(initial: seq<C.Property>, inline: seq<C.Property>)
    ensures Same(C.Initial(initial), From(initial, Default)) && Same(C.Ranked(inline, C.INLINE), From(inline, ByAttribute))
  {
  }

  lemma {:induction false} AllSame(at: C.Place, initial: seq<C.Property>, rules: seq<C.Rule>, inline: seq<C.Property>)
    requires C.Known(at)
    ensures Same(C.All(at, initial, rules, inline), AllGiven(at, initial, rules, inline))
  {
    hide C.Known, Same, C.Matching, RulesGiven;
    EndsSame(initial, inline);
    RulesSame(at, rules);
    NoneSame();
    SameJoin(C.Matching(at, rules), C.Ranked(inline, C.INLINE), RulesGiven(at, rules), From(inline, ByAttribute));
    SameJoin(C.Initial(initial), C.Matching(at, rules) + C.Ranked(inline, C.INLINE),
             From(initial, Default), RulesGiven(at, rules) + From(inline, ByAttribute));
    SameJoin(C.Initial(initial), [], From(initial, Default), []);
  }

  /** No declaration of that key outranks the k-th, and no later one equals it. */
  predicate Best(ds: seq<C.Declaration>, key: string, k: nat) {
    k < |ds| && ds[k].key == key &&
    forall j :: 0 <= j < |ds| && ds[j].key == key ==> ds[j].rank <= ds[k].rank && (j > k ==> ds[j].rank < ds[k].rank)
  }

  /** A declaration more wins its key unless a stronger one has it. */
  lemma {:induction false} WinnerNext(ds: seq<C.Declaration>, key: string)
    requires ds != []
    ensures var w, last := C.Winner(ds[..|ds| - 1], key), ds[|ds| - 1];
      C.Winner(ds, key) ==
        if last.key == key && (w.None? || w.value.priority <= last.rank) then Some(C.Entry(last.value, last.rank)) else w
  {
    var front, last := ds[..|ds| - 1], ds[|ds| - 1];
    C.SortSpec(front, 0);
    C.LastOfInsert(C.StableSort(front), last, key);
    assert C.StableSort(ds) == C.Insert(C.StableSort(front), last);
    hide C.StableSort, C.Insert, C.LastWriter, C.Ascending;
  }

  lemma {:induction false} BestStays(ds: seq<C.Declaration>, key: string, k: nat)
    requires ds != [] && Best(ds[..|ds| - 1], key, k)
    ensures var last := ds[|ds| - 1];
      if last.key == key && ds[k].rank <= last.rank then Best(ds, key, |ds| - 1) else Best(ds, key, k)
  {
    var front := ds[..|ds| - 1];
    assert forall j :: 0 <= j < |front| ==> front[j] == ds[j];
  }

  lemma {:induction false} WinnerBest(ds: seq<C.Declaration>, key: string) returns (k: nat)
    ensures match C.Winner(ds, key)
      case None => forall j :: 0 <= j < |ds| ==> ds[j].key != key
      case Some(e) => Best(ds, key, k) && e == C.Entry(ds[k].value, ds[k].rank)
    decreases |ds|
  {
    if ds == [] {
      k := 0;
    } else {
      var front, last := ds[..|ds| - 1], ds[|ds| - 1];
      WinnerNext(ds, key);
      hide C.Winner;
      k := WinnerBest(front, key);
      if C.Winner(front, key).Some? {
        BestStays(ds, key, k);
        if last.key == key && ds[k].rank <= last.rank {
          k := |front|;
        }
      } else {
        k := |front|;
        assert forall j :: 0 <= j < |front| ==> front[j] == ds[j];
      }
    }
  }

  /** The value of a property after the cascade: none if no default, matching rule or style attribute
      gives one, otherwise that of the strongest declaration, the last among equals. */
  lemma {:induction false} StrongestWins(at: C.Place, initial: seq<C.Property>, rules: seq<C.Rule>,
                                         inline: seq<C.Property>, key: string)
      returns (k: nat)
    requires C.Known(at)
    ensures var given := AllGiven(at, initial, rules, inline);
      match C.Winner(C.All(at, initial, rules, inline), key)
      case None => forall j :: 0 <= j < |given| ==> given[j].property.key != key
      case Some(e) =>
        && k < |given| && given[k].property.key == key && e.value == given[k].property.value
        && e.priority == Strength(given[k])
        && forall j :: 0 <= j < |given| && given[j].property.key == key ==>
             Strength(given[j]) <= Strength(given[k]) && (j > k ==> Strength(given[j]) < Strength(given[k]))
  {
    AllSame(at, initial, rules, inline);
    hide C.Known, C.All, AllGiven, Strength, C.Winner;
    k := WinnerBest(C.All(at, initial, rules, inline), key);
  }
}
