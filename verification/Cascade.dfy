/** The cascade of src/css.c: one pass over the declarations in source order. */
module Cascade {
  import opened Results
  import Selectors

  /** A declaration with its rank: the selector's priority, or 1000 inline, and 10000 more when
      important. */
  datatype Declaration = Declaration(key: string, value: string, rank: int)

  datatype Entry = Entry(value: string, priority: int)

  type Style = map<string, Entry>

  const INLINE: int := 1000
  const IMPORTANT: int := 10000

  /** tai_map_priority. */
  function CurrentPriority(style: Style, key: string): int {
    if key in style then style[key].priority else -1
  }

  function Written(style: Style, d: Declaration): Style {
    if d.rank >= CurrentPriority(style, d.key) then style[d.key := Entry(d.value, d.rank)] else style
  }

  function OnePass(style: Style, ds: seq<Declaration>): Style
    decreases |ds|
  {
    if ds == [] then style else Written(OnePass(style, ds[..|ds| - 1]), ds[|ds| - 1])
  }

  // ----- The reference: sort by rank, the last writer wins -----

  /** d behind everything of its rank and below. */
  function Insert(sorted: seq<Declaration>, d: Declaration): seq<Declaration>
    decreases |sorted|
  {
    if sorted == [] || sorted[|sorted| - 1].rank <= d.rank then sorted + [d]
    else Insert(sorted[..|sorted| - 1], d) + [sorted[|sorted| - 1]]
  }

  function StableSort(ds: seq<Declaration>): seq<Declaration>
    decreases |ds|
  {
    if ds == [] then [] else Insert(StableSort(ds[..|ds| - 1]), ds[|ds| - 1])
  }

  function LastWriter(ds: seq<Declaration>, key: string): Option<Declaration>
    decreases |ds|
  {
    if ds == [] then None
    else if ds[|ds| - 1].key == key then Some(ds[|ds| - 1])
    else LastWriter(ds[..|ds| - 1], key)
  }

  predicate Ascending(ds: seq<Declaration>) {
    forall j, k :: 0 <= j < k < |ds| ==> ds[j].rank <= ds[k].rank
  }

  function OfRank(ds: seq<Declaration>, rank: int): seq<Declaration>
    decreases |ds|
  {
    if ds == [] then []
    else OfRank(ds[..|ds| - 1], rank) + if ds[|ds| - 1].rank == rank then [ds[|ds| - 1]] else []
  }

  lemma {:induction false} OfRankJoin(a: seq<Declaration>, d: Declaration, rank: int)
    ensures OfRank(a + [d], rank) == OfRank(a, rank) + if d.rank == rank then [d] else []
  {
    assert (a + [d])[..|a|] == a;
  }

  lemma {:induction false} InsertSorts(sorted: seq<Declaration>, d: Declaration)
    requires Ascending(sorted)
    ensures Ascending(Insert(sorted, d))
    ensures forall x :: x in Insert(sorted, d) <==> x in sorted || x == d
    decreases |sorted|
  {
    if !(sorted == [] || sorted[|sorted| - 1].rank <= d.rank) {
      var front, last := sorted[..|sorted| - 1], sorted[|sorted| - 1];
      InsertSorts(front, d);
      assert sorted == front + [last];
      var r := Insert(front, d);
      forall k | 0 <= k < |r| ensures r[k].rank <= last.rank {
        assert r[k] in r;
      }
    }
  }

  lemma {:induction false} InsertBefore(sorted: seq<Declaration>, d: Declaration)
    requires sorted != [] && sorted[|sorted| - 1].rank > d.rank && Ascending(sorted)
    ensures var front, last := sorted[..|sorted| - 1], sorted[|sorted| - 1];
      sorted == front + [last] && Ascending(front) && Insert(sorted, d) == Insert(front, d) + [last]
  {
  }

  lemma {:induction false} InsertStable(sorted: seq<Declaration>, d: Declaration, rank: int)
    requires Ascending(sorted)
    ensures OfRank(Insert(sorted, d), rank) == OfRank(sorted, rank) + if d.rank == rank then [d] else []
    decreases |sorted|
  {
    if sorted == [] || sorted[|sorted| - 1].rank <= d.rank {
      OfRankJoin(sorted, d, rank);
    } else {
      hide Insert, OfRank, Ascending;
      var front, last := sorted[..|sorted| - 1], sorted[|sorted| - 1];
      InsertBefore(sorted, d);
      InsertStable(front, d, rank);
      OfRankJoin(Insert(front, d), last, rank);
      OfRankJoin(front, last, rank);
      RankApart(OfRank(front, rank), d, last, rank);
    }
  }

  lemma {:induction false} RankApart(a: seq<Declaration>, d: Declaration, last: Declaration, rank: int)
    requires d.rank < last.rank
    ensures var x, y := if d.rank == rank then [d] else [], if last.rank == rank then [last] else [];
      a + x + y == a + y + x
  {
  }

  /** The reference really sorts by rank and keeps the source order within each rank. */
  lemma {:induction false} SortSpec(ds: seq<Declaration>, rank: int)
    ensures Ascending(StableSort(ds)) && OfRank(StableSort(ds), rank) == OfRank(ds, rank)
    decreases |ds|
  {
    if ds != [] {
      var front, last := ds[..|ds| - 1], ds[|ds| - 1];
      SortSpec(front, rank);
      InsertSorts(StableSort(front), last);
      InsertStable(StableSort(front), last, rank);
      assert ds == front + [last];
      OfRankJoin(front, last, rank);
    }
  }

  lemma {:induction false} LastIn(ds: seq<Declaration>, key: string)
    ensures LastWriter(ds, key).Some? ==> LastWriter(ds, key).value in ds && LastWriter(ds, key).value.key == key
    decreases |ds|
  {
    if ds != [] {
      LastIn(ds[..|ds| - 1], key);
    }
  }

  lemma {:induction false} LastOfInsert(sorted: seq<Declaration>, d: Declaration, key: string)
    requires Ascending(sorted)
    ensures var last := LastWriter(sorted, key);
      LastWriter(Insert(sorted, d), key) ==
        if d.key == key && (last.None? || last.value.rank <= d.rank) then Some(d) else last
    decreases |sorted|
  {
    LastIn(sorted, key);
    if sorted == [] || sorted[|sorted| - 1].rank <= d.rank {
      assert (sorted + [d])[..|sorted|] == sorted;
    } else {
      var front, last := sorted[..|sorted| - 1], sorted[|sorted| - 1];
      LastOfInsert(front, d, key);
      var r := Insert(front, d);
      assert (r + [last])[..|r|] == r;
    }
  }

  function Winner(ds: seq<Declaration>, key: string): Option<Entry> {
    match LastWriter(StableSort(ds), key)
    case None => None
    case Some(d) => Some(Entry(d.value, d.rank))
  }

  /** One pass with `rank >= current` leaves for every property what stably sorting by rank and
      letting the last writer win would leave. */
  lemma {:induction false} OnePassSorts(ds: seq<Declaration>, key: string)
    requires forall k :: 0 <= k < |ds| ==> ds[k].rank >= -1
    ensures var style := OnePass(map[], ds);
      (if key in style then Some(style[key]) else None) == Winner(ds, key)
    decreases |ds|
  {
    if ds != [] {
      var front, last := ds[..|ds| - 1], ds[|ds| - 1];
      OnePassSorts(front, key);
      SortSpec(front, 0);
      LastOfInsert(StableSort(front), last, key);
    }
  }

  lemma {:induction false} OnePassJoin(style: Style, a: seq<Declaration>, b: seq<Declaration>)
    ensures OnePass(style, a + b) == OnePass(OnePass(style, a), b)
    decreases |b|
  {
    if b == [] {
      assert a + b == a;
    } else {
      assert (a + b)[..|a + b| - 1] == a + b[..|b| - 1];
      OnePassJoin(style, a, b[..|b| - 1]);
    }
  }

  lemma {:induction false} OnePassNone(style: Style)
    ensures OnePass(style, []) == style
  {
  }

  // ----- Styling a node -----

  datatype Property = Property(key: string, value: string, important: bool)

  datatype Rule = Rule(selector: Selectors.Selector, body: seq<Property>)

  function Ranked(body: seq<Property>, priority: int): (r: seq<Declaration>)
    ensures |r| == |body|
    ensures forall k :: 0 <= k < |body| ==>
      r[k] == Declaration(body[k].key, body[k].value, priority + if body[k].important then IMPORTANT else 0)
  {
    seq(|body|, k requires 0 <= k < |body| =>
      Declaration(body[k].key, body[k].value, priority + if body[k].important then IMPORTANT else 0))
  }

  /** The document and the node to style. */
  datatype Place = Place(nodes: seq<Selectors.StyleNode>, depth: seq<nat>, limit: nat, n: nat)

  ghost predicate Known(at: Place) {
    Selectors.Within(at.nodes, at.depth, at.limit, at.n)
  }

  ghost predicate Applies(at: Place, rule: Rule)
    requires Known(at)
  {
    Selectors.Matches(at.nodes, at.depth, at.limit, rule.selector, at.n)
  }

  /** The declarations of the rules that match, in source order, with the rank of their selector. */
  ghost function Matching(at: Place, rules: seq<Rule>): seq<Declaration>
    requires Known(at)
    decreases |rules|
  {
    if rules == [] then []
    else
      var last := rules[|rules| - 1];
      Matching(at, rules[..|rules| - 1]) +
      if Applies(at, last) then Ranked(last.body, Selectors.Priority(last.selector)) else []
  }

  /** Defaults and inherited values at rank 0, and for an element the matching rules, then the style
      attribute. */
  ghost function All(at: Place, initial: seq<Property>, rules: seq<Rule>, inline: seq<Property>): seq<Declaration>
    requires Known(at)
  {
    Initial(initial) + if at.nodes[at.n].element then Matching(at, rules) + Ranked(inline, INLINE) else []
  }

  function Initial(initial: seq<Property>): (r: seq<Declaration>)
    ensures |r| == |initial|
    ensures forall k :: 0 <= k < |initial| ==> r[k] == Declaration(initial[k].key, initial[k].value, 0)
  {
    seq(|initial|, k requires 0 <= k < |initial| => Declaration(initial[k].key, initial[k].value, 0))
  }

  lemma {:induction false} MatchingRanks(at: Place, rules: seq<Rule>)
    requires Known(at)
    ensures forall k :: 0 <= k < |Matching(at, rules)| ==> Matching(at, rules)[k].rank >= 0
    decreases |rules|
  {
    hide Known, Applies;
    if rules != [] {
      MatchingRanks(at, rules[..|rules| - 1]);
    }
  }

  class StyledNode {
    var style: Style

    /** apply: one body, in its own order. */
    method Apply(body: seq<Property>, priority: int)
      modifies this
      ensures style == OnePass(old(style), Ranked(body, priority))
    {
      ghost var ds := Ranked(body, priority);
      var i := 0;
      while i < |body|
        invariant i <= |body| && style == OnePass(old(style), ds[..i])
      {
        var rank := priority + if body[i].important then IMPORTANT else 0;
        assert ds[..i + 1][..i] == ds[..i];
        if rank >= (if body[i].key in style then style[body[i].key].priority else -1) {
          style := style[body[i].key := Entry(body[i].value, rank)];
        }
        i := i + 1;
      }
      assert ds[..i] == ds;
    }

    /** The rule loop. */
    method ApplyRules(nodes: seq<Selectors.StyleNode>, ghost at: Place, rules: seq<Rule>, n: nat)
      requires Known(at) && nodes == at.nodes && n == at.n
      modifies this
      ensures style == OnePass(old(style), Matching(at, rules))
    {
      hide OnePass;
      var i := 0;
      OnePassNone(style);
      while i < |rules|
        invariant i <= |rules| && style == OnePass(old(style), Matching(at, rules[..i]))
      {
        assert rules[..i + 1][..i] == rules[..i];
        var rule := rules[i];
        var matches := Selectors.MatchesSelector(nodes, at.depth, at.limit, rule.selector, n);
        if matches {
          OnePassJoin(old(style), Matching(at, rules[..i]), Ranked(rule.body, Selectors.Priority(rule.selector)));
          Apply(rule.body, Selectors.Priority(rule.selector));
        } else {
          assert Matching(at, rules[..i + 1]) == Matching(at, rules[..i]);
        }
        i := i + 1;
      }
      assert rules[..i] == rules;
    }

    /** Defaults, rules and the style attribute, one after the other. */
    method Collect(nodes: seq<Selectors.StyleNode>, n: nat, ghost at: Place,
                   initial: seq<Property>, rules: seq<Rule>, inline: seq<Property>)
      requires Known(at) && nodes == at.nodes && n == at.n
      modifies this
      ensures style == OnePass(map[], All(at, initial, rules, inline))
    {
      hide OnePass, Matching, Ranked, Initial;
      style := map[];
      SetInitial(initial);
      if nodes[n].element {
        ApplyRules(nodes, at, rules, n);
        Apply(inline, INLINE);
        OnePassJoin(map[], Initial(initial), Matching(at, rules));
        OnePassJoin(map[], Initial(initial) + Matching(at, rules), Ranked(inline, INLINE));
        assert Initial(initial) + Matching(at, rules) + Ranked(inline, INLINE) ==
          Initial(initial) + (Matching(at, rules) + Ranked(inline, INLINE));
      } else {
        assert Initial(initial) + [] == Initial(initial);
      }
    }

    /** tai_css_style between the defaults and the resolution of inherit and relative sizes: for
        every property, what stably sorting all declarations by rank would leave. */
    method Cascade(nodes: seq<Selectors.StyleNode>, n: nat, ghost at: Place,
                   initial: seq<Property>, rules: seq<Rule>, inline: seq<Property>)
      requires Known(at) && nodes == at.nodes && n == at.n
      modifies this
      ensures forall key :: (if key in style then Some(style[key]) else None) == Winner(All(at, initial, rules, inline), key)
    {
      hide OnePass, Winner, All;
      Collect(nodes, n, at, initial, rules, inline);
      AllWinners(at, initial, rules, inline);
    }

    /** The defaults go in without a look at what is there. */
    method SetInitial(initial: seq<Property>)
      requires style == map[]
      modifies this
      ensures style == OnePass(map[], Initial(initial))
    {
      ghost var ds := Initial(initial);
      var i := 0;
      while i < |initial|
        invariant i <= |initial| && style == OnePass(map[], ds[..i])
        invariant forall key :: key in style ==> style[key].priority == 0
      {
        assert ds[..i + 1][..i] == ds[..i];
        style := style[initial[i].key := Entry(initial[i].value, 0)];
        i := i + 1;
      }
      assert ds[..i] == ds;
    }
  }

  lemma {:induction false} AllWinners(at: Place, initial: seq<Property>, rules: seq<Rule>, inline: seq<Property>)
    requires Known(at)
    ensures var ds := All(at, initial, rules, inline);
      forall key :: (if key in OnePass(map[], ds) then Some(OnePass(map[], ds)[key]) else None) == Winner(ds, key)
  {
    MatchingRanks(at, rules);
    var ds := All(at, initial, rules, inline);
    assert forall k :: 0 <= k < |ds| ==> ds[k].rank >= -1;
    hide OnePass, Winner, Matching, Known;
    forall key
      ensures (if key in OnePass(map[], ds) then Some(OnePass(map[], ds)[key]) else None) == Winner(ds, key)
    {
      OnePassSorts(ds, key);
    }
  }
}
