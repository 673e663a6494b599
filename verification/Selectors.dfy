/** Selector matching of src/css.c: greedy upward matching of descendant parts, and :has. */
module Selectors {
  import opened Results

  datatype Selector =
    | Tag(name: string)
    | Class(name: string)
    | Id(name: string)
    | Visited
    | Has(inner: Selector)
    | Sequence(parts: seq<Selector>)
    | Descendant(parts: seq<Selector>)

  /** The rank a selector gives to the declarations of its rule. */
  function Priority(s: Selector): nat
    decreases s, 1
  {
    match s
    case Tag(_) => 1
    case Class(_) => 10
    case Id(_) => 100
    case Visited => 10
    case Has(inner) => 10 + Priority(inner)
    case Sequence(parts) => Priorities(parts)
    case Descendant(parts) => Priorities(parts)
  }

  function Priorities(parts: seq<Selector>): nat
    decreases parts, 0
  {
    if parts == [] then 0 else Priority(parts[0]) + Priorities(parts[1..])
  }

  datatype StyleNode = StyleNode(element: bool, tag: string, id: string, class_: string, visited: bool,
                       parent: Option<nat>, children: seq<nat>)

  /** A document with its depths: parent and child links agree, and depths are bounded. */
  ghost predicate Document(nodes: seq<StyleNode>, depth: seq<nat>, limit: nat) {
    && |depth| == |nodes|
    && (forall x :: 0 <= x < |nodes| ==> depth[x] <= limit)
    && (forall x, p :: 0 <= x < |nodes| && nodes[x].parent == Some(p) ==>
          p < |nodes| && depth[x] == depth[p] + 1 && x in nodes[p].children)
    && (forall x, c :: 0 <= x < |nodes| && c in nodes[x].children ==> c < |nodes| && nodes[c].parent == Some(x))
  }

  /** White space between class names. */
  predicate Space(c: char) {
    9 as char <= c <= 13 as char || 28 as char <= c <= 32 as char || c == '\U{85}' || c == '\U{A0}' ||
    c == '\U{1680}' || '\U{2000}' <= c <= '\U{200A}' || c == '\U{2028}' || c == '\U{2029}' ||
    c == '\U{202F}' || c == '\U{205F}' || c == '\U{3000}'
  }

  /** The end of the run of space, or of other characters, that starts at i. */
  function Run(text: string, i: nat, space: bool): (e: nat)
    requires i <= |text|
    ensures i <= e <= |text| && (forall k :: i <= k < e ==> Space(text[k]) == space)
    ensures e < |text| ==> Space(text[e]) != space
    decreases |text| - i
  {
    if i == |text| || Space(text[i]) != space then i else Run(text, i + 1, space)
  }

  /** name is one of the words of text from i on. */
  predicate HasWord(text: string, i: nat, name: string)
    requires i <= |text|
    decreases |text| - i
  {
    i < |text| &&
    var start := Run(text, i, true);
    var end := Run(text, start, false);
    text[start..end] == name || (end > i && HasWord(text, end, name))
  }

  /** Is name between spaces, or the ends, at i? */
  predicate WordAt(text: string, name: string, i: nat) {
    && i + |name| <= |text| && text[i..i + |name|] == name
    && (forall k :: 0 <= k < |name| ==> !Space(name[k]))
    && (i > 0 ==> Space(text[i - 1]))
    && (i + |name| < |text| ==> Space(text[i + |name|]))
  }

  ghost predicate Within(nodes: seq<StyleNode>, depth: seq<nat>, limit: nat, n: nat) {
    Document(nodes, depth, limit) && n < |nodes|
  }

  // ----- Matching -----

  ghost predicate Matches(nodes: seq<StyleNode>, depth: seq<nat>, limit: nat, s: Selector, n: nat)
    requires Within(nodes, depth, limit, n)
    decreases s, 2, 0
  {
    match s
    case Sequence(parts) => forall i :: 0 <= i < |parts| ==> Matches(nodes, depth, limit, parts[i], n)
    case Descendant(parts) =>
      parts != [] && Matches(nodes, depth, limit, parts[|parts| - 1], n) &&
      Climb(nodes, depth, limit, s, |parts| - 1, nodes[n].parent) == 0
    case Tag(name) => nodes[n].element && nodes[n].tag == name
    case Visited => nodes[n].element && nodes[n].visited && nodes[n].tag == "a"
    case Has(inner) => nodes[n].element && HasBelow(nodes, depth, limit, inner, n)
    case Id(name) => nodes[n].element && nodes[n].id == name
    case Class(name) => nodes[n].element && HasWord(nodes[n].class_, 0, name)
  }

  /** How many of the first i parts are still unmatched when every ancestor from m up has been
      offered the next part. */
  ghost function Climb(nodes: seq<StyleNode>, depth: seq<nat>, limit: nat, s: Selector, i: nat, m: Option<nat>): nat
    requires Document(nodes, depth, limit) && (m.Some? ==> m.value < |nodes|)
    requires s.Descendant? && i < |s.parts|
    decreases s, 1, if m.Some? then depth[m.value] + 1 else 0
  {
    if i == 0 || m.None? then i
    else
      var i' := if Matches(nodes, depth, limit, s.parts[i - 1], m.value) then i - 1 else i;
      Climb(nodes, depth, limit, s, i', nodes[m.value].parent)
  }

  ghost predicate HasBelow(nodes: seq<StyleNode>, depth: seq<nat>, limit: nat, s: Selector, n: nat)
    requires Within(nodes, depth, limit, n)
    decreases s, 3, limit - depth[n]
  {
    exists c :: c in nodes[n].children && c < |nodes| &&
      (Matches(nodes, depth, limit, s, c) || HasBelow(nodes, depth, limit, s, c))
  }

  // ----- Ancestors -----

  /** The ancestors from m up, nearest first. */
  ghost function Path(nodes: seq<StyleNode>, depth: seq<nat>, limit: nat, m: Option<nat>): seq<nat>
    requires Document(nodes, depth, limit) && (m.Some? ==> m.value < |nodes|)
    ensures forall k :: 0 <= k < |Path(nodes, depth, limit, m)| ==> Path(nodes, depth, limit, m)[k] < |nodes|
    decreases if m.Some? then depth[m.value] + 1 else 0
  {
    if m.None? then [] else [m.value] + Path(nodes, depth, limit, nodes[m.value].parent)
  }

  predicate Ascending(pick: seq<nat>, count: nat) {
    && (forall j :: 0 <= j < |pick| ==> pick[j] < count)
    && (forall j, k :: 0 <= j < k < |pick| ==> pick[j] < pick[k])
  }

  /** pick names, from the nearest up, ancestors that match the first i parts from the last to the
      first. */
  ghost predicate Chain(nodes: seq<StyleNode>, depth: seq<nat>, limit: nat, parts: seq<Selector>, i: nat, path: seq<nat>, pick: seq<nat>)
    requires Document(nodes, depth, limit) && i <= |parts|
    requires forall k :: 0 <= k < |path| ==> path[k] < |nodes|
  {
    && |pick| == i && Ascending(pick, |path|)
    && forall j :: 0 <= j < i ==> Matches(nodes, depth, limit, parts[i - 1 - j], path[pick[j]])
  }

  lemma {:induction false} ShiftChain(nodes: seq<StyleNode>, depth: seq<nat>, limit: nat, parts: seq<Selector>, i: nat, path: seq<nat>, pick: seq<nat>)
      returns (rest: seq<nat>)
    requires Document(nodes, depth, limit) && i <= |parts| && path != []
    requires forall k :: 0 <= k < |path| ==> path[k] < |nodes|
    requires Chain(nodes, depth, limit, parts, i, path, pick) && (pick != [] ==> pick[0] > 0)
    ensures Chain(nodes, depth, limit, parts, i, path[1..], rest)
  {
    hide Matches, Document;
    rest := seq(|pick|, j requires 0 <= j < |pick| => Below(pick, |path|, j));
  }

  function Below(pick: seq<nat>, count: nat, j: nat): (r: nat)
    requires j < |pick| && Ascending(pick, count) && (pick != [] ==> pick[0] > 0)
    ensures r == pick[j] - 1
  {
    pick[j] - 1
  }

  /** Dropping the nearest of the chain leaves a chain for one part fewer, strictly above it. */
  lemma {:induction false} TailChain(nodes: seq<StyleNode>, depth: seq<nat>, limit: nat, parts: seq<Selector>, i: nat, path: seq<nat>, pick: seq<nat>)
    requires Document(nodes, depth, limit) && 0 < i <= |parts|
    requires forall k :: 0 <= k < |path| ==> path[k] < |nodes|
    requires Chain(nodes, depth, limit, parts, i, path, pick)
    ensures Chain(nodes, depth, limit, parts, i - 1, path, pick[1..])
    ensures pick[1..] != [] ==> pick[1..][0] > 0
  {
    hide Matches, Document;
    assert i > 1 ==> pick[0] < pick[1] == pick[1..][0];
    forall j | 0 <= j < i - 1
      ensures parts[i - 1 - 1 - j] == parts[i - 1 - (j + 1)] && pick[1..][j] == pick[j + 1]
    {
    }
  }

  lemma {:induction false} GrowChain(nodes: seq<StyleNode>, depth: seq<nat>, limit: nat, parts: seq<Selector>, i: nat, path: seq<nat>, rest: seq<nat>, here: bool)
      returns (pick: seq<nat>)
    requires Document(nodes, depth, limit) && i <= |parts| && path != [] && (here ==> i > 0)
    requires forall k :: 0 <= k < |path| ==> path[k] < |nodes|
    requires here ==> Matches(nodes, depth, limit, parts[i - 1], path[0])
    requires Chain(nodes, depth, limit, parts, if here then i - 1 else i, path[1..], rest)
    ensures Chain(nodes, depth, limit, parts, i, path, pick)
  {
    hide Matches, Document;
    var up := seq(|rest|, j requires 0 <= j < |rest| => rest[j] + 1);
    pick := if here then [0] + up else up;
    forall j | 0 <= j < i
      ensures Matches(nodes, depth, limit, parts[i - 1 - j], path[pick[j]])
    {
      if here {
        if j > 0 {
          assert pick[j] == rest[j - 1] + 1;
          assert Matches(nodes, depth, limit, parts[i - 1 - 1 - (j - 1)], path[1..][rest[j - 1]]);
        }
      } else {
        assert Matches(nodes, depth, limit, parts[i - 1 - j], path[1..][rest[j]]);
      }
    }
  }

  ghost predicate HasChain(nodes: seq<StyleNode>, depth: seq<nat>, limit: nat, parts: seq<Selector>, i: nat, path: seq<nat>)
    requires Document(nodes, depth, limit) && i <= |parts|
    requires forall k :: 0 <= k < |path| ==> path[k] < |nodes|
  {
    exists pick :: Chain(nodes, depth, limit, parts, i, path, pick)
  }

  lemma {:induction false} AscendingFits(pick: seq<nat>, count: nat)
    requires Ascending(pick, count)
    ensures |pick| <= count
    decreases |pick|
  {
    if pick != [] {
      AscendingFits(pick[..|pick| - 1], pick[|pick| - 1]);
    }
  }

  lemma {:induction false} NoPath(nodes: seq<StyleNode>, depth: seq<nat>, limit: nat, parts: seq<Selector>, i: nat)
    requires Document(nodes, depth, limit) && i <= |parts|
    ensures HasChain(nodes, depth, limit, parts, i, []) <==> i == 0
  {
    hide Matches, Document;
    if i == 0 {
      assert Chain(nodes, depth, limit, parts, i, [], []);
    }
    forall pick | Chain(nodes, depth, limit, parts, i, [], pick)
      ensures i == 0
    {
      AscendingFits(pick, 0);
    }
  }

  /** One ancestor more: it takes part exactly when it matches the next part. */
  lemma {:induction false} NextAncestor(nodes: seq<StyleNode>, depth: seq<nat>, limit: nat, parts: seq<Selector>, i: nat, path: seq<nat>, here: bool)
    requires Document(nodes, depth, limit) && 0 < i <= |parts| && path != []
    requires forall k :: 0 <= k < |path| ==> path[k] < |nodes|
    requires here <==> Matches(nodes, depth, limit, parts[i - 1], path[0])
    ensures HasChain(nodes, depth, limit, parts, i, path) <==>
      HasChain(nodes, depth, limit, parts, if here then i - 1 else i, path[1..])
  {
    hide Matches, Document;
    var i' := if here then i - 1 else i;
    if HasChain(nodes, depth, limit, parts, i', path[1..]) {
      var rest :| Chain(nodes, depth, limit, parts, i', path[1..], rest);
      var pick := GrowChain(nodes, depth, limit, parts, i, path, rest, here);
    }
    if HasChain(nodes, depth, limit, parts, i, path) {
      var pick :| Chain(nodes, depth, limit, parts, i, path, pick);
      if here {
        TailChain(nodes, depth, limit, parts, i, path, pick);
        var rest := ShiftChain(nodes, depth, limit, parts, i', path, pick[1..]);
      } else {
        assert Matches(nodes, depth, limit, parts[i - 1 - 0], path[pick[0]]);
        var rest := ShiftChain(nodes, depth, limit, parts, i', path, pick);
      }
    }
  }

  /** Taking every match as soon as it comes loses nothing: the climb succeeds exactly when some
      chain of ancestors matches the parts in order. */
  lemma {:induction false} GreedyComplete(nodes: seq<StyleNode>, depth: seq<nat>, limit: nat, s: Selector, i: nat, m: Option<nat>)
    requires Document(nodes, depth, limit) && (m.Some? ==> m.value < |nodes|)
    requires s.Descendant? && i < |s.parts|
    ensures Climb(nodes, depth, limit, s, i, m) == 0 <==>
      HasChain(nodes, depth, limit, s.parts, i, Path(nodes, depth, limit, m))
    decreases if m.Some? then depth[m.value] + 1 else 0
  {
    hide Matches, HasBelow, HasChain;
    var path := Path(nodes, depth, limit, m);
    if m.None? {
      NoPath(nodes, depth, limit, s.parts, i);
    } else if i == 0 {
      AnyPath(nodes, depth, limit, s.parts, path);
    } else {
      var here := Matches(nodes, depth, limit, s.parts[i - 1], m.value);
      GreedyComplete(nodes, depth, limit, s, if here then i - 1 else i, nodes[m.value].parent);
      assert path[1..] == Path(nodes, depth, limit, nodes[m.value].parent);
      NextAncestor(nodes, depth, limit, s.parts, i, path, here);
    }
  }

  lemma {:induction false} AnyPath(nodes: seq<StyleNode>, depth: seq<nat>, limit: nat, parts: seq<Selector>, path: seq<nat>)
    requires Document(nodes, depth, limit)
    requires forall k :: 0 <= k < |path| ==> path[k] < |nodes|
    ensures HasChain(nodes, depth, limit, parts, 0, path)
  {
    assert Chain(nodes, depth, limit, parts, 0, path, []);
  }

  /** A descendant selector matches exactly when its last part matches the node and some strictly
      ascending chain of ancestors matches the other parts in order. */
  lemma {:induction false} DescendantExactly(nodes: seq<StyleNode>, depth: seq<nat>, limit: nat, parts: seq<Selector>, n: nat)
    requires Within(nodes, depth, limit, n) && parts != []
    ensures Matches(nodes, depth, limit, Descendant(parts), n) <==>
      Matches(nodes, depth, limit, parts[|parts| - 1], n) &&
      HasChain(nodes, depth, limit, parts, |parts| - 1, Path(nodes, depth, limit, nodes[n].parent))
  {
    hide HasChain;
    GreedyComplete(nodes, depth, limit, Descendant(parts), |parts| - 1, nodes[n].parent);
  }

  // ----- :has -----

  lemma {:induction false} PathUp(nodes: seq<StyleNode>, depth: seq<nat>, limit: nat, c: nat, n: nat)
    requires Within(nodes, depth, limit, n) && c in nodes[n].children
    ensures c < |nodes| && Path(nodes, depth, limit, nodes[c].parent) == [n] + Path(nodes, depth, limit, nodes[n].parent)
  {
  }

  lemma {:induction false} PathThrough(nodes: seq<StyleNode>, depth: seq<nat>, limit: nat, d: nat, c: nat, n: nat)
    requires Within(nodes, depth, limit, n) && c in nodes[n].children && d < |nodes|
    requires c < |nodes| && c in Path(nodes, depth, limit, nodes[d].parent)
    ensures n in Path(nodes, depth, limit, nodes[d].parent)
    decreases depth[d]
  {
    var p := nodes[d].parent.value;
    if c == p {
      PathUp(nodes, depth, limit, c, n);
    } else {
      PathThrough(nodes, depth, limit, p, c, n);
    }
  }

  /** The child of n on the way down to d. */
  lemma {:induction false} StepDown(nodes: seq<StyleNode>, depth: seq<nat>, limit: nat, d: nat, n: nat) returns (c: nat)
    requires Within(nodes, depth, limit, n) && d < |nodes| && n in Path(nodes, depth, limit, nodes[d].parent)
    ensures c in nodes[n].children && c < |nodes| && depth[c] == depth[n] + 1
    ensures c == d || c in Path(nodes, depth, limit, nodes[d].parent)
    decreases depth[d]
  {
    var p := nodes[d].parent.value;
    if p == n {
      c := d;
    } else {
      c := StepDown(nodes, depth, limit, p, n);
    }
  }

  ghost predicate Inside(nodes: seq<StyleNode>, depth: seq<nat>, limit: nat, d: nat, n: nat)
    requires Document(nodes, depth, limit)
  {
    d < |nodes| && n in Path(nodes, depth, limit, nodes[d].parent)
  }

  ghost predicate MatchInside(nodes: seq<StyleNode>, depth: seq<nat>, limit: nat, s: Selector, n: nat)
    requires Document(nodes, depth, limit)
  {
    exists d :: Inside(nodes, depth, limit, d, n) && Matches(nodes, depth, limit, s, d)
  }

  /** What is inside n is a child of n or inside one. */
  lemma {:induction false} InsideSplit(nodes: seq<StyleNode>, depth: seq<nat>, limit: nat, s: Selector, n: nat)
    requires Within(nodes, depth, limit, n)
    ensures MatchInside(nodes, depth, limit, s, n) <==>
      exists c :: c in nodes[n].children && c < |nodes| && (Matches(nodes, depth, limit, s, c) || MatchInside(nodes, depth, limit, s, c))
  {
    hide Matches, Path;
    if MatchInside(nodes, depth, limit, s, n) {
      var d :| Inside(nodes, depth, limit, d, n) && Matches(nodes, depth, limit, s, d);
      var c := StepDown(nodes, depth, limit, d, n);
      assert c != d ==> Inside(nodes, depth, limit, d, c);
    }
    if c :| c in nodes[n].children && c < |nodes| && (Matches(nodes, depth, limit, s, c) || MatchInside(nodes, depth, limit, s, c)) {
      if Matches(nodes, depth, limit, s, c) {
        PathUp(nodes, depth, limit, c, n);
        assert Inside(nodes, depth, limit, c, n);
      } else {
        var d :| Inside(nodes, depth, limit, d, c) && Matches(nodes, depth, limit, s, d);
        PathThrough(nodes, depth, limit, d, c, n);
        assert Inside(nodes, depth, limit, d, n);
      }
    }
  }

  /** The search below n finds a match exactly when some node with n among its ancestors matches. */
  lemma {:induction false} HasExactly(nodes: seq<StyleNode>, depth: seq<nat>, limit: nat, s: Selector, n: nat)
    requires Within(nodes, depth, limit, n)
    ensures HasBelow(nodes, depth, limit, s, n) <==> MatchInside(nodes, depth, limit, s, n)
    decreases limit - depth[n]
  {
    hide Matches, MatchInside;
    InsideSplit(nodes, depth, limit, s, n);
    forall c | c in nodes[n].children && c < |nodes|
      ensures HasBelow(nodes, depth, limit, s, c) <==> MatchInside(nodes, depth, limit, s, c)
    {
      ChildKnown(nodes, depth, limit, n, c);
      HasExactly(nodes, depth, limit, s, c);
    }
  }

  // ----- Class names -----

  ghost predicate Somewhere(text: string, from: nat, name: string) {
    exists i :: from <= i <= |text| && WordAt(text, name, i)
  }

  /** No word reaches across such a position. */
  predicate Boundary(text: string, i: nat) {
    i <= |text| && (i == 0 || i == |text| || Space(text[i]))
  }

  /** A word from a boundary on is the run after the leading space or stands behind it. */
  lemma {:induction false} WordPlace(text: string, from: nat, name: string, i: nat)
    requires name != "" && from <= i && from <= |text| && WordAt(text, name, i)
    ensures var start := Run(text, from, true);
      var end := Run(text, start, false);
      && start <= i && (i == start ==> text[start..end] == name) && (i > start ==> i >= end)
  {
    var start := Run(text, from, true);
    var end := Run(text, start, false);
    hide Run, Space;
    var word := text[i..i + |name|];
    assert forall k :: 0 <= k < |name| ==> text[i + k] == word[k] == name[k];
    assert text[i + 0] == name[0];
    if i == start {
      assert forall k :: i <= k < i + |name| ==> text[k] == word[k - i] == name[k - i];
    }
  }

  lemma {:induction false} WordHere(text: string, from: nat, name: string)
    requires name != "" && from < |text| && Boundary(text, from)
    ensures var start := Run(text, from, true);
      var end := Run(text, start, false);
      text[start..end] == name ==> WordAt(text, name, start)
  {
    var start := Run(text, from, true);
    var end := Run(text, start, false);
    hide Run, Space;
    if text[start..end] == name {
      assert forall k :: 0 <= k < |name| ==> name[k] == text[start + k];
      assert start + |name| == end;
    }
  }

  /** From a boundary on, splitting at spaces finds a word exactly when it stands between spaces or
      ends. */
  lemma {:induction false} WordFrom(text: string, from: nat, name: string)
    requires name != "" && Boundary(text, from)
    ensures HasWord(text, from, name) <==> Somewhere(text, from, name)
    decreases |text| - from
  {
    hide Run, Space, WordAt;
    if from == |text| {
      NoRoom(text, name);
    } else {
      var start := Run(text, from, true);
      var end := Run(text, start, false);
      WordHere(text, from, name);
      WordFrom(text, end, name);
      if i :| from <= i <= |text| && WordAt(text, name, i) {
        WordPlace(text, from, name, i);
      }
    }
  }

  lemma {:induction false} NoRoom(text: string, name: string)
    requires name != ""
    ensures !WordAt(text, name, |text|)
  {
  }

  /** The class test finds exactly the names that stand between spaces or ends. */
  lemma {:induction false} WordExactly(text: string, name: string)
    requires name != ""
    ensures HasWord(text, 0, name) <==> exists i :: 0 <= i <= |text| && WordAt(text, name, i)
  {
    WordFrom(text, 0, name);
  }

  // ----- The matcher -----

  /** tai_selector_matches. */
  method MatchesSelector(nodes: seq<StyleNode>, ghost depth: seq<nat>, ghost limit: nat, s: Selector, n: nat) returns (yes: bool)
    requires Within(nodes, depth, limit, n)
    ensures yes == Matches(nodes, depth, limit, s, n)
    decreases s, 0, 0
  {
    hide HasBelow, HasWord;
    match s {
      case Sequence(parts) =>
        var i := 0;
        while i < |parts|
          invariant i <= |parts| && forall k :: 0 <= k < i ==> Matches(nodes, depth, limit, parts[k], n)
        {
          var part := MatchesSelector(nodes, depth, limit, parts[i], n);
          if !part {
            return false;
          }
          i := i + 1;
        }
        yes := true;
      case Descendant(parts) =>
        if parts == [] {
          return false;
        }
        var i: nat := |parts| - 1;
        var last := MatchesSelector(nodes, depth, limit, parts[i], n);
        if !last {
          return false;
        }
        var m: Option<nat> := nodes[n].parent;
        while i > 0 && m.Some?
          invariant i < |parts| && (m.Some? ==> m.value < |nodes|)
          invariant Climb(nodes, depth, limit, s, i, m) == Climb(nodes, depth, limit, s, |parts| - 1, nodes[n].parent)
          decreases if m.Some? then depth[m.value] + 1 else 0
        {
          var part := MatchesSelector(nodes, depth, limit, parts[i - 1], m.value);
          if part {
            i := i - 1;
          }
          m := nodes[m.value].parent;
        }
        yes := i == 0;
      case Tag(name) => yes := nodes[n].element && nodes[n].tag == name;
      case Visited => yes := nodes[n].element && nodes[n].visited && nodes[n].tag == "a";
      case Has(inner) =>
        if !nodes[n].element {
          return false;
        }
        yes := HasDescendant(nodes, depth, limit, inner, n);
      case Id(name) => yes := nodes[n].element && nodes[n].id == name;
      case Class(name) =>
        if !nodes[n].element {
          return false;
        }
        yes := FindWord(nodes[n].class_, name);
    }
  }

  lemma {:induction false} ChildKnown(nodes: seq<StyleNode>, depth: seq<nat>, limit: nat, n: nat, c: nat)
    requires Within(nodes, depth, limit, n) && c in nodes[n].children
    ensures c < |nodes| && depth[c] == depth[n] + 1 && depth[c] <= limit
  {
  }

  /** has_descendant. */
  method HasDescendant(nodes: seq<StyleNode>, ghost depth: seq<nat>, ghost limit: nat, s: Selector, n: nat) returns (yes: bool)
    requires Within(nodes, depth, limit, n)
    ensures yes == HasBelow(nodes, depth, limit, s, n)
    decreases s, 1, limit - depth[n]
  {
    hide Matches;
    var children := nodes[n].children;
    var i := 0;
    while i < |children|
      invariant i <= |children|
      invariant forall k :: 0 <= k < i && children[k] < |nodes| ==>
        !Matches(nodes, depth, limit, s, children[k]) && !HasBelow(nodes, depth, limit, s, children[k])
    {
      var c := children[i];
      assert c in nodes[n].children;
      ChildKnown(nodes, depth, limit, n, c);
      yes := MatchesSelector(nodes, depth, limit, s, c);
      if yes {
        return;
      }
      yes := HasDescendant(nodes, depth, limit, s, c);
      if yes {
        return;
      }
      i := i + 1;
    }
    yes := false;
  }

  method Skip(text: string, start: nat, space: bool) returns (i: nat)
    requires start <= |text|
    ensures i == Run(text, start, space)
  {
    i := start;
    while i < |text| && Space(text[i]) == space
      invariant start <= i <= |text| && Run(text, start, space) == Run(text, i, space)
    {
      i := i + 1;
    }
  }

  /** The loop over the words of the class attribute. */
  method FindWord(value: string, name: string) returns (found: bool)
    ensures found == HasWord(value, 0, name)
  {
    hide Space;
    var i := 0;
    while i < |value|
      invariant i <= |value| && HasWord(value, 0, name) == HasWord(value, i, name)
      decreases |value| - i
    {
      var start := Skip(value, i, true);
      var end := Skip(value, start, false);
      if value[start..end] == name {
        return true;
      }
      i := end;
    }
    found := false;
  }
}
