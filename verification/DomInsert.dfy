/** When a script may move a node: exactly when the document it asks for exists and is shallow enough. */
module DomInsert {
  import opened Results
  import opened HtmlArena
  import opened DomForest
  import opened DomDepth
  import opened DomDocument

  /** The children and parents of nodes close no circle. */
  ghost predicate Circular(nodes: seq<Node>) {
    forall r :: !Ranked(nodes, r)
  }

  /** Whatever is under c has at most so many ancestors. */
  ghost predicate Shallow(nodes: seq<Node>, r: seq<nat>, c: nat, bound: nat)
    requires Ranked(nodes, r)
  {
    forall x :: 0 <= x < |nodes| && Under(nodes, r, x, c) ==> r[x] <= bound
  }

  ghost predicate Fits(nodes: seq<Node>, c: nat, bound: nat) {
    exists r :: Ranked(nodes, r) && Shallow(nodes, r, c, bound)
  }

  /** What is under c stays under it, and at least as deep, when c moves. */
  lemma {:induction false} StaysUnder(nodes: seq<Node>, rank: seq<nat>, nodes': seq<Node>, r: seq<nat>, c: nat, x: nat)
    requires Ranked(nodes, rank) && Ranked(nodes', r) && SameParents(nodes, nodes', c) && x < |nodes| && c < |nodes|
    requires Under(nodes, rank, x, c)
    ensures Under(nodes', r, x, c) && r[x] >= r[c]
    decreases rank[x]
  {
    if x != c {
      StaysUnder(nodes, rank, nodes', r, c, nodes[x].parent.value);
    }
  }

  lemma {:induction false} ComesUnder(nodes: seq<Node>, rank: seq<nat>, nodes': seq<Node>, r: seq<nat>, c: nat, x: nat)
    requires Ranked(nodes, rank) && Ranked(nodes', r) && SameParents(nodes, nodes', c) && x < |nodes| && c < |nodes|
    requires Under(nodes', r, x, c)
    ensures Under(nodes, rank, x, c)
    decreases r[x]
  {
    if x != c {
      ComesUnder(nodes, rank, nodes', r, c, nodes'[x].parent.value);
    }
  }

  /** Under one of its own descendants a node closes a circle. */
  lemma {:induction false} UnderCloses(nodes: seq<Node>, rank: seq<nat>, p: nat, c: nat, ref: Option<nat>)
    requires Linked(nodes) && Ranked(nodes, rank) && p < |nodes| && c < |nodes| && Under(nodes, rank, p, c)
    ensures Circular(Inserted(nodes, p, c, ref))
  {
    hide Linked, Under, Inserted;
    var nodes' := Inserted(nodes, p, c, ref);
    if p != c {
      InsertLinked(nodes, p, c, ref);
    }
    forall r
      ensures !Ranked(nodes', r)
    {
      if Ranked(nodes', r) && p != c {
        StaysUnder(nodes, rank, nodes', r, c, p);
      }
    }
  }

  /** Elsewhere it takes its subtree along. */
  lemma {:induction false} ElsewhereMoves(nodes: seq<Node>, rank: seq<nat>, p: nat, c: nat, ref: Option<nat>)
    requires Linked(nodes) && Ranked(nodes, rank) && p < |nodes| == |rank| && c < |nodes| && !Under(nodes, rank, p, c)
    ensures var nodes' := Inserted(nodes, p, c, ref);
      && Ranked(nodes', Shifted(nodes, rank, c, rank[p] + 1)) && SameParents(nodes, nodes', c)
  {
    SelfUnder(nodes, rank, p);
    hide *;
    DetachRange(nodes, c);
    InsertLinked(nodes, p, c, ref);
    Moved(nodes, rank, Inserted(nodes, p, c, ref), c, rank[p] + 1);
  }

  lemma {:induction false} SameUnder(nodes: seq<Node>, rank: seq<nat>, nodes': seq<Node>, r: seq<nat>, c: nat)
    requires Ranked(nodes, rank) && Ranked(nodes', r) && SameParents(nodes, nodes', c) && c < |nodes|
    ensures forall x :: 0 <= x < |nodes| ==> (Under(nodes', r, x, c) <==> Under(nodes, rank, x, c))
  {
    forall x | 0 <= x < |nodes|
      ensures Under(nodes', r, x, c) <==> Under(nodes, rank, x, c)
    {
      if Under(nodes, rank, x, c) {
        StaysUnder(nodes, rank, nodes', r, c, x);
      }
      if Under(nodes', r, x, c) {
        ComesUnder(nodes, rank, nodes', r, c, x);
      }
    }
  }

  lemma {:induction false} RankedFits(nodes: seq<Node>, r: seq<nat>, c: nat, bound: nat)
    requires Ranked(nodes, r)
    ensures Fits(nodes, c, bound) <==> Shallow(nodes, r, c, bound)
  {
    hide Ranked, Shallow;
    if Fits(nodes, c, bound) {
      var s :| Ranked(nodes, s) && Shallow(nodes, s, c, bound);
      RankUnique(nodes, r, s);
    }
  }

  lemma {:induction false} ElsewhereFits(nodes: seq<Node>, rank: seq<nat>, p: nat, c: nat, ref: Option<nat>)
    requires Linked(nodes) && Ranked(nodes, rank) && p < |nodes| == |rank| && c < |nodes| && !Under(nodes, rank, p, c)
    ensures Fits(Inserted(nodes, p, c, ref), c, MAX_DEPTH) <==>
      rank[p] + 1 <= MAX_DEPTH && Low(nodes, rank, c, MAX_DEPTH - (rank[p] + 1))
  {
    hide *;
    DetachRange(nodes, c);
    ElsewhereMoves(nodes, rank, p, c, ref);
    ShiftedFits(nodes, rank, Inserted(nodes, p, c, ref), c, rank[p] + 1);
    RankedFits(Inserted(nodes, p, c, ref), Shifted(nodes, rank, c, rank[p] + 1), c, MAX_DEPTH);
  }

  lemma {:induction false} ShiftedFits(nodes: seq<Node>, rank: seq<nat>, nodes': seq<Node>, c: nat, level: nat)
    requires Ranked(nodes, rank) && c < |nodes| == |nodes'| && Ranked(nodes', Shifted(nodes, rank, c, level))
    requires SameParents(nodes, nodes', c)
    ensures Shallow(nodes', Shifted(nodes, rank, c, level), c, MAX_DEPTH) <==>
      level <= MAX_DEPTH && Low(nodes, rank, c, MAX_DEPTH - level)
  {
    var r := Shifted(nodes, rank, c, level);
    SameUnder(nodes, rank, nodes', r, c);
    SelfUnder(nodes, rank, c);
    assert r[c] == level;
    forall x | 0 <= x < |nodes| && Under(nodes, rank, x, c)
      ensures r[x] == rank[x] - rank[c] + level
    {
    }
    hide Ranked, Under, Shifted;
  }

  /** Inserting answers by what the document would be: a circle exactly when it could not be ranked, and
      done exactly when the moved subtree keeps within 512 ancestors, or nothing moves. */
  lemma {:induction false} InsertExactly(nodes: seq<Node>, rank: seq<nat>, p: nat, c: nat, ref: Option<nat>)
    requires Linked(nodes) && Ranked(nodes, rank) && p < |nodes| && c < |nodes| && (ref.Some? ==> ref.value < |nodes|)
    ensures var status := InsertStatus(nodes, rank, p, c, ref);
      var child := ref.Some? ==> nodes[ref.value].parent == Some(p);
      && (status == ReferenceNotChild <==> !child)
      && (status == Cycle <==> child && ref != Some(c) && Circular(Inserted(nodes, p, c, ref)))
      && (status == Done <==> child && (ref == Some(c) || Fits(Inserted(nodes, p, c, ref), c, 512)))
      && status != WrongDocument
  {
    assert |rank| == |nodes|;
    hide Linked, Under, Inserted, Low;
    if Under(nodes, rank, p, c) {
      UnderCloses(nodes, rank, p, c, ref);
    } else {
      ElsewhereMoves(nodes, rank, p, c, ref);
      ElsewhereFits(nodes, rank, p, c, ref);
    }
  }
}
