/** The effect stack of raster_region in src/render.c. */
module DisplayReplay {
  import opened Results
  import opened DisplayCommands
  import opened DisplayBuild
  import opened DisplayMeaning
  import opened DisplayGeometry

  /** An open effect and the drawing state saved when it was opened. */
  datatype Saved = Saved(effect: Effect, offset: real, frames: seq<Frame>)

  datatype Player = Player(stack: seq<Saved>, offset: real, frames: seq<Frame>, drawn: seq<Spot>)

  const START := Player([], 0.0, [], [])

  /** One command; None where the replay gives up. */
  function Next(p: Player, c: Command): Option<Player> {
    match c
    case Push(e) =>
      Some(Player(p.stack + [Saved(e, p.offset, p.frames)], p.offset + ScrollOf(e),
                  Inner(Painting, e, p.offset, p.frames), p.drawn))
    case Pop(kind) =>
      if p.stack == [] || KindOf(p.stack[|p.stack| - 1].effect) != kind then None
      else
        var top := p.stack[|p.stack| - 1];
        Some(Player(p.stack[..|p.stack| - 1], top.offset, top.frames, p.drawn))
    case Paint(d) =>
      Some(p.(drawn := p.drawn + if d.kind.HitTest? then [] else [Spot(d, p.offset, p.frames)]))
  }

  function Play(p: Player, list: seq<Command>): Option<Player>
    decreases |list|
  {
    if list == [] then Some(p)
    else match Next(p, list[0])
      case None => None
      case Some(q) => Play(q, list[1..])
  }

  lemma {:induction false} PlayConcat(p: Player, s: seq<Command>, t: seq<Command>)
    ensures Play(p, s + t) == match Play(p, s) case None => None case Some(q) => Play(q, t)
    decreases |s|
  {
    hide Next;
    if s == [] {
      assert s + t == t;
    } else {
      assert (s + t)[1..] == s[1..] + t;
      if Next(p, s[0]).Some? {
        PlayConcat(Next(p, s[0]).value, s[1..], t);
      }
    }
  }

  lemma {:induction false} PlayOne(p: Player, c: Command)
    ensures Play(p, [c]) == Next(p, c)
  {
    hide Next;
    if Next(p, c).Some? {
      assert Play(Next(p, c).value, [c][1..]) == Next(p, c);
    }
  }

  /** A forest's list restores every state it changes and paints what the forest draws. */
  lemma {:induction false} PlayForest(p: Player, ps: seq<Picture>)
    ensures Play(p, Linear(ps)) ==
      Some(p.(drawn := p.drawn + Shown(Painting, Drawn(Painting, ps, p.offset, p.frames))))
    decreases ps, 0
  {
    hide *;
    if ps == [] {
      NothingPlayed(p);
    } else {
      var front, last := ps[..|ps| - 1], ps[|ps| - 1];
      assert ps == front + [last];
      var q := p.(drawn := p.drawn + Shown(Painting, Drawn(Painting, front, p.offset, p.frames)));
      PlayForest(p, front);
      PlayPicture(q, last);
      LinearPush(front, last);
      DrawnPush(Painting, front, last, p.offset, p.frames);
      PlayConcat(p, Linear(front), LinearOne(last));
      ShownConcat(Painting, Drawn(Painting, front, p.offset, p.frames), DrawnOne(Painting, last, p.offset, p.frames));
      assert q.drawn + Shown(Painting, DrawnOne(Painting, last, p.offset, p.frames)) == p.drawn + Shown(Painting, Drawn(Painting, ps, p.offset, p.frames));
    }
  }

  lemma {:induction false} NothingPlayed(p: Player)
    ensures Play(p, Linear([])) == Some(p.(drawn := p.drawn + Shown(Painting, Drawn(Painting, [], p.offset, p.frames))))
  {
    assert p.drawn + [] == p.drawn;
  }

  lemma {:induction false} PlayPicture(p: Player, t: Picture)
    ensures Play(p, LinearOne(t)) ==
      Some(p.(drawn := p.drawn + Shown(Painting, DrawnOne(Painting, t, p.offset, p.frames))))
    decreases t, 1
  {
    hide Play, Linear, LinearOne, Drawn, DrawnOne, Shown, ScrollOf, Inner;
    if t.Leaf? {
      PlayLeaf(p, t.draw);
    } else {
      PlayForest(Next(p, Push(t.effect)).value, t.body);
      PlayGroup(p, t.effect, t.body);
    }
  }

  lemma {:induction false} PlayGroup(p: Player, e: Effect, body: seq<Picture>)
    requires var q := Next(p, Push(e)).value;
      Play(q, Linear(body)) == Some(q.(drawn := q.drawn + Shown(Painting, Drawn(Painting, body, q.offset, q.frames))))
    ensures Play(p, LinearOne(Group(e, body))) ==
      Some(p.(drawn := p.drawn + Shown(Painting, DrawnOne(Painting, Group(e, body), p.offset, p.frames))))
  {
    hide Play, Linear, Drawn, Shown, ScrollOf, Inner;
    PlayBracketed(p, e, Linear(body));
  }

  lemma {:induction false} PlayLeaf(p: Player, d: Draw)
    ensures Play(p, LinearOne(Leaf(d))) ==
      Some(p.(drawn := p.drawn + Shown(Painting, DrawnOne(Painting, Leaf(d), p.offset, p.frames))))
  {
    hide Play;
    PlayOne(p, Paint(d));
    ShownOne(Painting, Spot(d, p.offset, p.frames));
  }

  lemma {:induction false} PlayBracketed(p: Player, e: Effect, inner: seq<Command>)
    ensures var q := Next(p, Push(e)).value;
      Play(p, [Push(e)] + inner + [Pop(KindOf(e))]) ==
        match Play(q, inner) case None => None case Some(r) => Next(r, Pop(KindOf(e)))
  {
    hide Play, Inner, ScrollOf;
    var q := Next(p, Push(e)).value;
    var pop := [Pop(KindOf(e))];
    PlayOne(p, Push(e));
    if Play(q, inner).Some? {
      PlayOne(Play(q, inner).value, Pop(KindOf(e)));
    }
    PlayConcat(q, inner, pop);
    PlayConcat(p, [Push(e)], inner + pop);
    assert [Push(e)] + inner + pop == [Push(e)] + (inner + pop);
  }

  // ----- Only the lists of forests replay -----

  ghost predicate Nested(list: seq<Command>) {
    exists ps :: list == Linear(ps)
  }

  /** A list read so far: a forest before, between and after the brackets still open. */
  ghost function Spelled(stack: seq<Saved>, parts: seq<seq<Picture>>): seq<Command>
    requires |parts| == |stack| + 1
    decreases |stack|
  {
    var n := |stack|;
    if n == 0 then Linear(parts[0])
    else Spelled(stack[..n - 1], parts[..n]) + [Push(stack[n - 1].effect)] + Linear(parts[n])
  }

  lemma {:induction false} SpelledGrows(stack: seq<Saved>, parts: seq<seq<Picture>>, p: Picture)
    requires |parts| == |stack| + 1
    ensures var n := |stack|;
      Spelled(stack, parts[..n] + [parts[n] + [p]]) == Spelled(stack, parts) + LinearOne(p)
  {
    hide LinearOne;
    var n := |stack|;
    LinearPush(parts[n], p);
    assert (parts[..n] + [parts[n] + [p]])[..n] == parts[..n];
  }

  lemma {:induction false} Reading(list: seq<Command>) returns (parts: seq<seq<Picture>>)
    requires Play(START, list).Some?
    ensures var stack := Play(START, list).value.stack;
      |parts| == |stack| + 1 && list == Spelled(stack, parts)
    decreases |list|
  {
    if list == [] {
      parts := [[]];
    } else {
      hide Play, Linear, LinearOne, Spelled;
      var before, c := list[..|list| - 1], list[|list| - 1];
      assert list == before + [c];
      PlayConcat(START, before, [c]);
      parts := Reading(before);
      var p := Play(START, before).value;
      PlayOne(p, c);
      parts := ReadOne(p, c, parts);
    }
  }

  lemma {:induction false} ReadOne(p: Player, c: Command, parts: seq<seq<Picture>>)
    returns (next: seq<seq<Picture>>)
    requires |parts| == |p.stack| + 1 && Next(p, c).Some?
    ensures var stack := Next(p, c).value.stack;
      |next| == |stack| + 1 && Spelled(stack, next) == Spelled(p.stack, parts) + [c]
  {
    var n := |p.stack|;
    match c
    case Paint(d) =>
      SpelledGrows(p.stack, parts, Leaf(d));
      next := parts[..n] + [parts[n] + [Leaf(d)]];
    case Push(e) =>
      next := parts + [[]];
      var stack := Next(p, c).value.stack;
      assert stack[..n] == p.stack && next[..n + 1] == parts;
      assert Linear(next[n + 1]) == [];
    case Pop(kind) =>
      var group := Group(p.stack[n - 1].effect, parts[n]);
      SpelledGrows(p.stack[..n - 1], parts[..n], group);
      next := parts[..n - 1] + [parts[n - 1] + [group]];
      assert parts[..n][..n - 1] == parts[..n - 1];
      var below := Spelled(p.stack[..n - 1], parts[..n]);
      assert below + LinearOne(group) == below + [Push(group.effect)] + Linear(parts[n]) + [c];
  }

  lemma {:induction false} NestedPlays(list: seq<Command>)
    ensures Nested(list) <==> Play(START, list).Some? && Play(START, list).value.stack == []
  {
    hide Play, Linear;
    if Nested(list) {
      var ps :| list == Linear(ps);
      PlayForest(START, ps);
    }
    if Play(START, list).Some? && Play(START, list).value.stack == [] {
      var parts := Reading(list);
      assert list == Linear(parts[0]);
    }
  }

  /** The replay of any list: the effect stack never grows past the list's length, the list is
      accepted exactly when its brackets nest, and then it has painted what the brackets say. */
  method Replay(list: seq<Command>) returns (valid: bool, drawn: seq<Spot>)
    ensures valid <==> Nested(list)
    ensures forall ps :: list == Linear(ps) ==> drawn == Shown(Painting, Drawn(Painting, ps, 0.0, []))
  {
    hide Play, Linear, Drawn, Shown;
    NestedPlays(list);
    var stack := new Saved[|list|](_ => Saved(Blur(0.0), 0.0, []));
    var depth := 0;
    var offset: real, frames: seq<Frame> := 0.0, [];
    drawn := [];
    var i := 0;
    assert stack[..0] == [] && list[0..] == list;
    while i < |list|
      invariant 0 <= depth <= i <= |list|
      invariant Play(START, list) == Play(Player(stack[..depth], offset, frames, drawn), list[i..])
    {
      ghost var p := Player(stack[..depth], offset, frames, drawn);
      PlayNext(p, list, i);
      match list[i] {
        case Push(e) =>
          stack[depth] := Saved(e, offset, frames);
          assert stack[..depth + 1] == stack[..depth] + [stack[depth]];
          depth := depth + 1;
          offset, frames := offset + ScrollOf(e), Inner(Painting, e, offset, frames);
          assert Next(p, list[i]) == Some(Player(stack[..depth], offset, frames, drawn));
        case Pop(kind) =>
          if depth == 0 {
            NoForest(list);
            return false, [];
          }
          depth := depth - 1;
          assert stack[..depth + 1][..depth] == stack[..depth];
          if KindOf(stack[depth].effect) != kind {
            NoForest(list);
            return false, [];
          }
          offset, frames := stack[depth].offset, stack[depth].frames;
          assert Next(p, list[i]) == Some(Player(stack[..depth], offset, frames, drawn));
        case Paint(d) =>
          if !d.kind.HitTest? {
            drawn := drawn + [Spot(d, offset, frames)];
          }
          assert p.drawn + [] == p.drawn;
          assert Next(p, list[i]) == Some(Player(stack[..depth], offset, frames, drawn));
      }
      i := i + 1;
    }
    PlayEnd(Player(stack[..depth], offset, frames, drawn));
    assert list[i..] == [];
    valid := depth == 0;
    AllForests(list);
  }

  lemma {:induction false} PlayNext(p: Player, list: seq<Command>, i: nat)
    requires i < |list|
    ensures Play(p, list[i..]) ==
      match Next(p, list[i]) case None => None case Some(q) => Play(q, list[i + 1..])
  {
    assert list[i..][1..] == list[i + 1..];
  }

  lemma {:induction false} PlayEnd(p: Player)
    ensures Play(p, []) == Some(p)
  {
  }

  lemma {:induction false} AllForests(list: seq<Command>)
    ensures forall ps :: list == Linear(ps) ==>
      Play(START, list) == Some(START.(drawn := Shown(Painting, Drawn(Painting, ps, 0.0, []))))
  {
    hide Play, Linear, Drawn, Shown;
    forall ps | list == Linear(ps)
      ensures Play(START, list) == Some(START.(drawn := Shown(Painting, Drawn(Painting, ps, 0.0, []))))
    {
      PlayForest(START, ps);
      assert [] + Shown(Painting, Drawn(Painting, ps, 0.0, [])) == Shown(Painting, Drawn(Painting, ps, 0.0, []));
    }
  }

  lemma {:induction false} NoForest(list: seq<Command>)
    requires Play(START, list).None?
    ensures !Nested(list)
  {
    NestedPlays(list);
  }

  /** Replaying the list made from a layout tree paints the tree: every drawing but the hit-test
      rectangles, in paint order, at its scroll offset and inside the effects around it there. */
  method ReplayLayout(root: Box) returns (valid: bool, drawn: seq<Spot>)
    ensures valid && drawn == Shown(Painting, Spots(Painting, root, 0.0, []))
    ensures Placed(Marks(root, [])) && drawn == Shown(Painting, SpotsOf(Painting, Marks(root, [])))
  {
    SpotsAre(Painting, root, []);
    var ok, list := CreateDisplayList(root);
    valid, drawn := Replay(list);
    CompileDraws(Painting, root, 0.0, []);
  }
}
