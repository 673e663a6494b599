/** The hit test of src/render.c: reading the flat list backwards finds what the tree has on top. */
module DisplayHit {
  import opened Results
  import opened DisplayCommands
  import opened DisplayBuild
  import opened DisplayMeaning
  import opened DisplayGeometry

  /** The geometric tests, whose rounding plays no part here. */
  datatype Geometry = Geometry(inRect: (Rect, real, real) -> bool, inShape: (Draw, real, real) -> bool)

  predicate Hittable(d: Draw) {
    d.kind.FillRect? || d.kind.DrawText? || d.kind.HitTest?
  }

  predicate Enters(g: Geometry, e: Effect, x: real, y: real) {
    e.ClipScroll? ==> g.inRect(e.rect, x, y)
  }

  // ----- The search of a forest of pictures -----

  /** The last picture, in paint order, that is hit. */
  function HitIn(g: Geometry, ps: seq<Picture>, x: real, y: real): Option<Draw>
    decreases ps, 0
  {
    if ps == [] then None
    else
      var r := HitOne(g, ps[|ps| - 1], x, y);
      if r.Some? then r else HitIn(g, ps[..|ps| - 1], x, y)
  }

  function HitOne(g: Geometry, p: Picture, x: real, y: real): Option<Draw>
    decreases p, 1
  {
    match p
    case Leaf(d) => if Hittable(d) && g.inShape(d, x, y) then Some(d) else None
    case Group(e, body) => if Enters(g, e, x, y) then HitIn(g, body, x, y + ScrollOf(e)) else None
  }

  // ----- Matching brackets backwards -----

  /** Closing minus opening brackets. */
  function Balance(s: seq<Command>): int {
    if s == [] then 0
    else (if s[0].Pop? then 1 else if s[0].Push? then -1 else 0) + Balance(s[1..])
  }

  lemma {:induction false} BalanceConcat(s: seq<Command>, t: seq<Command>)
    ensures Balance(s + t) == Balance(s) + Balance(t)
    decreases |s|
  {
    if s == [] {
      assert s + t == t;
    } else {
      assert (s + t)[1..] == s[1..] + t;
      BalanceConcat(s[1..], t);
    }
  }

  /** Seen from its end, no part of a forest's list has more opening than closing brackets. */
  lemma {:induction false} SuffixBalance(ps: seq<Picture>, i: nat)
    requires i <= |Linear(ps)|
    ensures Balance(Linear(ps)[i..]) >= 0
    ensures i == 0 ==> Balance(Linear(ps)[i..]) == 0
    decreases ps, 0
  {
    if ps == [] {
    } else {
      var front, last := ps[..|ps| - 1], ps[|ps| - 1];
      var cut := |Linear(front)|;
      if i <= cut {
        assert Linear(ps)[i..] == Linear(front)[i..] + LinearOne(last);
        SuffixBalance(front, i);
        OneBalance(last, 0);
        assert LinearOne(last)[0..] == LinearOne(last);
        BalanceConcat(Linear(front)[i..], LinearOne(last));
      } else {
        assert Linear(ps)[i..] == LinearOne(last)[i - cut..];
        OneBalance(last, i - cut);
      }
    }
  }

  lemma {:induction false} OneBalance(p: Picture, i: nat)
    requires i <= |LinearOne(p)|
    ensures Balance(LinearOne(p)[i..]) >= 0
    ensures i == 0 ==> Balance(LinearOne(p)[i..]) == 0
    decreases p, 1
  {
    match p
    case Leaf(_) =>
    case Group(e, body) =>
      var inner := Linear(body);
      var pop := [Pop(KindOf(e))];
      if i == 0 {
        SuffixBalance(body, 0);
        assert inner[0..] == inner;
        BalanceConcat(inner, pop);
        assert LinearOne(p)[0..] == LinearOne(p) && LinearOne(p)[1..] == inner + pop;
      } else if i <= |inner| + 1 {
        SuffixBalance(body, i - 1);
        BalanceConcat(inner[i - 1..], pop);
        assert LinearOne(p)[i..] == inner[i - 1..] + pop;
      } else {
        assert LinearOne(p)[i..] == [];
      }
  }

  /** The opening bracket of the group a forest ends with. */
  method FindPush(list: seq<Command>, begin: nat, index: nat, ghost front: seq<Picture>, ghost p: Picture)
    returns (push: nat, matched: bool)
    requires begin <= index < |list| && p.Group?
    requires list[begin..index + 1] == Linear(front) + LinearOne(p)
    ensures matched && push == begin + |Linear(front)| <= index
    ensures list[push] == Push(p.effect) && list[push + 1..index] == Linear(p.body)
  {
    hide Linear, LinearOne;
    ghost var start := begin + |Linear(front)|;
    ghost var inner := Linear(p.body);
    GroupParts(list, begin, index, front, p);
    var depth := 1;
    push := index;
    while push > begin && depth > 0
      invariant start <= push <= index
      invariant push == start ==> depth == 0
      invariant push > start ==> depth == 1 + Balance(list[push..index]) && depth > 0
      decreases push
    {
      push := push - 1;
      assert list[push..index][1..] == list[push + 1..index];
      if list[push].Pop? {
        depth := depth + 1;
      } else if list[push].Push? {
        depth := depth - 1;
      }
      if push > start {
        SuffixBalance(p.body, push - start - 1);
        assert inner[push - start - 1..] == list[push..index];
      } else {
        SuffixBalance(p.body, 0);
        assert inner[0..] == list[start + 1..index];
      }
    }
    matched := depth == 0;
  }

  lemma {:induction false} GroupParts(list: seq<Command>, begin: nat, index: nat, front: seq<Picture>, p: Picture)
    requires begin <= index < |list| && p.Group?
    requires list[begin..index + 1] == Linear(front) + LinearOne(p)
    ensures var start := begin + |Linear(front)|;
      && start < index && list[start] == Push(p.effect)
      && list[start + 1..index] == Linear(p.body) && list[begin..start] == Linear(front)
      && list[index] == Pop(KindOf(p.effect))
  {
    hide Linear;
    assert Linear(front) + LinearOne(p) == Linear(front) + ([Push(p.effect)] + Linear(p.body) + [Pop(KindOf(p.effect))]);
    Middle(list, begin, index, Linear(front), Push(p.effect), Linear(p.body), Pop(KindOf(p.effect)));
  }

  lemma {:induction false} Middle<T>(list: seq<T>, begin: nat, index: nat, a: seq<T>, x: T, m: seq<T>, y: T)
    requires begin <= index < |list|
    requires list[begin..index + 1] == a + ([x] + m + [y])
    ensures var start := begin + |a|;
      && start < index && list[begin..start] == a && list[start] == x
      && list[start + 1..index] == m && list[index] == y
  {
    var all := list[begin..index + 1];
    var n := |a|;
    assert all[..n] == a && all[n] == x && all[n + 1..n + 1 + |m|] == m && all[n + 1 + |m|] == y;
    assert list[begin..begin + n] == all[..n];
    assert index == begin + n + 1 + |m|;
    var mid := list[begin + n + 1..index];
    forall k | 0 <= k < |m|
      ensures mid[k] == m[k]
    {
      assert mid[k] == all[n + 1 + k];
    }
  }

  /** hit_range on the list of a forest. */
  method HitRange(g: Geometry, list: seq<Command>, begin: nat, end: nat, x: real, y: real,
                  ghost ps: seq<Picture>)
    returns (hit: Option<Draw>)
    requires begin <= end <= |list| && list[begin..end] == Linear(ps)
    ensures hit == HitIn(g, ps, x, y)
    decreases end - begin
  {
    hide Balance;
    var index := end;
    ghost var left := ps;
    while index > begin
      invariant begin <= index <= end
      invariant list[begin..index] == Linear(left)
      invariant HitIn(g, ps, x, y) == HitIn(g, left, x, y)
      decreases index
    {
      LinearLast(left);
      ghost var front, last := left[..|left| - 1], left[|left| - 1];
      LastCommand(list, begin, index, front, last);
      index := index - 1;
      var c := list[index];
      if c.Pop? {
        var push, matched := FindPush(list, begin, index, front, last);
        if !matched {
          return None;
        }
        var effect := list[push].effect;
        if KindOf(effect) != c.kind {
          return None;
        }
        if Enters(g, effect, x, y) {
          var inside := HitRange(g, list, push + 1, index, x, y + ScrollOf(effect), last.body);
          if inside.Some? {
            return inside;
          }
        }
        GroupParts(list, begin, index, front, last);
        index := push;
      } else if c.Push? {
        return None;
      } else if Hittable(c.draw) && g.inShape(c.draw, x, y) {
        return Some(c.draw);
      }
      left := front;
    }
    hit := None;
    LinearSize(left);
  }

  lemma {:induction false} LinearLast(ps: seq<Picture>)
    requires Linear(ps) != []
    ensures ps != [] && Linear(ps) == Linear(ps[..|ps| - 1]) + LinearOne(ps[|ps| - 1])
  {
  }

  lemma {:induction false} LastCommand(list: seq<Command>, begin: nat, index: nat, front: seq<Picture>, last: Picture)
    requires begin < index <= |list|
    requires list[begin..index] == Linear(front) + LinearOne(last)
    ensures last.Leaf? ==> list[index - 1] == Paint(last.draw) && list[begin..index - 1] == Linear(front)
    ensures last.Group? ==> list[index - 1] == Pop(KindOf(last.effect))
  {
    var all := list[begin..index];
    assert list[index - 1] == all[|all| - 1];
    if last.Leaf? {
      assert list[begin..index - 1] == all[..|all| - 1];
    }
  }

  predicate Within(g: Geometry, frames: seq<Frame>, x: real, y: real) {
    forall k :: 0 <= k < |frames| ==> Enters(g, frames[k].effect, x, y + frames[k].offset)
  }

  predicate Seen(g: Geometry, s: Spot, x: real, y: real) {
    Hittable(s.draw) && Within(g, s.frames, x, y) && g.inShape(s.draw, x, y + s.offset)
  }

  /** The last drawing, in paint order, under the point. */
  function Topmost(g: Geometry, spots: seq<Spot>, x: real, y: real): Option<Draw> {
    if spots == [] then None
    else if Seen(g, spots[|spots| - 1], x, y) then Some(spots[|spots| - 1].draw)
    else Topmost(g, spots[..|spots| - 1], x, y)
  }

  lemma {:induction false} TopmostConcat(g: Geometry, s: seq<Spot>, t: seq<Spot>, x: real, y: real)
    ensures Topmost(g, s + t, x, y) ==
      if Topmost(g, t, x, y).Some? then Topmost(g, t, x, y) else Topmost(g, s, x, y)
    decreases |t|
  {
    if t == [] {
      assert s + t == s;
    } else {
      assert (s + t)[..|s + t| - 1] == s + t[..|t| - 1];
      TopmostConcat(g, s, t[..|t| - 1], x, y);
    }
  }

  /** What is outside a clip is not seen. */
  function Through(g: Geometry, frames: seq<Frame>, x: real, y: real, hit: Option<Draw>): Option<Draw> {
    if Within(g, frames, x, y) then hit else None
  }

  lemma {:induction false} WithinOneMore(g: Geometry, frames: seq<Frame>, f: Frame, x: real, y: real)
    ensures Within(g, frames + [f], x, y) == (Within(g, frames, x, y) && Enters(g, f.effect, x, y + f.offset))
  {
    var all := frames + [f];
    if Within(g, all, x, y) {
      assert all[|frames|] == f;
      forall k | 0 <= k < |frames|
        ensures Enters(g, frames[k].effect, x, y + frames[k].offset)
      {
        assert all[k] == frames[k];
      }
    }
  }

  /** The recursive search finds the topmost of everything drawn. */
  lemma {:induction false} HitDrawn(g: Geometry, ps: seq<Picture>, offset: real, frames: seq<Frame>, x: real, y: real)
    ensures Topmost(g, Drawn(Hitting, ps, offset, frames), x, y) == Through(g, frames, x, y, HitIn(g, ps, x, y + offset))
    decreases ps, 0
  {
    if ps == [] {
    } else {
      hide Topmost, DrawnOne, HitOne, Within;
      var front, last := ps[..|ps| - 1], ps[|ps| - 1];
      HitDrawn(g, front, offset, frames, x, y);
      HitDrawnOne(g, last, offset, frames, x, y);
      TopmostConcat(g, Drawn(Hitting, front, offset, frames), DrawnOne(Hitting, last, offset, frames), x, y);
    }
  }

  lemma {:induction false} HitDrawnOne(g: Geometry, p: Picture, offset: real, frames: seq<Frame>, x: real, y: real)
    ensures Topmost(g, DrawnOne(Hitting, p, offset, frames), x, y) == Through(g, frames, x, y, HitOne(g, p, x, y + offset))
    decreases p, 1
  {
    hide Topmost, Drawn, DrawnOne, HitIn, HitOne, Within, Through;
    if p.Leaf? {
      LeafHit(g, p.draw, offset, frames, x, y);
    } else {
      var e := p.effect;
      HitDrawn(g, p.body, offset + ScrollOf(e), Inner(Hitting, e, offset, frames), x, y);
      GroupHit(g, e, p.body, offset, frames, x, y);
    }
  }

  lemma {:induction false} GroupHit(g: Geometry, e: Effect, body: seq<Picture>, offset: real, frames: seq<Frame>,
                                    x: real, y: real)
    requires var inner := Inner(Hitting, e, offset, frames);
      Topmost(g, Drawn(Hitting, body, offset + ScrollOf(e), inner), x, y) ==
        Through(g, inner, x, y, HitIn(g, body, x, y + (offset + ScrollOf(e))))
    ensures Topmost(g, DrawnOne(Hitting, Group(e, body), offset, frames), x, y) ==
      Through(g, frames, x, y, HitOne(g, Group(e, body), x, y + offset))
  {
    hide Topmost, Drawn, HitIn, Within;
    if e.ClipScroll? {
      WithinOneMore(g, frames, Frame(e, offset), x, y);
    }
    assert y + (offset + ScrollOf(e)) == (y + offset) + ScrollOf(e);
  }

  lemma {:induction false} LeafHit(g: Geometry, d: Draw, offset: real, frames: seq<Frame>, x: real, y: real)
    ensures Topmost(g, DrawnOne(Hitting, Leaf(d), offset, frames), x, y) ==
      Through(g, frames, x, y, HitOne(g, Leaf(d), x, y + offset))
  {
    hide Within;
    assert [Spot(d, offset, frames)][..0] == [];
  }

  // ----- On the tree itself -----

  /** Does the point lie on the mark? Its shape has the point where the scrollers around it have moved
      it, and so does each of these scrollers, where the ones around that have moved it. */
  predicate Under(g: Geometry, m: Mark, x: real, y: real)
    requires m.chain != []
  {
    var outer := m.chain[..|m.chain| - 1];
    && (m.draw.kind.FillRect? || m.draw.kind.DrawText? || m.draw.kind.HitTest?)
    && g.inShape(m.draw, x, y + Scrolled(outer))
    && forall k :: 0 <= k < |outer| && Scroller(outer[k]) ==> g.inRect(outer[k].rect, x, y + Scrolled(outer[..k]))
  }

  /** The hit is the last mark under the point, or there is none. */
  ghost predicate TopHit(g: Geometry, ms: seq<Mark>, x: real, y: real, hit: Option<Draw>)
    requires Placed(ms)
  {
    match hit
    case None => forall k :: 0 <= k < |ms| ==> !Under(g, ms[k], x, y)
    case Some(d) =>
      exists k :: 0 <= k < |ms| && ms[k].draw == d && Under(g, ms[k], x, y) &&
        forall j :: k < j < |ms| ==> !Under(g, ms[j], x, y)
  }

  predicate InScrollers(g: Geometry, outer: seq<Item>, x: real, y: real) {
    forall k :: 0 <= k < |outer| && Scroller(outer[k]) ==> g.inRect(outer[k].rect, x, y + Scrolled(outer[..k]))
  }

  lemma {:induction false} ScrollersMore(g: Geometry, front: seq<Item>, last: Item, x: real, y: real)
    ensures InScrollers(g, front + [last], x, y) <==>
      InScrollers(g, front, x, y) && (Scroller(last) ==> g.inRect(last.rect, x, y + Scrolled(front)))
  {
    hide Scrolled, Scroller;
    var all, n := front + [last], |front|;
    assert all[..n] == front && all[n] == last;
    assert forall k :: 0 <= k < n ==> all[k] == front[k] && all[..k] == front[..k];
  }

  lemma {:induction false} EnteredMore(front: seq<Item>, last: Item)
    ensures Entered(Hitting, front + [last]) == Entered(Hitting, front) +
      if Scroller(last) then [Frame(ClipScroll(last.rect, last.scrollY), Scrolled(front))] else []
  {
    OneMore(Hitting, front, last);
    EffectsAdd(Hitting, last, Scrolled(front), Entered(Hitting, front));
    hide Entered, OwnFrames, Scrolled, Scroller, Around3;
    assert Entered(Hitting, front) + [] == Entered(Hitting, front);
  }

  lemma {:induction false} EnteredScrollers(g: Geometry, outer: seq<Item>, x: real, y: real)
    ensures Within(g, Entered(Hitting, outer), x, y) <==> InScrollers(g, outer, x, y)
    decreases |outer|
  {
    if outer != [] {
      hide Within, Entered, Scrolled, Scroller, InScrollers;
      var front, last := outer[..|outer| - 1], outer[|outer| - 1];
      assert front + [last] == outer;
      EnteredScrollers(g, front, x, y);
      ScrollersMore(g, front, last, x, y);
      EnteredMore(front, last);
      var frames := Entered(Hitting, front);
      if Scroller(last) {
        WithinOneMore(g, frames, Frame(ClipScroll(last.rect, last.scrollY), Scrolled(front)), x, y);
      } else {
        assert frames + [] == frames;
      }
    }
  }

  lemma {:induction false} SeenUnder(g: Geometry, m: Mark, x: real, y: real)
    requires m.chain != []
    ensures Seen(g, SpotOf(Hitting, m), x, y) <==> Under(g, m, x, y)
  {
    var outer := m.chain[..|m.chain| - 1];
    assert Entered(Hitting, outer) + [] == Entered(Hitting, outer);
    assert OwnFrames(Hitting, m.chain) == Entered(Hitting, outer);
    EnteredScrollers(g, outer, x, y);
    hide Within, Entered, Scrolled, Scroller;
  }

  lemma {:induction false} HitMore(g: Geometry, front: seq<Mark>, last: Mark, x: real, y: real, hit: Option<Draw>)
    requires Placed(front) && last.chain != [] && TopHit(g, front, x, y, hit)
    ensures Placed(front + [last])
    ensures TopHit(g, front + [last], x, y, if Under(g, last, x, y) then Some(last.draw) else hit)
  {
    hide Under;
    var ms, n := front + [last], |front|;
    assert ms[n] == last && forall k :: 0 <= k < n ==> ms[k] == front[k];
    if !Under(g, last, x, y) && hit.Some? {
      var k :| 0 <= k < n && front[k].draw == hit.value && Under(g, front[k], x, y) &&
        forall j :: k < j < n ==> !Under(g, front[j], x, y);
      assert ms[k].draw == hit.value;
    }
  }

  lemma {:induction false} TopmostMark(g: Geometry, ms: seq<Mark>, x: real, y: real)
    requires Placed(ms)
    ensures TopHit(g, ms, x, y, Topmost(g, SpotsOf(Hitting, ms), x, y))
    decreases |ms|
  {
    if ms != [] {
      var front, last := ms[..|ms| - 1], ms[|ms| - 1];
      assert SpotOf(Hitting, last).draw == last.draw && front + [last] == ms;
      hide Seen, Under, SpotOf, TopHit;
      TopmostMark(g, front, x, y);
      SeenUnder(g, last, x, y);
      assert SpotsOf(Hitting, ms)[..|ms| - 1] == SpotsOf(Hitting, front);
      HitMore(g, front, last, x, y, Topmost(g, SpotsOf(Hitting, front), x, y));
    }
  }

  /** tai_display_list_hit_test on the list of any layout tree: the topmost drawing under the point,
      with every scroll offset and scrolled clip around it applied in its own frame. */
  method HitTest(g: Geometry, root: Box, list: seq<Command>, x: real, y: real) returns (hit: Option<Draw>)
    requires list == Linear(Compile(root))
    ensures hit == Topmost(g, Spots(Hitting, root, 0.0, []), x, y)
    ensures Placed(Marks(root, [])) && TopHit(g, Marks(root, []), x, y, hit)
  {
    hide Linear, Compile, Spots, Drawn, Topmost, HitIn, Shown, Marks, TopHit;
    SpotsAre(Hitting, root, []);
    TopmostMark(g, Marks(root, []), x, y);
    hide SpotsOf, Placed;
    assert list[0..|list|] == list;
    hit := HitRange(g, list, 0, |list|, x, y, Compile(root));
    HitDrawn(g, Compile(root), 0.0, [], x, y);
    CompileDraws(Hitting, root, 0.0, []);
    ShownAll(Drawn(Hitting, Compile(root), 0.0, []));
    ShownAll(Spots(Hitting, root, 0.0, []));
    assert y + 0.0 == y;
  }
}
