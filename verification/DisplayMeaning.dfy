/** Compiling a layout tree keeps what it draws: drawings, order, scroll offsets and effects. */
module DisplayMeaning {
  import opened DisplayCommands
  import opened DisplayBuild

  /** An effect around a drawing, with the scroll offset of the frame it lies in. */
  datatype Frame = Frame(effect: Effect, offset: real)

  /** A drawing, the sum of the scroll offsets around it and the effects it lies in. */
  datatype Spot = Spot(draw: Draw, offset: real, frames: seq<Frame>)

  /** Hit testing minds only the scrolled clips around a drawing, painting minds every effect. */
  datatype View = Hitting | Painting

  function SpotsAt(draws: seq<Draw>, offset: real, frames: seq<Frame>): seq<Spot> {
    seq(|draws|, k requires 0 <= k < |draws| => Spot(draws[k], offset, frames))
  }

  function ScrollOf(e: Effect): real {
    if e.ClipScroll? then e.scrollY else 0.0
  }

  function Inner(v: View, e: Effect, offset: real, frames: seq<Frame>): seq<Frame> {
    if v.Painting? || e.ClipScroll? then frames + [Frame(e, offset)] else frames
  }

  function InnerIf(v: View, active: bool, e: Effect, offset: real, frames: seq<Frame>): seq<Frame> {
    if active then Inner(v, e, offset, frames) else frames
  }

  /** The effects of one item: blending around clipping around blurring. */
  function Around3(v: View, i: Item, offset: real, frames: seq<Frame>): seq<Frame> {
    var blended := InnerIf(v, Blends(i), Blend(i.opacity, i.mode), offset, frames);
    var clipped := InnerIf(v, Clips(i), Clip(i.rect, i.radius), offset, blended);
    InnerIf(v, Blurs(i), Blur(i.sigma), offset, clipped)
  }

  /** Everything a layout tree draws, in paint order, with no bracket taken back. */
  function Spots(v: View, b: Box, offset: real, frames: seq<Frame>): seq<Spot>
    decreases b, 1
  {
    var i := b.item;
    var inner := Around3(v, i, offset, frames);
    if Clips(i) && Scrolls(i) then
      SpotsAt(i.own + [HitDraw(i)], offset, inner) +
      SpotsAll(v, b.children, offset + i.scrollY, Inner(v, ClipScroll(i.rect, i.scrollY), offset, inner))
    else
      SpotsAt(i.own, offset, inner) + SpotsAll(v, b.children, offset, inner)
  }

  function SpotsAll(v: View, bs: seq<Box>, offset: real, frames: seq<Frame>): seq<Spot>
    decreases bs, 0
  {
    if bs == [] then []
    else SpotsAll(v, bs[..|bs| - 1], offset, frames) + Spots(v, bs[|bs| - 1], offset, frames)
  }

  /** Everything a forest of pictures draws. */
  function Drawn(v: View, ps: seq<Picture>, offset: real, frames: seq<Frame>): seq<Spot>
    decreases ps, 0
  {
    if ps == [] then []
    else Drawn(v, ps[..|ps| - 1], offset, frames) + DrawnOne(v, ps[|ps| - 1], offset, frames)
  }

  function DrawnOne(v: View, p: Picture, offset: real, frames: seq<Frame>): seq<Spot>
    decreases p, 1
  {
    match p
    case Leaf(d) => [Spot(d, offset, frames)]
    case Group(e, body) => Drawn(v, body, offset + ScrollOf(e), Inner(v, e, offset, frames))
  }

  /** Painting skips the hit-test rectangles. */
  function Shown(v: View, spots: seq<Spot>): seq<Spot> {
    if spots == [] then []
    else Shown(v, spots[..|spots| - 1]) +
         if v.Painting? && spots[|spots| - 1].draw.kind.HitTest? then [] else [spots[|spots| - 1]]
  }

  lemma {:induction false} ShownConcat(v: View, s: seq<Spot>, t: seq<Spot>)
    ensures Shown(v, s + t) == Shown(v, s) + Shown(v, t)
    decreases |t|
  {
    if t == [] {
      assert s + t == s;
    } else {
      assert (s + t)[..|s + t| - 1] == s + t[..|t| - 1];
      ShownConcat(v, s, t[..|t| - 1]);
    }
  }

  lemma {:induction false} ShownOne(v: View, s: Spot)
    ensures Shown(v, [s]) == if v.Painting? && s.draw.kind.HitTest? then [] else [s]
  {
    assert Shown(v, [s][..0]) == [];
  }

  /** Hit testing sees everything. */
  lemma {:induction false} ShownAll(spots: seq<Spot>)
    ensures Shown(Hitting, spots) == spots
    decreases |spots|
  {
    if spots != [] {
      ShownAll(spots[..|spots| - 1]);
    }
  }

  lemma {:induction false} DrawnNone(v: View, offset: real, frames: seq<Frame>)
    ensures Drawn(v, [], offset, frames) == [] && SpotsAll(v, [], offset, frames) == []
  {
  }

  lemma {:induction false} DrawnPush(v: View, ps: seq<Picture>, p: Picture, offset: real, frames: seq<Frame>)
    ensures Drawn(v, ps + [p], offset, frames) == Drawn(v, ps, offset, frames) + DrawnOne(v, p, offset, frames)
  {
    assert (ps + [p])[..|ps|] == ps;
  }

  lemma {:induction false} DrawnConcat(v: View, ps: seq<Picture>, qs: seq<Picture>, offset: real, frames: seq<Frame>)
    ensures Drawn(v, ps + qs, offset, frames) == Drawn(v, ps, offset, frames) + Drawn(v, qs, offset, frames)
    decreases |qs|
  {
    hide *;
    if qs == [] {
      DrawnNone(v, offset, frames);
      assert ps + qs == ps;
    } else {
      var front, last := qs[..|qs| - 1], qs[|qs| - 1];
      DrawnConcat(v, ps, front, offset, frames);
      DrawnPush(v, ps + front, last, offset, frames);
      DrawnPush(v, front, last, offset, frames);
      assert ps + qs == (ps + front) + [last];
      assert qs == front + [last];
    }
  }

  lemma {:induction false} DrawnLeaves(v: View, draws: seq<Draw>, offset: real, frames: seq<Frame>)
    ensures Drawn(v, Leaves(draws), offset, frames) == SpotsAt(draws, offset, frames)
    decreases |draws|
  {
    if draws != [] {
      var front := draws[..|draws| - 1];
      assert Leaves(draws)[..|draws| - 1] == Leaves(front);
      DrawnLeaves(v, front, offset, frames);
    }
  }

  /** Taking back an effect around nothing loses no drawing. */
  lemma {:induction false} DrawnAround(v: View, active: bool, e: Effect, ps: seq<Picture>, offset: real, frames: seq<Frame>)
    requires e.ClipScroll? ==> active
    ensures Drawn(v, Around(active, e, ps), offset, frames) ==
      Drawn(v, ps, offset + ScrollOf(e), InnerIf(v, active, e, offset, frames))
  {
    DrawnNone(v, offset, frames);
    DrawnNone(v, offset + ScrollOf(e), Inner(v, e, offset, frames));
    assert offset + 0.0 == offset;
    if active && ps != [] {
      DrawnPush(v, [], Group(e, ps), offset, frames);
      assert [] + [Group(e, ps)] == [Group(e, ps)];
    }
  }

  /** A lone hit-test rectangle taken out of its clip is not painted, and is hit as before. */
  lemma {:induction false} DrawnClipped(v: View, i: Item, ps: seq<Picture>, offset: real, frames: seq<Frame>)
    ensures Shown(v, Drawn(v, Clipped(i, ps), offset, frames)) ==
      Shown(v, Drawn(v, ps, offset, InnerIf(v, Clips(i), Clip(i.rect, i.radius), offset, frames)))
  {
    hide Drawn, Shown, Around;
    var clip := Clip(i.rect, i.radius);
    if Clips(i) && |ps| == 1 && ps[0].Leaf? && ps[0].draw.kind == HitTest {
      assert ps == [Leaf(ps[0].draw)];
      DrawnLone(v, ps[0].draw, offset, frames);
      DrawnLone(v, ps[0].draw, offset, Inner(v, clip, offset, frames));
    } else if Clips(i) {
      DrawnAround(v, true, clip, ps, offset, frames);
      assert offset + 0.0 == offset;
    }
  }

  lemma {:induction false} DrawnLone(v: View, d: Draw, offset: real, frames: seq<Frame>)
    ensures Shown(v, Drawn(v, [Leaf(d)], offset, frames)) ==
      if v.Painting? && d.kind.HitTest? then [] else [Spot(d, offset, frames)]
  {
    DrawnNone(v, offset, frames);
    DrawnPush(v, [], Leaf(d), offset, frames);
    assert [] + [Leaf(d)] == [Leaf(d)];
    ShownOne(v, Spot(d, offset, frames));
  }

  lemma {:induction false} DrawnCompiled(v: View, i: Item, kids: seq<Picture>, offset: real, frames: seq<Frame>)
    ensures Shown(v, Drawn(v, Compiled(i, kids), offset, frames)) ==
      Shown(v, Drawn(v, Inside(i, kids), offset, Around3(v, i, offset, frames)))
  {
    hide Drawn, Shown, Inside, InnerIf, Around, Clipped;
    var inside := Inside(i, kids);
    var blurred := Around(Blurs(i), Blur(i.sigma), inside);
    var blended := InnerIf(v, Blends(i), Blend(i.opacity, i.mode), offset, frames);
    var clipped := InnerIf(v, Clips(i), Clip(i.rect, i.radius), offset, blended);
    DrawnAround(v, Blends(i), Blend(i.opacity, i.mode), Clipped(i, blurred), offset, frames);
    DrawnClipped(v, i, blurred, offset, blended);
    DrawnAround(v, Blurs(i), Blur(i.sigma), inside, offset, clipped);
    assert offset + 0.0 == offset;
  }

  lemma {:induction false} InsideParts(i: Item, kids: seq<Picture>)
    ensures Inside(i, kids) ==
      if Clips(i) && Scrolls(i)
      then Leaves(i.own + [HitDraw(i)]) + Around(true, ClipScroll(i.rect, i.scrollY), kids)
      else Leaves(i.own) + kids
  {
    hide Around;
    assert Leaves(i.own + [HitDraw(i)]) == Leaves(i.own) + [Leaf(HitDraw(i))];
  }

  lemma {:induction false} ShownAppend(v: View, draws: seq<Draw>, ps: seq<Picture>, offset: real, frames: seq<Frame>)
    ensures Shown(v, Drawn(v, Leaves(draws) + ps, offset, frames)) ==
      Shown(v, SpotsAt(draws, offset, frames)) + Shown(v, Drawn(v, ps, offset, frames))
  {
    hide *;
    DrawnLeaves(v, draws, offset, frames);
    DrawnConcat(v, Leaves(draws), ps, offset, frames);
    ShownConcat(v, SpotsAt(draws, offset, frames), Drawn(v, ps, offset, frames));
  }

  /** The compiled list draws what the layout tree draws. */
  lemma {:induction false} CompileDraws(v: View, b: Box, offset: real, frames: seq<Frame>)
    ensures Shown(v, Drawn(v, Compile(b), offset, frames)) == Shown(v, Spots(v, b, offset, frames))
    decreases b, 1
  {
    hide Shown, Drawn, Leaves, SpotsAt, SpotsAll, Compiled, Inside, Around, Around3, Inner, Clips, Scrolls;
    var i := b.item;
    var kids := CompileAll(b.children);
    var inner := Around3(v, i, offset, frames);
    DrawnCompiled(v, i, kids, offset, frames);
    InsideParts(i, kids);
    if Clips(i) && Scrolls(i) {
      var scroll := ClipScroll(i.rect, i.scrollY);
      var own := i.own + [HitDraw(i)];
      CompileAllDraws(v, b.children, offset + i.scrollY, Inner(v, scroll, offset, inner));
      DrawnAround(v, true, scroll, kids, offset, inner);
      ShownAppend(v, own, Around(true, scroll, kids), offset, inner);
      ShownConcat(v, SpotsAt(own, offset, inner),
                  SpotsAll(v, b.children, offset + i.scrollY, Inner(v, scroll, offset, inner)));
    } else {
      CompileAllDraws(v, b.children, offset, inner);
      ShownAppend(v, i.own, kids, offset, inner);
      ShownConcat(v, SpotsAt(i.own, offset, inner), SpotsAll(v, b.children, offset, inner));
    }
  }

  lemma {:induction false} CompileAllDraws(v: View, bs: seq<Box>, offset: real, frames: seq<Frame>)
    ensures Shown(v, Drawn(v, CompileAll(bs), offset, frames)) == Shown(v, SpotsAll(v, bs, offset, frames))
    decreases bs, 0
  {
    if bs == [] {
      DrawnNone(v, offset, frames);
    } else {
      hide Shown, Drawn, Spots, Compile;
      var front, last := bs[..|bs| - 1], bs[|bs| - 1];
      CompileAllDraws(v, front, offset, frames);
      CompileDraws(v, last, offset, frames);
      DrawnConcat(v, CompileAll(front), Compile(last), offset, frames);
      ShownConcat(v, Drawn(v, CompileAll(front), offset, frames), Drawn(v, Compile(last), offset, frames));
      ShownConcat(v, SpotsAll(v, front, offset, frames), Spots(v, last, offset, frames));
    }
  }
}
