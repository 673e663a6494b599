/** What a layout tree shows and where, spelled out along the boxes around each drawing. */
module DisplayGeometry {
  import opened DisplayCommands
  import opened DisplayBuild
  import opened DisplayMeaning

  /** A drawing with the items of the boxes it lies in, the outermost first, its own last. */
  datatype Mark = Mark(draw: Draw, chain: seq<Item>)

  /** A block that clips its overflow and scrolls it. */
  predicate Scroller(i: Item) {
    i.kind == Block && i.element && i.overflowClips && i.scrollable
  }

  /** The drawings of a tree in paint order: a box's own, the hit-test rectangle of a scroller, then
      the children's. */
  function Marks(b: Box, above: seq<Item>): seq<Mark>
    decreases b, 1
  {
    var i, chain := b.item, above + [b.item];
    seq(|i.own|, k requires 0 <= k < |i.own| => Mark(i.own[k], chain)) +
    (if Scroller(i) then [Mark(Draw(HitTest, i.rect, i.radius, i.node), chain)] else []) +
    MarksAll(b.children, chain)
  }

  function MarksAll(bs: seq<Box>, above: seq<Item>): seq<Mark>
    decreases bs, 0
  {
    if bs == [] then [] else MarksAll(bs[..|bs| - 1], above) + Marks(bs[|bs| - 1], above)
  }

  /** How far the scrollers among the items have scrolled what is in them. */
  function Scrolled(chain: seq<Item>): real
    decreases |chain|
  {
    if chain == [] then 0.0
    else
      var last := chain[|chain| - 1];
      Scrolled(chain[..|chain| - 1]) + if Scroller(last) then last.scrollY else 0.0
  }

  /** The effects of one item on its own drawings, the outermost first. */
  function EffectsOf(i: Item): seq<Effect> {
    (if i.element && (i.specialBlend || i.opacity < 1.0) then [Blend(i.opacity, i.mode)] else []) +
    (if (i.kind == Block || i.kind == Input || i.kind == Button) && i.element && i.overflowClips
     then [Clip(i.rect, i.radius)] else []) +
    (if i.element && i.sigma > 0.0 then [Blur(i.sigma)] else [])
  }

  function Framed(effects: seq<Effect>, offset: real): seq<Frame> {
    seq(|effects|, k requires 0 <= k < |effects| => Frame(effects[k], offset))
  }

  /** The effects on what lies in all the items, each with the scroll offset it is itself under. For
      hit testing only those of scrollers count. */
  function Entered(v: View, chain: seq<Item>): seq<Frame>
    decreases |chain|, 1
  {
    if chain == [] then []
    else
      var outer, i := chain[..|chain| - 1], chain[|chain| - 1];
      OwnFrames(v, chain) + if Scroller(i) then [Frame(ClipScroll(i.rect, i.scrollY), Scrolled(outer))] else []
  }

  /** The effects on the last item's own drawings. */
  function OwnFrames(v: View, chain: seq<Item>): seq<Frame>
    requires chain != []
    decreases |chain|, 0
  {
    var outer, i := chain[..|chain| - 1], chain[|chain| - 1];
    Entered(v, outer) + if v.Painting? then Framed(EffectsOf(i), Scrolled(outer)) else []
  }

  function SpotOf(v: View, m: Mark): Spot
    requires m.chain != []
  {
    Spot(m.draw, Scrolled(m.chain[..|m.chain| - 1]), OwnFrames(v, m.chain))
  }

  predicate Placed(ms: seq<Mark>) {
    forall k :: 0 <= k < |ms| ==> ms[k].chain != []
  }

  function SpotsOf(v: View, ms: seq<Mark>): (r: seq<Spot>)
    requires Placed(ms)
    ensures |r| == |ms|
  {
    seq(|ms|, k requires 0 <= k < |ms| => SpotOf(v, ms[k]))
  }

  // ----- The meaning of the tree is this -----

  lemma {:induction false} MarksPlaced(b: Box, above: seq<Item>)
    ensures Placed(Marks(b, above))
    decreases b, 1
  {
    MarksAllPlaced(b.children, above + [b.item]);
  }

  lemma {:induction false} MarksAllPlaced(bs: seq<Box>, above: seq<Item>)
    ensures Placed(MarksAll(bs, above))
    decreases bs, 0
  {
    if bs != [] {
      MarksAllPlaced(bs[..|bs| - 1], above);
      MarksPlaced(bs[|bs| - 1], above);
    }
  }

  /** What the effects of an item add, view by view. */
  lemma {:induction false} EffectsAdd(v: View, i: Item, offset: real, frames: seq<Frame>)
    ensures Around3(v, i, offset, frames) == frames + if v.Painting? then Framed(EffectsOf(i), offset) else []
  {
    if v.Painting? {
      var blend := if Blends(i) then [Blend(i.opacity, i.mode)] else [];
      var clip := if Clips(i) then [Clip(i.rect, i.radius)] else [];
      var blur := if Blurs(i) then [Blur(i.sigma)] else [];
      assert EffectsOf(i) == blend + clip + blur;
      FramedMore(frames, blend, offset);
      FramedMore(frames + Framed(blend, offset), clip, offset);
      FramedMore(frames + Framed(blend, offset) + Framed(clip, offset), blur, offset);
      FramedJoin(blend, clip, offset);
      FramedJoin(blend + clip, blur, offset);
      hide EffectsOf;
      assert frames + Framed(blend, offset) + Framed(clip, offset) + Framed(blur, offset) ==
        frames + (Framed(blend, offset) + Framed(clip, offset) + Framed(blur, offset));
    } else {
      assert frames + [] == frames;
    }
  }

  lemma {:induction false} FramedMore(frames: seq<Frame>, effects: seq<Effect>, offset: real)
    requires |effects| <= 1
    ensures frames + Framed(effects, offset) == if effects == [] then frames else frames + [Frame(effects[0], offset)]
  {
  }

  lemma {:induction false} FramedJoin(a: seq<Effect>, b: seq<Effect>, offset: real)
    ensures Framed(a + b, offset) == Framed(a, offset) + Framed(b, offset)
  {
  }

  lemma {:induction false} OneMore(v: View, above: seq<Item>, i: Item)
    ensures var chain := above + [i];
      && OwnFrames(v, chain) == Around3(v, i, Scrolled(above), Entered(v, above))
      && Entered(v, chain) ==
           OwnFrames(v, chain) + (if Scroller(i) then [Frame(ClipScroll(i.rect, i.scrollY), Scrolled(above))] else [])
      && Scrolled(chain) == Scrolled(above) + if Scroller(i) then i.scrollY else 0.0
  {
    assert (above + [i])[..|above|] == above;
    EffectsAdd(v, i, Scrolled(above), Entered(v, above));
    hide Around3, EffectsOf;
  }

  lemma {:induction false} SpotsJoin(v: View, a: seq<Mark>, b: seq<Mark>)
    requires Placed(a) && Placed(b)
    ensures Placed(a + b) && SpotsOf(v, a + b) == SpotsOf(v, a) + SpotsOf(v, b)
  {
    hide SpotOf;
  }

  lemma {:induction false} OwnSpots(v: View, draws: seq<Draw>, above: seq<Item>, i: Item)
    ensures var own := seq(|draws|, k requires 0 <= k < |draws| => Mark(draws[k], above + [i]));
      Placed(own) && SpotsOf(v, own) == SpotsAt(draws, Scrolled(above), OwnFrames(v, above + [i]))
  {
    assert (above + [i])[..|above|] == above;
    hide OwnFrames, Scrolled;
  }

  /** The spots of a layout tree are its marks, each at the scroll offset and inside the effects of the
      boxes around it. */
  lemma {:induction false} SpotsAre(v: View, b: Box, above: seq<Item>)
    ensures Placed(Marks(b, above))
    ensures Spots(v, b, Scrolled(above), Entered(v, above)) == SpotsOf(v, Marks(b, above))
    decreases b, 1
  {
    MarksPlaced(b, above);
    MarksAllPlaced(b.children, above + [b.item]);
    var i, chain := b.item, above + [b.item];
    var draws := i.own + if Scroller(i) then [Draw(HitTest, i.rect, i.radius, i.node)] else [];
    var own := seq(|draws|, k requires 0 <= k < |draws| => Mark(draws[k], chain));
    assert own == seq(|i.own|, k requires 0 <= k < |i.own| => Mark(i.own[k], chain)) +
      if Scroller(i) then [Mark(Draw(HitTest, i.rect, i.radius, i.node), chain)] else [];
    assert Marks(b, above) == own + MarksAll(b.children, chain);
    assert Scroller(i) <==> Clips(i) && Scrolls(i);
    assert i.own + [] == i.own;
    OneMore(v, above, i);
    OwnSpots(v, draws, above, i);
    SpotsAllAre(v, b.children, chain);
    hide SpotsOf, SpotsAt, SpotsAll, MarksAll, OwnFrames, Entered, Scrolled, Around3, Marks, Scroller, Clips, Scrolls;
    SpotsJoin(v, own, MarksAll(b.children, chain));
    assert OwnFrames(v, chain) + [] == OwnFrames(v, chain);
    assert Scrolled(above) + 0.0 == Scrolled(above);
  }

  lemma {:induction false} SpotsAllAre(v: View, bs: seq<Box>, above: seq<Item>)
    ensures Placed(MarksAll(bs, above))
    ensures SpotsAll(v, bs, Scrolled(above), Entered(v, above)) == SpotsOf(v, MarksAll(bs, above))
    decreases bs, 0
  {
    MarksAllPlaced(bs, above);
    if bs != [] {
      var front, last := bs[..|bs| - 1], bs[|bs| - 1];
      SpotsAllAre(v, front, above);
      SpotsAre(v, last, above);
      hide SpotsOf, Spots, Marks, Entered, Scrolled, Placed;
      SpotsJoin(v, MarksAll(front, above), Marks(last, above));
    }
  }
}
