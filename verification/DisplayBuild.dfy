/** tai_display_list_create of src/render.c, with collect and walk_box.

    The list is built in one buffer. Three side stacks remember where clips, blends and blurs have
    begun; when an item is left its brackets are closed, or taken back when nothing came between.
    Compile says the same recursively: Build.Walk appends the list of its pictures, and the side
    stacks are as before.
*/
module DisplayBuild {
  import opened DisplayCommands

  datatype ItemKind = Document | Block | LineBox | TextBox | ImageBox | Input | Button

  /** What collect reads of a layout item; `element` says it belongs to an element and is not a
      wrapper, `own` are the commands of its own painting. */
  datatype Item = Item(
    kind: ItemKind, element: bool, node: nat, rect: Rect, radius: real, scrollY: real,
    overflowClips: bool, scrollable: bool,
    specialBlend: bool, opacity: real, mode: BlendMode, sigma: real,
    own: seq<Draw>)

  datatype Box = Box(item: Item, children: seq<Box>)

  predicate Clips(i: Item) {
    (i.kind.Block? || i.kind.Input? || i.kind.Button?) && i.element && i.overflowClips
  }

  predicate Scrolls(i: Item) {
    i.kind.Block? && i.scrollable
  }

  predicate Blends(i: Item) {
    i.element && (i.specialBlend || i.opacity < 1.0)
  }

  predicate Blurs(i: Item) {
    i.element && i.sigma > 0.0
  }

  function HitDraw(i: Item): Draw {
    Draw(HitTest, i.rect, i.radius, i.node)
  }

  function Leaves(draws: seq<Draw>): seq<Picture> {
    seq(|draws|, k requires 0 <= k < |draws| => Leaf(draws[k]))
  }

  /** An effect around nothing disappears. */
  function Around(active: bool, e: Effect, ps: seq<Picture>): seq<Picture> {
    if !active then ps else if ps == [] then [] else [Group(e, ps)]
  }

  /** A clip around nothing, or around a lone hit-test rectangle, disappears. */
  function Clipped(i: Item, ps: seq<Picture>): seq<Picture> {
    if !Clips(i) then ps
    else if |ps| == 1 && ps[0].Leaf? && ps[0].draw.kind == HitTest then ps
    else Around(true, Clip(i.rect, i.radius), ps)
  }

  /** What is drawn inside the clip and the blur of an item. */
  function Inside(i: Item, kids: seq<Picture>): seq<Picture> {
    Leaves(i.own) +
    if Clips(i) && Scrolls(i)
    then [Leaf(HitDraw(i))] + Around(true, ClipScroll(i.rect, i.scrollY), kids)
    else kids
  }

  function Compiled(i: Item, kids: seq<Picture>): seq<Picture> {
    var inside := Around(Blurs(i), Blur(i.sigma), Inside(i, kids));
    Around(Blends(i), Blend(i.opacity, i.mode), Clipped(i, inside))
  }

  function Compile(b: Box): seq<Picture>
    decreases b, 1
  {
    Compiled(b.item, CompileAll(b.children))
  }

  function CompileAll(bs: seq<Box>): seq<Picture>
    decreases bs, 0
  {
    if bs == [] then [] else CompileAll(bs[..|bs| - 1]) + Compile(bs[|bs| - 1])
  }

  datatype ClipStart = ClipStart(outer: nat, scrollStart: nat, scroll: bool)

  datatype Start = Start(start: nat, active: bool)

  /** The commands between an item's first command and its children's. */
  function Opening(i: Item): seq<Command> {
    Before(i) + Linear(Leaves(i.own)) +
    if Clips(i) && Scrolls(i) then [Paint(HitDraw(i)), Push(ClipScroll(i.rect, i.scrollY))] else []
  }

  function Before(i: Item): seq<Command> {
    (if Blends(i) then [Push(Blend(i.opacity, i.mode))] else []) +
    (if Clips(i) then [Push(Clip(i.rect, i.radius))] else []) +
    (if Blurs(i) then [Push(Blur(i.sigma))] else [])
  }

  function ClipAt(i: Item): nat {
    if Blends(i) then 1 else 0
  }

  function BlurAt(i: Item): nat {
    ClipAt(i) + if Clips(i) then 1 else 0
  }

  lemma {:induction false} LinearLeaves(draws: seq<Draw>)
    ensures |Linear(Leaves(draws))| == |draws|
    ensures forall k :: 0 <= k < |draws| ==> Linear(Leaves(draws))[k] == Paint(draws[k])
    decreases |draws|
  {
    if draws != [] {
      var front := draws[..|draws| - 1];
      LinearLeaves(front);
      assert Leaves(draws)[..|draws| - 1] == Leaves(front);
    }
  }

  /** Closing an effect: the bracket is completed, or its opening taken back. */
  lemma {:induction false} AroundLinear(e: Effect, ps: seq<Picture>)
    ensures Linear(Around(true, e, ps)) ==
      if Linear(ps) == [] then [] else [Push(e)] + Linear(ps) + [Pop(KindOf(e))]
  {
    LinearSize(ps);
    if ps != [] {
      LinearPush([], Group(e, ps));
      assert [] + [Group(e, ps)] == [Group(e, ps)];
    }
  }

  class Build {
    var items: seq<Command>
    var clipStarts: seq<ClipStart>
    var blendStarts: seq<Start>
    var blurStarts: seq<Start>
    var failed: bool

    constructor ()
      ensures items == [] && clipStarts == [] && blendStarts == [] && blurStarts == [] && !failed
    {
      items, clipStarts, blendStarts, blurStarts, failed := [], [], [], [], false;
    }

    method Append(c: Command)
      modifies `items
      ensures items == old(items) + [c]
    {
      items := items + [c];
    }

    method MakeOwn(draws: seq<Draw>)
      modifies `items
      ensures items == old(items) + Linear(Leaves(draws))
    {
      LinearLeaves(draws);
      for k := 0 to |draws|
        invariant items == old(items) + Linear(Leaves(draws))[..k]
      {
        Append(Paint(draws[k]));
      }
    }

    method EnterBlend(i: Item)
      modifies `items, `blendStarts
      ensures blendStarts == old(blendStarts) + [Start(|old(items)|, Blends(i))]
      ensures items == old(items) + if Blends(i) then [Push(Blend(i.opacity, i.mode))] else []
    {
      var blend := Start(|items|, false);
      if i.element {
        blend := Start(|items|, i.specialBlend || i.opacity < 1.0);
        if blend.active {
          Append(Push(Blend(i.opacity, i.mode)));
        }
      }
      blendStarts := blendStarts + [blend];
    }

    method EnterBlur(i: Item)
      modifies `items, `blurStarts
      ensures blurStarts == old(blurStarts) + [Start(|old(items)|, Blurs(i))]
      ensures items == old(items) + if Blurs(i) then [Push(Blur(i.sigma))] else []
    {
      var blur := Start(|items|, false);
      if i.element {
        blur := Start(|items|, i.sigma > 0.0);
        if blur.active {
          Append(Push(Blur(i.sigma)));
        }
      }
      blurStarts := blurStarts + [blur];
    }

    method EnterScroll(i: Item) returns (scrollStart: nat)
      modifies `items
      ensures scrollStart == |old(items)| + 1
      ensures items == old(items) + [Paint(HitDraw(i)), Push(ClipScroll(i.rect, i.scrollY))]
    {
      Append(Paint(HitDraw(i)));
      scrollStart := |items|;
      Append(Push(ClipScroll(i.rect, i.scrollY)));
    }

    /** The side stacks are those of the state before plus one entry for i. */
    ghost predicate Pushed(i: Item, base: nat, clips: seq<ClipStart>, blends: seq<Start>, blurs: seq<Start>)
      reads this
    {
      && blendStarts == blends + [Start(base, Blends(i))]
      && blurStarts == blurs + [Start(base + BlurAt(i), Blurs(i))]
      && if Clips(i) then
           clipStarts == clips + [ClipStart(base + ClipAt(i),
                                            if Scrolls(i) then base + |Before(i)| + |i.own| + 1 else 0,
                                            Scrolls(i))]
         else clipStarts == clips
    }

    /** What comes before the drawings of the box itself. */
    method EnterBefore(i: Item) returns (clip: ClipStart, clipped: bool)
      modifies `items, `blendStarts, `blurStarts
      ensures items == old(items) + Before(i)
      ensures clipped == Clips(i)
      ensures clip == if clipped then ClipStart(|old(items)| + ClipAt(i), 0, Scrolls(i)) else ClipStart(0, 0, false)
      ensures blendStarts == old(blendStarts) + [Start(|old(items)|, Blends(i))]
      ensures blurStarts == old(blurStarts) + [Start(|old(items)| + BlurAt(i), Blurs(i))]
    {
      EnterBlend(i);
      clip, clipped := ClipStart(0, 0, false), Clips(i);
      if clipped {
        clip := ClipStart(|items|, 0, Scrolls(i));
        Append(Push(Clip(i.rect, i.radius)));
      }
      EnterBlur(i);
    }

    /** collect on TAI_LAYOUT_ENTER. */
    method Enter(i: Item) returns (ok: bool)
      requires !failed
      modifies this
      ensures ok && !failed
      ensures items == old(items) + Opening(i)
      ensures Pushed(i, |old(items)|, old(clipStarts), old(blendStarts), old(blurStarts))
    {
      hide Linear, Leaves, Before, Blends, Blurs, BlurAt, ClipAt;
      LinearLeaves(i.own);
      var clip, clipped := EnterBefore(i);
      MakeOwn(i.own);
      if clipped {
        if clip.scroll {
          var scrollStart := EnterScroll(i);
          clip := ClipStart(clip.outer, scrollStart, true);
        }
        clipStarts := clipStarts + [clip];
        return true;
      }
      ok := !failed;
    }

    /** Ends the scrolled part of an item. */
    method LeaveScroll(i: Item, ghost before: seq<Command>, ghost kids: seq<Picture>)
      requires clipStarts != [] && clipStarts[|clipStarts| - 1].scroll
      requires clipStarts[|clipStarts| - 1].scrollStart == |before|
      requires items == before + [Push(ClipScroll(i.rect, i.scrollY))] + Linear(kids)
      modifies `items
      ensures items == before + Linear(Around(true, ClipScroll(i.rect, i.scrollY), kids))
    {
      hide Linear;
      AroundLinear(ClipScroll(i.rect, i.scrollY), kids);
      if |items| == clipStarts[|clipStarts| - 1].scrollStart + 1 {
        items := items[..|items| - 1];
      } else {
        Append(Pop(ClipScrollKind));
      }
    }

    /** Ends an effect whose bracket begins at start.start. */
    method LeaveEffect(start: Start, ghost e: Effect, kind: EffectKind,
                       ghost base: seq<Command>, ghost ps: seq<Picture>)
      requires kind == KindOf(e) && start.start == |base|
      requires items == base + (if start.active then [Push(e)] else []) + Linear(ps)
      modifies `items
      ensures items == base + Linear(Around(start.active, e, ps))
    {
      hide Linear;
      AroundLinear(e, ps);
      if start.active {
        if |items| == start.start + 1 {
          items := items[..start.start];
        } else {
          Append(Pop(kind));
        }
      }
    }

    /** Ends a clip whose bracket begins at start.outer. */
    method LeaveClip(i: Item, start: ClipStart, ghost base: seq<Command>, ghost ps: seq<Picture>)
      requires Clips(i) && start.outer == |base|
      requires items == base + [Push(Clip(i.rect, i.radius))] + Linear(ps)
      modifies `items
      ensures items == base + Linear(Clipped(i, ps))
    {
      hide Linear;
      LinearSize(ps);
      AroundLinear(Clip(i.rect, i.radius), ps);
      if |ps| == 1 && ps[0].Leaf? {
        LoneLeaf(ps);
      }
      if |items| == start.outer + 1 {
        items := items[..start.outer];
      } else if |items| == start.outer + 2 && items[start.outer + 1].Paint? &&
                items[start.outer + 1].draw.kind == HitTest {
        items := items[start.outer := items[start.outer + 1]];
        items := items[..start.outer + 1];
      } else {
        Append(Pop(ClipKind));
      }
    }

    /** The clip half of LEAVE: its scrolled part ends before the blur does. */
    method LeaveInside(i: Item, ghost base: seq<Command>, ghost kids: seq<Picture>) returns (ok: bool)
      requires !failed
      requires items == base + Opening(i) + Linear(kids)
      requires Clips(i) && clipStarts != [] ==>
        clipStarts[|clipStarts| - 1].scroll == Scrolls(i) &&
        (Scrolls(i) ==> clipStarts[|clipStarts| - 1].scrollStart == |base| + |Before(i)| + |i.own| + 1)
      modifies `items, `failed
      ensures ok == !failed && ok == !(Clips(i) && clipStarts == [])
      ensures ok ==> items == base + Before(i) + Linear(Inside(i, kids))
    {
      hide Linear, Leaves, Before, Inside;
      InsideLinear(i, kids);
      LinearLeaves(i.own);
      if Clips(i) {
        if |clipStarts| == 0 {
          failed := true;
          return false;
        }
        var pending := clipStarts[|clipStarts| - 1];
        if pending.scroll {
          LeaveScroll(i, base + Before(i) + Linear(Leaves(i.own)) + [Paint(HitDraw(i))], kids);
        }
      }
      ok := true;
    }

    method LeaveBlur(i: Item, ghost base: seq<Command>, ghost ps: seq<Picture>) returns (ok: bool)
      requires !failed
      requires blurStarts != [] ==> blurStarts[|blurStarts| - 1] == Start(|base|, Blurs(i))
      requires items == base + (if Blurs(i) then [Push(Blur(i.sigma))] else []) + Linear(ps)
      modifies `items, `blurStarts, `failed
      ensures ok == !failed && ok == (old(blurStarts) != [])
      ensures ok ==> items == base + Linear(Around(Blurs(i), Blur(i.sigma), ps))
      ensures ok ==> blurStarts == old(blurStarts)[..|old(blurStarts)| - 1]
    {
      if |blurStarts| == 0 {
        failed := true;
        return false;
      }
      var blur := blurStarts[|blurStarts| - 1];
      blurStarts := blurStarts[..|blurStarts| - 1];
      LeaveEffect(blur, Blur(i.sigma), BlurKind, base, ps);
      ok := true;
    }

    method LeaveBlend(i: Item, ghost base: seq<Command>, ghost ps: seq<Picture>) returns (ok: bool)
      requires !failed
      requires blendStarts != [] ==> blendStarts[|blendStarts| - 1] == Start(|base|, Blends(i))
      requires items == base + (if Blends(i) then [Push(Blend(i.opacity, i.mode))] else []) + Linear(ps)
      modifies `items, `blendStarts, `failed
      ensures ok == !failed && ok == (old(blendStarts) != [])
      ensures ok ==> items == base + Linear(Around(Blends(i), Blend(i.opacity, i.mode), ps))
      ensures ok ==> blendStarts == old(blendStarts)[..|old(blendStarts)| - 1]
    {
      if |blendStarts| == 0 {
        failed := true;
        return false;
      }
      var blend := blendStarts[|blendStarts| - 1];
      blendStarts := blendStarts[..|blendStarts| - 1];
      LeaveEffect(blend, Blend(i.opacity, i.mode), BlendKind, base, ps);
      ok := true;
    }

    /** collect on TAI_LAYOUT_LEAVE, for an item whose children drew kids. */
    method Leave(i: Item, ghost base: seq<Command>, ghost kids: seq<Picture>,
                 ghost clips: seq<ClipStart>, ghost blends: seq<Start>, ghost blurs: seq<Start>)
      returns (ok: bool)
      requires !failed
      requires Pushed(i, |base|, clips, blends, blurs)
      requires items == base + Opening(i) + Linear(kids)
      modifies this
      ensures ok && !failed
      ensures items == base + Linear(Compiled(i, kids))
      ensures clipStarts == clips && blendStarts == blends && blurStarts == blurs
    {
      hide Linear, Leaves, Inside, Opening, Around, Clipped;
      ghost var inside := Inside(i, kids);
      ok := LeaveInside(i, base, kids);
      if !ok {
        return;
      }
      ghost var clipBase := base + if Blends(i) then [Push(Blend(i.opacity, i.mode))] else [];
      ghost var blurBase := clipBase + if Clips(i) then [Push(Clip(i.rect, i.radius))] else [];
      ok := LeaveBlur(i, blurBase, inside);
      if !ok {
        return;
      }
      ghost var blurred := Around(Blurs(i), Blur(i.sigma), inside);
      if Clips(i) {
        var start := clipStarts[|clipStarts| - 1];
        clipStarts := clipStarts[..|clipStarts| - 1];
        LeaveClip(i, start, clipBase, blurred);
      } else {
        NotClipped(i, blurred);
      }
      ok := LeaveBlend(i, base, Clipped(i, blurred));
    }

    /** walk_box: whatever was open before stays as it was. */
    method Walk(b: Box) returns (ok: bool)
      requires !failed
      modifies this
      ensures ok && !failed
      ensures items == old(items) + Linear(Compile(b))
      ensures clipStarts == old(clipStarts) && blendStarts == old(blendStarts) && blurStarts == old(blurStarts)
      decreases b
    {
      hide Linear, Leaves, Compiled;
      ok := Enter(b.item);
      if !ok {
        return;
      }
      ghost var clips, blends, blurs := clipStarts, blendStarts, blurStarts;
      ghost var before := items;
      var k := 0;
      CompileNone();
      while k < |b.children|
        invariant k <= |b.children| && !failed
        invariant items == before + Linear(CompileAll(b.children[..k]))
        invariant clipStarts == clips && blendStarts == blends && blurStarts == blurs
      {
        assert b.children[..k + 1][..k] == b.children[..k];
        LinearConcat(CompileAll(b.children[..k]), Compile(b.children[k]));
        ok := Walk(b.children[k]);
        if !ok {
          return;
        }
        k := k + 1;
      }
      assert b.children[..k] == b.children;
      ok := Leave(b.item, old(items), CompileAll(b.children), old(clipStarts), old(blendStarts), old(blurStarts));
    }
  }

  lemma {:induction false} CompileNone()
    ensures CompileAll([]) == [] && Linear(CompileAll([])) == []
  {
  }

  lemma {:induction false} NotClipped(i: Item, ps: seq<Picture>)
    requires !Clips(i)
    ensures Clipped(i, ps) == ps
  {
  }

  lemma {:induction false} LoneLeaf(ps: seq<Picture>)
    requires |ps| == 1 && ps[0].Leaf?
    ensures Linear(ps) == [Paint(ps[0].draw)]
  {
  }

  lemma {:induction false} InsideLinear(i: Item, kids: seq<Picture>)
    ensures Linear(Inside(i, kids)) == Linear(Leaves(i.own)) +
      if Clips(i) && Scrolls(i)
      then [Paint(HitDraw(i))] + Linear(Around(true, ClipScroll(i.rect, i.scrollY), kids))
      else Linear(kids)
  {
    hide Leaves, Around;
    var rest := Around(true, ClipScroll(i.rect, i.scrollY), kids);
    var hit := [Leaf(HitDraw(i))];
    if Clips(i) && Scrolls(i) {
      LoneLeaf(hit);
      LinearConcat(hit, rest);
      LinearConcat(Leaves(i.own), hit + rest);
    } else {
      LinearConcat(Leaves(i.own), kids);
    }
  }

  /** tai_display_list_create: every layout tree compiles, and leaves no side stack open. */
  method CreateDisplayList(root: Box) returns (ok: bool, list: seq<Command>)
    ensures ok && list == Linear(Compile(root))
  {
    var build := new Build();
    ok := build.Walk(root);
    list := [];
    if !ok || build.failed || |build.clipStarts| > 0 || |build.blendStarts| > 0 || |build.blurStarts| > 0 {
      return false, [];
    }
    list := build.items;
  }
}
