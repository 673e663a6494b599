/** The display list of src/render.c.

    A layout tree is compiled to one flat list of drawing commands and effect brackets. The hit test
    reads it backwards and the replay runs it. Here are the commands, the pictures they nest to, and
    the flat list of a picture.
*/
module DisplayCommands {

  datatype Rect = Rect(x: real, y: real, width: real, height: real)

  datatype DrawKind = FillRect | DrawText | DrawImage | HitTest | StrokeRect | DrawLine

  datatype Draw = Draw(kind: DrawKind, rect: Rect, hitRadius: real, node: nat)

  datatype BlendMode = SourceOver | Multiply | Difference | DestinationIn

  datatype Effect =
    | Clip(rect: Rect, radius: real)
    | ClipScroll(rect: Rect, scrollY: real)
    | Blend(opacity: real, mode: BlendMode)
    | Blur(sigma: real)

  datatype EffectKind = ClipKind | ClipScrollKind | BlendKind | BlurKind

  function KindOf(e: Effect): EffectKind {
    match e
    case Clip(_, _) => ClipKind
    case ClipScroll(_, _) => ClipScrollKind
    case Blend(_, _) => BlendKind
    case Blur(_) => BlurKind
  }

  datatype Command = Paint(draw: Draw) | Push(effect: Effect) | Pop(kind: EffectKind)

  /** A display list read as a forest: what is drawn inside which effect. */
  datatype Picture = Leaf(draw: Draw) | Group(effect: Effect, body: seq<Picture>)

  function LinearOne(p: Picture): seq<Command>
    decreases p, 1
  {
    match p
    case Leaf(draw) => [Paint(draw)]
    case Group(effect, body) => [Push(effect)] + Linear(body) + [Pop(KindOf(effect))]
  }

  /** The commands of a forest, each effect bracketed. */
  function Linear(ps: seq<Picture>): seq<Command>
    decreases ps, 0
  {
    if ps == [] then [] else Linear(ps[..|ps| - 1]) + LinearOne(ps[|ps| - 1])
  }

  lemma {:induction false} LinearPush(ps: seq<Picture>, p: Picture)
    ensures Linear(ps + [p]) == Linear(ps) + LinearOne(p)
  {
    assert (ps + [p])[..|ps|] == ps;
  }

  lemma {:induction false} LinearNone()
    ensures Linear([]) == []
  {
  }

  lemma {:induction false} LinearConcat(ps: seq<Picture>, qs: seq<Picture>)
    ensures Linear(ps + qs) == Linear(ps) + Linear(qs)
    decreases |qs|
  {
    hide *;
    if qs == [] {
      LinearNone();
      assert ps + qs == ps;
    } else {
      var front, last := qs[..|qs| - 1], qs[|qs| - 1];
      LinearConcat(ps, front);
      LinearPush(ps + front, last);
      LinearPush(front, last);
      assert ps + qs == (ps + front) + [last];
      assert qs == front + [last];
      assert (Linear(ps) + Linear(front)) + LinearOne(last) == Linear(ps) + (Linear(front) + LinearOne(last));
    }
  }

  /** The list of a forest is empty only for the empty forest, and is one command only for a
      forest of one leaf. */
  lemma {:induction false} LinearSize(ps: seq<Picture>)
    ensures |Linear(ps)| >= |ps|
    ensures |Linear(ps)| == 1 ==> |ps| == 1 && ps[0].Leaf? && Linear(ps) == [Paint(ps[0].draw)]
    decreases |ps|
  {
    if ps != [] {
      LinearSize(ps[..|ps| - 1]);
    }
  }
}
