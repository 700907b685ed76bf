/** The vector overlay a screenshot's annotations are drawn as: one glyph per
    annotation of a known style, laid out around the annotated point with
    fixed offsets (src/screenshot-manager.ts, `addAnnotations`). */
module Annotations {
  import opened Common

  /** An annotation as the caller supplies it; `style` is free text, since
      nothing validates it before drawing. */
  datatype Annotation = Annotation(x: int, y: int, text: string, style: string, color: Option<string>)

  datatype Point = Point(x: int, y: int)

  /** A text label; `centred` is a middle text anchor, otherwise the text
      starts at the point. */
  datatype Label = Label(at: Point, text: string, centred: bool)

  datatype Glyph =
    | Arrow(tail: Point, tip: Point, caption: Label, color: string)
    | Ring(centre: Point, radius: nat, caption: Label, color: string)
    | Box(corner: Point, width: nat, height: nat, caption: Label, color: string)

  /** The overlay layer: as large as the image it is composited onto. */
  datatype Overlay = Overlay(width: nat, height: nat, glyphs: seq<Glyph>)

  const DefaultColor := "red"

  predicate KnownStyle(style: string) {
    style == "arrow" || style == "circle" || style == "box"
  }

  /** The point a glyph marks: an arrow's tip, a ring's or a box's centre. */
  function Anchor(g: Glyph): Point {
    match g
    case Arrow(_, tip, _, _) => tip
    case Ring(centre, _, _, _) => centre
    case Box(corner, w, h, _, _) => Point(corner.x + w / 2, corner.y + h / 2)
  }

  /** The label is clear of the drawn shape, above and (for an arrow) to the
      left of it. */
  predicate LabelClear(g: Glyph) {
    match g
    case Arrow(tail, _, caption, _) => caption.at.x < tail.x && caption.at.y < tail.y
    case Ring(centre, r, caption, _) => caption.at.x == centre.x && caption.at.y < centre.y - r
    case Box(corner, w, _, caption, _) => caption.at.x == corner.x + w / 2 && caption.at.y < corner.y
  }

  /** The glyph one annotation draws; an unknown style draws nothing. */
  function GlyphFor(a: Annotation): (g: Option<Glyph>)
    ensures g.Some? <==> KnownStyle(a.style)
    ensures g.Some? ==> Anchor(g.value) == Point(a.x, a.y)
    ensures g.Some? ==> LabelClear(g.value) && g.value.caption.text == a.text
    ensures g.Some? ==> g.value.color == a.color.GetOr(DefaultColor)
    ensures a.style == "arrow" ==>
              g.value.Arrow? && g.value.tail == Point(a.x - 50, a.y - 50) &&
              g.value.caption.at == Point(a.x - 55, a.y - 55) && !g.value.caption.centred
    ensures a.style == "circle" ==>
              g.value.Ring? && g.value.radius == 30 &&
              g.value.caption.at == Point(a.x, a.y - 40) && g.value.caption.centred
    ensures a.style == "box" ==>
              g.value.Box? && g.value.width == 60 && g.value.height == 40 &&
              g.value.caption.at == Point(a.x, a.y - 30) && g.value.caption.centred
  {
    var color := a.color.GetOr(DefaultColor);
    if a.style == "arrow" then
      Some(Arrow(Point(a.x - 50, a.y - 50), Point(a.x, a.y), Label(Point(a.x - 55, a.y - 55), a.text, false), color))
    else if a.style == "circle" then
      Some(Ring(Point(a.x, a.y), 30, Label(Point(a.x, a.y - 40), a.text, true), color))
    else if a.style == "box" then
      Some(Box(Point(a.x - 30, a.y - 20), 60, 40, Label(Point(a.x, a.y - 30), a.text, true), color))
    else
      None
  }

  /** `annotations.map(...).join('')`: the glyphs of the annotations in order. */
  function GlyphsFor(anns: seq<Annotation>): (gs: seq<Glyph>)
    ensures |gs| <= |anns|
  {
    if anns == [] then []
    else
      match GlyphFor(anns[0])
      case Some(g) => [g] + GlyphsFor(anns[1..])
      case None => GlyphsFor(anns[1..])
  }

  /** Drawing a list of annotations draws the two halves one after the other. */
  lemma {:induction false} GlyphsForAppend(a: seq<Annotation>, b: seq<Annotation>)
    ensures GlyphsFor(a + b) == GlyphsFor(a) + GlyphsFor(b)
  {
    if a == [] {
      assert a + b == b;
    } else {
      assert (a + b)[0] == a[0];
      assert (a + b)[1..] == a[1..] + b;
      GlyphsForAppend(a[1..], b);
    }
  }

  /** Each annotation of a known style draws exactly one glyph. */
  lemma {:induction false} GlyphsForKnown(anns: seq<Annotation>)
    requires forall i :: 0 <= i < |anns| ==> KnownStyle(anns[i].style)
    ensures |GlyphsFor(anns)| == |anns|
    ensures forall i :: 0 <= i < |anns| ==> GlyphsFor(anns)[i] == GlyphFor(anns[i]).value
  {
    if anns != [] {
      GlyphsForKnown(anns[1..]);
    }
  }

  /** Annotations of unknown styles contribute nothing to the overlay. */
  lemma {:induction false} GlyphsForUnknown(anns: seq<Annotation>)
    requires forall i :: 0 <= i < |anns| ==> !KnownStyle(anns[i].style)
    ensures GlyphsFor(anns) == []
  {
    if anns != [] {
      GlyphsForUnknown(anns[1..]);
    }
  }

  /** The overlay for an image of the given size: every glyph the
      annotations draw, in the order of the annotations. */
  function OverlayFor(width: nat, height: nat, anns: seq<Annotation>): (o: Overlay)
    ensures o.width == width && o.height == height
    ensures o.glyphs == GlyphsFor(anns)
    ensures forall g :: g in o.glyphs ==> LabelClear(g)
  {
    GlyphsClear(anns);
    Overlay(width, height, GlyphsFor(anns))
  }

  lemma {:induction false} GlyphsClear(anns: seq<Annotation>)
    ensures forall g :: g in GlyphsFor(anns) ==> LabelClear(g)
  {
    if anns != [] {
      GlyphsClear(anns[1..]);
    }
  }
}
