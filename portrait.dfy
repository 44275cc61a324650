/** The strategy for vertical-category charts (line, area, column): the
    category axis is horizontal and values grow upwards. */
module PortraitStrategy {
  import opened Plane
  import opened Host
  import opened Connector

  /** `initSourceTargetPoints`: x from the x axis, y from the y axis. */
  function Position(p: Point): Pt {
    Pt(p.series.xAxis.toPixels(p.x), p.series.yAxis.toPixels(p.y))
  }

  /** `initBetweenLinePoints`: B sits `offset` pixels straight above A, C
      straight above or below D at B's height, so the bridge B-C is
      horizontal. */
  function BetweenLine(higher: Pt, lower: Pt, offset: real): (r: Anchors)
    ensures r.higher == higher && r.lower == lower
    ensures Vertical(higher, r.higherEnd) && higher.y - r.higherEnd.y == offset
    ensures Horizontal(r.higherEnd, r.lowerEnd) && Vertical(r.lowerEnd, lower)
  {
    var b := Pt(higher.x, higher.y - offset);
    Anchors(higher, b, Pt(lower.x, b.y), lower)
  }

  /** `getBetweenLineCenter`: halfway between the two points horizontally,
      `textOffset` pixels above the bridge. */
  function BetweenLineCenter(source: Pt, target: Pt, higherEnd: Pt, textOffset: real): (c: Pt)
    ensures c.x == (source.x + target.x) / 2.0
    ensures higherEnd.y - c.y == textOffset
  {
    var leftX := if source.x < target.x then source.x else target.x;
    Pt(leftX + Abs(target.x - source.x) / 2.0, higherEnd.y - textOffset)
  }

  /** `getTextPoint`: the label is centred horizontally on the centre point. */
  function TextPoint(center: Pt, box: BBox): (r: Pt)
    ensures r.x + box.width / 2.0 == center.x
    ensures Horizontal(r, center)
  {
    Pt(center.x - box.width / 2.0, center.y)
  }

  /** `drawDirectionDecoration`: a horizontal tick of half-length `d` centred
      on the source, and at the target an arrow whose arms rise `d` pixels to
      the left and to the right, so that it points down at the target. */
  function Decorate(source: Pt, target: Pt, d: real): (r: Marks)
    ensures r.tick.tip == source && r.arrow.tip == target
    ensures Horizontal(r.tick.arm1, source) && Horizontal(r.tick.arm2, source)
    ensures r.tick.arm1.x + r.tick.arm2.x == 2.0 * source.x
    ensures r.tick.arm2.x - r.tick.arm1.x == 2.0 * d
    ensures Horizontal(r.arrow.arm1, r.arrow.arm2) && target.y - r.arrow.arm1.y == d
    ensures r.arrow.arm1.x + r.arrow.arm2.x == 2.0 * target.x
    ensures r.arrow.arm2.x - r.arrow.arm1.x == 2.0 * d
  {
    Marks(Mark(source, Pt(source.x - d, source.y), Pt(source.x + d, source.y)),
          Mark(target, Pt(target.x - d, target.y - d), Pt(target.x + d, target.y - d)))
  }
}
