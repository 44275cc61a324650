/** The strategy for horizontal-category charts (bar, inverted charts): the
    category axis is vertical and values grow to the right. */
module LandscapeStrategy {
  import opened Plane
  import opened Host
  import opened Connector
  import PortraitStrategy

  /** `initSourceTargetPoints`: the axes swap roles, x from the y axis and y
      from the x axis. */
  function Position(p: Point): Pt {
    Pt(p.series.yAxis.toPixels(p.y), p.series.xAxis.toPixels(p.x))
  }

  /** A point's landscape position is its portrait position mirrored in the
      diagonal. */
  lemma PositionSwapsAxes(p: Point)
    ensures Position(p).x == PortraitStrategy.Position(p).y
    ensures Position(p).y == PortraitStrategy.Position(p).x
  {
  }

  /** `initBetweenLinePoints`: B sits `offset` pixels to the right of A, C at
      B's x level with D, so the bridge B-C is vertical. */
  function BetweenLine(higher: Pt, lower: Pt, offset: real): (r: Anchors)
    ensures r.higher == higher && r.lower == lower
    ensures Horizontal(higher, r.higherEnd) && r.higherEnd.x - higher.x == offset
    ensures Vertical(r.higherEnd, r.lowerEnd) && Horizontal(r.lowerEnd, lower)
  {
    var b := Pt(higher.x + offset, higher.y);
    Anchors(higher, b, Pt(b.x, lower.y), lower)
  }

  /** `getBetweenLineCenter`: on the bridge, halfway between the two points
      vertically. */
  function BetweenLineCenter(source: Pt, target: Pt, higherEnd: Pt): (c: Pt)
    ensures c.y == (source.y + target.y) / 2.0
    ensures Vertical(c, higherEnd)
  {
    var topY := if source.y < target.y then source.y else target.y;
    Pt(higherEnd.x, topY + Abs(source.y - target.y) / 2.0)
  }

  /** `getTextPoint`: the label ends `textOffset` pixels left of the centre
      point and is centred on it vertically (the text's y is its baseline). */
  function TextPoint(center: Pt, box: BBox, textOffset: real): (r: Pt)
    ensures r.x + box.width + textOffset == center.x
    ensures r.y - box.height / 2.0 == center.y
  {
    Pt(center.x - box.width - textOffset, center.y + box.height / 2.0)
  }

  /** `drawDirectionDecoration`: a vertical tick of half-length `d` centred on
      the source, and at the target an arrow whose arms reach `d` pixels to
      the right, above and below, so that it points left at the target. */
  function Decorate(source: Pt, target: Pt, d: real): (r: Marks)
    ensures r.tick.tip == source && r.arrow.tip == target
    ensures Vertical(r.tick.arm1, source) && Vertical(r.tick.arm2, source)
    ensures r.tick.arm1.y + r.tick.arm2.y == 2.0 * source.y
    ensures r.tick.arm2.y - r.tick.arm1.y == 2.0 * d
    ensures Vertical(r.arrow.arm1, r.arrow.arm2) && r.arrow.arm1.x - target.x == d
    ensures r.arrow.arm1.y + r.arrow.arm2.y == 2.0 * target.y
    ensures r.arrow.arm2.y - r.arrow.arm1.y == 2.0 * d
  {
    Marks(Mark(source, Pt(source.x, source.y - d), Pt(source.x, source.y + d)),
          Mark(target, Pt(target.x + d, target.y - d), Pt(target.x + d, target.y + d)))
  }
}
