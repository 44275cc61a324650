/** Geometry of the chart's drawing surface (SVG coordinates: x grows to the
    right, y grows DOWNWARDS, so "up" on screen means a smaller y). */
module Plane {

  /** A position on the drawing surface, in pixels. */
  datatype Pt = Pt(x: real, y: real)

  /** Width and height of a rendered text, as the drawing surface measures it. */
  datatype BBox = BBox(width: real, height: real)

  /** One command of an SVG path: move to a point, or draw a line to it. */
  datatype Cmd = M(to: Pt) | L(to: Pt)

  /** A small two-armed decoration: two lines drawn from `tip`, one to each arm. */
  datatype Mark = Mark(tip: Pt, arm1: Pt, arm2: Pt)

  /** The two direction decorations: a tick at the source, an arrow at the target. */
  datatype Marks = Marks(tick: Mark, arrow: Mark)

  predicate Horizontal(p: Pt, q: Pt) { p.y == q.y }

  predicate Vertical(p: Pt, q: Pt) { p.x == q.x }

  function Abs(r: real): real { if r < 0.0 then -r else r }

  /** The path the renderer is given for a decoration: M tip L arm1 M tip L arm2. */
  function MarkPath(m: Mark): seq<Cmd> {
    [M(m.tip), L(m.arm1), M(m.tip), L(m.arm2)]
  }
}
