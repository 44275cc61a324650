/** The choice between the two orientation strategies, and the complete
    annotation a strategy computes for a selected pair. */
module Strategy {
  import opened Plane
  import opened Host
  import opened Connector
  import opened Config
  import opened Format
  import opened Render
  import PortraitStrategy
  import LandscapeStrategy

  datatype Orientation = Portrait | Landscape

  function Position(o: Orientation, p: Point): Pt {
    match o
    case Portrait => PortraitStrategy.Position(p)
    case Landscape => LandscapeStrategy.Position(p)
  }

  function BetweenLine(o: Orientation, higher: Pt, lower: Pt, offset: real): Anchors {
    match o
    case Portrait => PortraitStrategy.BetweenLine(higher, lower, offset)
    case Landscape => LandscapeStrategy.BetweenLine(higher, lower, offset)
  }

  function BetweenLineCenter(o: Orientation, source: Pt, target: Pt, higherEnd: Pt, textOffset: real): Pt {
    match o
    case Portrait => PortraitStrategy.BetweenLineCenter(source, target, higherEnd, textOffset)
    case Landscape => LandscapeStrategy.BetweenLineCenter(source, target, higherEnd)
  }

  function TextPoint(o: Orientation, center: Pt, box: BBox, textOffset: real): Pt {
    match o
    case Portrait => PortraitStrategy.TextPoint(center, box)
    case Landscape => LandscapeStrategy.TextPoint(center, box, textOffset)
  }

  function Decorate(o: Orientation, source: Pt, target: Pt, d: real): Marks {
    match o
    case Portrait => PortraitStrategy.Decorate(source, target, d)
    case Landscape => LandscapeStrategy.Decorate(source, target, d)
  }

  /** Everything computed for a completed pair: the two positions, the
      connector's anchors, the label, the label's centre point and final
      position, and the two decorations. */
  datatype Plan = Plan(source: Pt, target: Pt, anchors: Anchors, caption: Label,
                       center: Pt, textAt: Pt, marks: Marks)

  /** The annotation for `source` and `target` in orientation `o`; `box` is
      the size the renderer measures for the label. */
  function MakePlan(o: Orientation, opts: Options, source: Point, target: Point, box: BBox): Plan {
    var s := Position(o, source);
    var t := Position(o, target);
    var ends := HigherLower(source.y, target.y, s, t);
    var anchors := BetweenLine(o, ends.higher, ends.lower, opts.higherPointOffset);
    var value := source.y - target.y;
    var center := BetweenLineCenter(o, s, t, anchors.higherEnd, opts.textOffset);
    Plan(s, t, anchors, Label(value, Precision(value, opts.decimalDigits)), center,
         TextPoint(o, center, box, opts.textOffset), Decorate(o, s, t, opts.directionDecorationOffset))
  }

  /** The elements kept for later disposal, in drawing order: connector,
      label, tick at the source, arrow at the target. */
  function Elements(pl: Plan): seq<Element> {
    [Path(CablePath(pl.anchors)), Text(pl.caption, pl.textAt),
     Path(MarkPath(pl.marks.tick)), Path(MarkPath(pl.marks.arrow))]
  }

  /** The renderer calls that draw a plan on `r`. The label is first drawn at
      the centre point to be measured, and destroyed again, before it is drawn
      at its final position. */
  function DrawEffects(r: Renderer, pl: Plan): seq<Effect> {
    var es := Elements(pl);
    var probe := Text(pl.caption, pl.center);
    [Draw(r, es[0]), Draw(r, probe), Destroy(probe), Draw(r, es[1]), Draw(r, es[2]), Draw(r, es[3])]
  }

  /** What a completed annotation shows, whatever the orientation: the label
      carries the signed difference source minus target with the precision
      rule applied; the connector starts at the point with the larger value
      (the target on a tie) and ends at the other one. */
  lemma PlanShowsDifference(o: Orientation, opts: Options, source: Point, target: Point, box: BBox)
    ensures var pl := MakePlan(o, opts, source, target, box);
      && pl.caption == Label(source.y - target.y, Precision(source.y - target.y, opts.decimalDigits))
      && pl.source == Position(o, source) && pl.target == Position(o, target)
      && multiset{pl.anchors.higher, pl.anchors.lower} == multiset{pl.source, pl.target}
      && (|| (pl.anchors.higher == pl.source && pl.anchors.lower == pl.target && source.y > target.y)
          || (pl.anchors.higher == pl.target && pl.anchors.lower == pl.source && target.y >= source.y))
  {
  }

  /** Portrait geometry: the bridge B-C is horizontal at `higherPointOffset`
      above the higher point, and the label's centre lies above the middle of
      the bridge, `textOffset` pixels higher, with the label box centred on it. */
  lemma PortraitPlanGeometry(opts: Options, source: Point, target: Point, box: BBox)
    ensures var pl := MakePlan(Portrait, opts, source, target, box);
            var a := pl.anchors;
      && Vertical(a.higher, a.higherEnd) && a.higher.y - a.higherEnd.y == opts.higherPointOffset
      && Horizontal(a.higherEnd, a.lowerEnd) && Vertical(a.lowerEnd, a.lower)
      && pl.center.x == (a.higherEnd.x + a.lowerEnd.x) / 2.0
      && a.higherEnd.y - pl.center.y == opts.textOffset
      && pl.textAt.x + box.width / 2.0 == pl.center.x && pl.textAt.y == pl.center.y
  {
  }

  /** Landscape geometry: the bridge B-C is vertical at `higherPointOffset`
      right of the higher point, the label's centre is the middle of the
      bridge, and the label ends `textOffset` pixels left of it. */
  lemma LandscapePlanGeometry(opts: Options, source: Point, target: Point, box: BBox)
    ensures var pl := MakePlan(Landscape, opts, source, target, box);
            var a := pl.anchors;
      && Horizontal(a.higher, a.higherEnd) && a.higherEnd.x - a.higher.x == opts.higherPointOffset
      && Vertical(a.higherEnd, a.lowerEnd) && Horizontal(a.lowerEnd, a.lower)
      && pl.center.x == a.higherEnd.x
      && pl.center.y == (a.higherEnd.y + a.lowerEnd.y) / 2.0
      && pl.textAt.x + box.width + opts.textOffset == pl.center.x
      && pl.textAt.y - box.height / 2.0 == pl.center.y
  {
  }
}
