/** The annotation session: the object that receives point clicks, keeps the
    selected pair and the geometry computed for it, and draws and clears the
    annotation. */
module Annotation {
  import opened Plane
  import opened Host
  import opened Config
  import opened Format
  import opened Render
  import opened Connector
  import opened Selection
  import opened Strategy

  class Session {
    const orientation: Orientation
    const options: Options

    var sourcePoint: Point?
    var targetPoint: Point?
    // positions of the two points on the drawing surface
    var sourcePos: Pt
    var targetPos: Pt
    // the connector's anchors A, B, C and D
    var higherPoint: Pt
    var higherLineEnd: Pt
    var lowerLineEnd: Pt
    var lowerPoint: Pt
    // the chart renderer the annotation is drawn on, once a pair completes
    var renderer: Option<Renderer>
    // the difference shown on the label
    var value: real
    // the drawn elements, kept so that they can be destroyed
    var drawElements: seq<Element>
    // every call made into the host library, in order
    var effects: seq<Effect>
    // every point clicked so far
    ghost var clicks: seq<Point>

    /** A target is only ever chosen after, and different from, the source. */
    ghost predicate Consistent()
      reads this`sourcePoint, this`targetPoint
    {
      targetPoint != null ==> sourcePoint != null && sourcePoint != targetPoint
    }

    ghost function PhaseOf(): Phase
      reads this`sourcePoint, this`targetPoint
      requires Consistent()
    {
      if sourcePoint == null then Idle
      else if targetPoint == null then Picked(sourcePoint)
      else Paired(sourcePoint, targetPoint)
    }

    /** Between clicks: elements are drawn exactly when a pair is complete,
        and then there are four of them; and the selection is the one the
        protocol gives for the clicks so far. */
    ghost predicate Valid()
      reads this
    {
      && Consistent()
      && (drawElements != [] <==> targetPoint != null)
      && (drawElements == [] || |drawElements| == 4)
      && PhaseOf() == Run(Idle, clicks)
    }

    /** The connector's anchors as currently computed. */
    function Cable(): Anchors
      reads this
    {
      Anchors(higherPoint, higherLineEnd, lowerLineEnd, lowerPoint)
    }

    constructor (orientation: Orientation, options: Options)
      ensures this.orientation == orientation && this.options == options
      ensures Valid() && PhaseOf() == Idle && clicks == []
      ensures drawElements == [] && effects == [] && renderer == None && value == 0.0
    {
      this.orientation := orientation;
      this.options := options;
      sourcePoint, targetPoint := null, null;
      sourcePos, targetPos := Pt(0.0, 0.0), Pt(0.0, 0.0);
      higherPoint, higherLineEnd := Pt(0.0, 0.0), Pt(0.0, 0.0);
      lowerLineEnd, lowerPoint := Pt(0.0, 0.0), Pt(0.0, 0.0);
      renderer := None;
      value := 0.0;
      drawElements := [];
      effects := [];
      clicks := [];
    }

    /** Handles a click on `point`; `measured` is the size the renderer
        reports for the label text. */
    method Between(point: Point, measured: BBox)
      requires Valid()
      modifies this
      ensures Valid() && clicks == old(clicks) + [point]
      ensures PhaseOf() == Next(old(PhaseOf()), point)
      ensures targetPoint == null ==>
        && drawElements == []
        && effects == old(effects) + ClickEffects(old(PhaseOf()), old(drawElements), point)
      ensures targetPoint == null ==>
        && renderer == old(renderer) && value == old(value)
        && sourcePos == old(sourcePos) && targetPos == old(targetPos) && Cable() == old(Cable())
      ensures targetPoint != null ==>
        renderer == Some(point.series.renderer) && value == sourcePoint.y - targetPoint.y
      ensures targetPoint != null ==>
        var pl := MakePlan(orientation, options, sourcePoint, targetPoint, measured);
        sourcePos == pl.source && targetPos == pl.target && Cable() == pl.anchors
      ensures targetPoint != null ==>
        drawElements == Elements(MakePlan(orientation, options, sourcePoint, targetPoint, measured))
      ensures targetPoint != null ==>
        effects == old(effects) + ClickEffects(old(PhaseOf()), old(drawElements), point)
                   + DrawEffects(point.series.renderer, MakePlan(orientation, options, sourcePoint, targetPoint, measured))
    {
      ghost var before := clicks;
      var complete := Init(point);
      clicks := clicks + [point];
      assert clicks[..|clicks| - 1] == before;
      if complete {
        Annotate(measured);
      }
    }

    /** Computes and draws the annotation of a completed pair. */
    method Annotate(measured: BBox)
      requires sourcePoint != null && targetPoint != null && renderer.Some?
      requires value == sourcePoint.y - targetPoint.y
      modifies this`sourcePos, this`targetPos, this`higherPoint, this`lowerPoint,
               this`higherLineEnd, this`lowerLineEnd, this`drawElements, this`effects
      ensures var pl := MakePlan(orientation, options, sourcePoint, targetPoint, measured);
        && sourcePos == pl.source && targetPos == pl.target && Cable() == pl.anchors
        && drawElements == old(drawElements) + Elements(pl)
        && effects == old(effects) + DrawEffects(renderer.value, pl)
    {
      Layout();
      DrawAnnotation(measured);
    }

    /** The annotation the current fields describe, with the label measured
        as `measured`. */
    function Drawing(measured: BBox): Plan
      reads this
    {
      var center := GetBetweenLineCenter();
      Plan(sourcePos, targetPos, Cable(), GetText(), center,
           TextPoint(orientation, center, measured, options.textOffset),
           Decorate(orientation, sourcePos, targetPos, options.directionDecorationOffset))
    }

    /** The geometry half of a completed click: positions, then which point is
        higher, then the stub ends. */
    method Layout()
      requires sourcePoint != null && targetPoint != null
      modifies this`sourcePos, this`targetPos, this`higherPoint, this`lowerPoint,
               this`higherLineEnd, this`lowerLineEnd
      ensures var pl := MakePlan(orientation, options, sourcePoint, targetPoint, BBox(0.0, 0.0));
              sourcePos == pl.source && targetPos == pl.target && Cable() == pl.anchors
    {
      InitSourceTargetPoints();
      InitHigherLowerPoints();
      InitBetweenLinePoints();
    }

    /** The drawing half of a completed click: connector, label, decorations. */
    method DrawAnnotation(measured: BBox)
      requires renderer.Some?
      modifies this`drawElements, this`effects
      ensures drawElements == old(drawElements) + Elements(Drawing(measured))
      ensures effects == old(effects) + DrawEffects(renderer.value, Drawing(measured))
    {
      DrawCable();
      DrawValueText(measured);
      DrawDirectionDecoration();
    }

    /** Deselects both points and destroys every drawn element. Both points
        must be set: the source deselects them without checking. */
    method Clear()
      requires sourcePoint != null && targetPoint != null
      modifies this`sourcePoint, this`targetPoint, this`drawElements, this`effects
      ensures sourcePoint == null && targetPoint == null && drawElements == []
      ensures effects == old(effects) + [Deselect(old(sourcePoint)), Deselect(old(targetPoint))]
                         + Destroyed(old(drawElements))
    {
      effects := effects + [Deselect(sourcePoint)];
      effects := effects + [Deselect(targetPoint)];
      sourcePoint := null;
      targetPoint := null;
      ghost var start := effects;
      ghost var es := drawElements;
      var i, length := 0, |drawElements|;
      while i < length
        invariant 0 <= i <= length == |es|
        invariant sourcePoint == null && targetPoint == null
        invariant drawElements == es[..length - i]
        invariant effects == start + Destroyed(es[length - i..])
      {
        var last := drawElements[|drawElements| - 1];
        drawElements := drawElements[..|drawElements| - 1];
        effects := effects + [Destroy(last)];
        assert es[length - i - 1..][1..] == es[length - i..];
        i := i + 1;
      }
      assert es[0..] == es;
    }

    /** An explicit `clear` from outside: the pair is cleared as above and the
        session starts afresh, so `clicks` counts from this point on. */
    method Reset()
      requires Valid() && targetPoint != null
      modifies this`sourcePoint, this`targetPoint, this`drawElements, this`effects, this`clicks
      ensures Valid() && PhaseOf() == Idle && clicks == [] && drawElements == []
      ensures effects == old(effects) + [Deselect(old(sourcePoint)), Deselect(old(targetPoint))]
                         + Destroyed(old(drawElements))
    {
      Clear();
      clicks := [];
    }

    /** Applies the click to the selection, clearing a completed pair first;
        reports whether the click completed a pair. */
    method Init(point: Point) returns (complete: bool)
      requires Valid()
      modifies this`sourcePoint, this`targetPoint, this`drawElements, this`effects,
               this`renderer, this`value
      ensures Consistent() && drawElements == []
      ensures PhaseOf() == Next(old(PhaseOf()), point)
      ensures complete <==> targetPoint != null
      ensures complete ==> renderer == Some(point.series.renderer) && value == sourcePoint.y - targetPoint.y
      ensures !complete ==> renderer == old(renderer) && value == old(value)
      ensures effects == old(effects) + ClickEffects(old(PhaseOf()), old(drawElements), point)
    {
      if |drawElements| > 0 {
        Clear();
      }
      if sourcePoint == null {
        sourcePoint := point;
        effects := effects + [Select(point)];
      } else if sourcePoint == point {
        effects := effects + [Deselect(sourcePoint)];
        sourcePoint := null;
      } else {
        targetPoint := point;
        effects := effects + [Select(point)];
      }
      complete := sourcePoint != null && targetPoint != null;
      if complete {
        renderer := Some(point.series.renderer);
        value := sourcePoint.y - targetPoint.y;
      }
    }

    /** Places both points on the drawing surface, by the orientation's axes. */
    method InitSourceTargetPoints()
      requires sourcePoint != null && targetPoint != null
      modifies this`sourcePos, this`targetPos
      ensures sourcePos == Position(orientation, sourcePoint)
      ensures targetPos == Position(orientation, targetPoint)
    {
      var s, t := sourcePoint, targetPoint;
      match orientation {
      case Portrait =>
        sourcePos := Pt(s.series.xAxis.toPixels(s.x), s.series.yAxis.toPixels(s.y));
        targetPos := Pt(t.series.xAxis.toPixels(t.x), t.series.yAxis.toPixels(t.y));
      case Landscape =>
        sourcePos := Pt(s.series.yAxis.toPixels(s.y), s.series.xAxis.toPixels(s.x));
        targetPos := Pt(t.series.yAxis.toPixels(t.y), t.series.xAxis.toPixels(t.x));
      }
    }

    /** Decides which point's position is the higher anchor A and which the
        lower anchor D. */
    method InitHigherLowerPoints()
      requires sourcePoint != null && targetPoint != null
      modifies this`higherPoint, this`lowerPoint
      ensures Ends(higherPoint, lowerPoint) == HigherLower(sourcePoint.y, targetPoint.y, sourcePos, targetPos)
    {
      if sourcePoint.y > targetPoint.y {
        higherPoint := sourcePos;
        lowerPoint := targetPos;
      } else {
        higherPoint := targetPos;
        lowerPoint := sourcePos;
      }
    }

    /** Computes the stub ends B and C. */
    method InitBetweenLinePoints()
      modifies this`higherLineEnd, this`lowerLineEnd
      ensures Cable() == BetweenLine(orientation, higherPoint, lowerPoint, options.higherPointOffset)
    {
      match orientation {
      case Portrait =>
        higherLineEnd := Pt(higherPoint.x, higherPoint.y - options.higherPointOffset);
        lowerLineEnd := Pt(lowerPoint.x, higherLineEnd.y);
      case Landscape =>
        higherLineEnd := Pt(higherPoint.x + options.higherPointOffset, higherPoint.y);
        lowerLineEnd := Pt(higherLineEnd.x, lowerPoint.y);
      }
    }

    /** Draws the connector A-B-C-D and keeps it. */
    method DrawCable()
      requires renderer.Some?
      modifies this`drawElements, this`effects
      ensures drawElements == old(drawElements) + [Path(CablePath(Cable()))]
      ensures effects == old(effects) + [Draw(renderer.value, Path(CablePath(Cable())))]
    {
      var cable := Path([M(higherPoint), L(higherLineEnd), L(lowerLineEnd), L(lowerPoint)]);
      effects := effects + [Draw(renderer.value, cable)];
      drawElements := drawElements + [cable];
    }

    /** The label for the current difference. */
    function GetText(): (t: Label)
      reads this
      ensures t.value == value
      ensures t.digits == Precision(value, options.decimalDigits)
    {
      if IsInt(value) then Label(value, 0) else Label(value, options.decimalDigits)
    }

    /** The label centre: in portrait above the bridge, midway between the
        points horizontally; in landscape on the bridge, midway vertically. */
    function GetBetweenLineCenter(): (c: Pt)
      reads this
      ensures orientation == Portrait ==>
        c.x == (sourcePos.x + targetPos.x) / 2.0 && higherLineEnd.y - c.y == options.textOffset
      ensures orientation == Landscape ==>
        c.x == higherLineEnd.x && c.y == (sourcePos.y + targetPos.y) / 2.0
    {
      BetweenLineCenter(orientation, sourcePos, targetPos, higherLineEnd, options.textOffset)
    }

    /** Draws `text` at `at` to have it measured, then destroys it again;
        `measured` is what the renderer reports. */
    method GetTextBBox(text: Label, at: Pt, measured: BBox) returns (box: BBox)
      requires renderer.Some?
      modifies this`effects
      ensures box == measured
      ensures effects == old(effects) + [Draw(renderer.value, Text(text, at)), Destroy(Text(text, at))]
    {
      effects := effects + [Draw(renderer.value, Text(text, at))];
      box := measured;
      effects := effects + [Destroy(Text(text, at))];
    }

    /** Where the label goes, from the centre point and the measured size. */
    method GetTextPoint(text: Label, measured: BBox) returns (at: Pt)
      requires renderer.Some?
      modifies this`effects
      ensures at == TextPoint(orientation, GetBetweenLineCenter(), measured, options.textOffset)
      ensures var probe := Text(text, GetBetweenLineCenter());
              effects == old(effects) + [Draw(renderer.value, probe), Destroy(probe)]
    {
      var center := GetBetweenLineCenter();
      var box := GetTextBBox(text, center, measured);
      match orientation {
      case Portrait =>
        at := Pt(center.x - box.width / 2.0, center.y);
      case Landscape =>
        at := Pt(center.x - box.width - options.textOffset, center.y + box.height / 2.0);
      }
    }

    /** Draws the label and keeps it. */
    method DrawValueText(measured: BBox)
      requires renderer.Some?
      modifies this`drawElements, this`effects
      ensures var center := GetBetweenLineCenter();
              var caption := Text(GetText(), TextPoint(orientation, center, measured, options.textOffset));
              && drawElements == old(drawElements) + [caption]
              && effects == old(effects) + [Draw(renderer.value, Text(GetText(), center)),
                                            Destroy(Text(GetText(), center)),
                                            Draw(renderer.value, caption)]
    {
      var text := GetText();
      var at := GetTextPoint(text, measured);
      var caption := Text(text, at);
      effects := effects + [Draw(renderer.value, caption)];
      drawElements := drawElements + [caption];
    }

    /** Draws the tick at the source and the arrow at the target, and keeps both. */
    method DrawDirectionDecoration()
      requires renderer.Some?
      modifies this`drawElements, this`effects
      ensures var m := Decorate(orientation, sourcePos, targetPos, options.directionDecorationOffset);
              && drawElements == old(drawElements) + [Path(MarkPath(m.tick)), Path(MarkPath(m.arrow))]
              && effects == old(effects) + [Draw(renderer.value, Path(MarkPath(m.tick))),
                                            Draw(renderer.value, Path(MarkPath(m.arrow)))]
    {
      var s, t, d := sourcePos, targetPos, options.directionDecorationOffset;
      var tick, arrow;
      match orientation {
      case Portrait =>
        tick := Path([M(s), L(Pt(s.x - d, s.y)), M(s), L(Pt(s.x + d, s.y))]);
        arrow := Path([M(t), L(Pt(t.x - d, t.y - d)), M(t), L(Pt(t.x + d, t.y - d))]);
      case Landscape =>
        tick := Path([M(s), L(Pt(s.x, s.y - d)), M(s), L(Pt(s.x, s.y + d))]);
        arrow := Path([M(t), L(Pt(t.x + d, t.y - d)), M(t), L(Pt(t.x + d, t.y + d))]);
      }
      effects := effects + [Draw(renderer.value, tick), Draw(renderer.value, arrow)];
      drawElements := drawElements + [tick, arrow];
    }
  }
}
