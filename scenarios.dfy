/** Worked click sequences on the demo data 40, 30, 11.94, 7.15, 2.14, using
    only the contracts of the session. */
module Scenarios {
  import opened Plane
  import opened Host
  import opened Config
  import opened Render
  import opened Connector
  import opened Selection
  import opened Strategy
  import opened Annotation

  /** The plan for the demo pair 40, 30 once the points sit at (50, 100) and
      (150, 200) of a portrait chart. */
  lemma PortraitDemoPlan(p40: Point, p30: Point, box: BBox)
    requires p40.y == 40.0 && p30.y == 30.0 && box == BBox(16.0, 12.0)
    requires Position(Portrait, p40) == Pt(50.0, 100.0) && Position(Portrait, p30) == Pt(150.0, 200.0)
    ensures var pl := MakePlan(Portrait, Defaults, p40, p30, box);
      && pl.source == Pt(50.0, 100.0) && pl.target == Pt(150.0, 200.0)
      && pl.anchors == Anchors(Pt(50.0, 100.0), Pt(50.0, 80.0), Pt(150.0, 80.0), Pt(150.0, 200.0))
      && pl.caption == Label(10.0, 0)
      && pl.textAt == Pt(92.0, 75.0)
  {
  }

  /** A portrait chart whose categories are 100 pixels apart from x = 50
      and whose values rise 10 pixels per unit from a baseline at y = 500. */
  method PortraitDemo() {
    var series := Series(Axis(x => 100.0 * x + 50.0), Axis(y => 500.0 - 10.0 * y), Renderer(1));
    var p40 := new Point(0.0, 40.0, series);
    var p30 := new Point(1.0, 30.0, series);
    var s := new Session(Portrait, Defaults);
    var box := BBox(16.0, 12.0);
    s.Between(p40, box);
    s.Between(p30, box);
    ghost var pl := MakePlan(s.orientation, s.options, s.sourcePoint, s.targetPoint, box);
    assert s.Cable() == pl.anchors && s.drawElements == Elements(pl);
    assert s.sourcePoint == p40 && s.targetPoint == p30;
    assert s.value == 10.0;
    assert Position(Portrait, p40) == Pt(50.0, 100.0) && Position(Portrait, p30) == Pt(150.0, 200.0);
    PortraitDemoPlan(p40, p30, box);
    assert s.sourcePos == Pt(50.0, 100.0) && s.targetPos == Pt(150.0, 200.0);
    assert s.Cable() == Anchors(Pt(50.0, 100.0), Pt(50.0, 80.0), Pt(150.0, 80.0), Pt(150.0, 200.0));
    assert s.drawElements[1] == Text(Label(10.0, 0), Pt(92.0, 75.0));
  }

  /** Clicks after a completed pair: re-clicking the target, then cancelling. */
  method PortraitReclickDemo() {
    var series := Series(Axis(x => 100.0 * x + 50.0), Axis(y => 500.0 - 10.0 * y), Renderer(1));
    var p40 := new Point(0.0, 40.0, series);
    var p30 := new Point(1.0, 30.0, series);
    var s := new Session(Portrait, Defaults);
    var box := BBox(16.0, 12.0);
    s.Between(p40, box);
    assert s.PhaseOf() == Picked(p40) && s.drawElements == [];
    assert s.effects == [Select(p40)];
    s.Between(p30, box);
    assert s.PhaseOf() == Paired(p40, p30);

    // a third click on the target clears the pair and makes it the new source
    ghost var drawn := s.drawElements;
    ghost var before := s.effects;
    s.Between(p30, box);
    assert s.PhaseOf() == Picked(p30) && s.drawElements == [];
    assert s.effects == before + [Deselect(p40), Deselect(p30)] + Destroyed(drawn) + [Select(p30)];

    // clicking it again cancels the selection
    s.Between(p30, box);
    assert s.PhaseOf() == Idle && s.drawElements == [];
  }

  /** A landscape chart: values run along x, categories along y. */
  method LandscapeDemo() {
    var series := Series(Axis(x => 50.0 * x), Axis(y => 10.0 * y), Renderer(2));
    var p715 := new Point(3.0, 7.15, series);
    var p214 := new Point(4.0, 2.14, series);
    var s := new Session(Landscape, Defaults);
    var box := BBox(24.0, 10.0);

    s.Between(p715, box);
    s.Between(p214, box);
    assert s.value == 5.01;
    assert s.sourcePos == Pt(71.5, 150.0) && s.targetPos == Pt(21.4, 200.0);
    assert s.Cable() == Anchors(Pt(71.5, 150.0), Pt(91.5, 150.0), Pt(91.5, 200.0), Pt(21.4, 200.0));
    assert (5.01).Floor == 5;
    assert s.drawElements[1] == Text(Label(5.01, 2), Pt(62.5, 180.0));
  }

  /** An explicit clear leaves a session that takes clicks again. */
  method ResetDemo() {
    var series := Series(Axis(x => 50.0 * x), Axis(y => 10.0 * y), Renderer(2));
    var p715 := new Point(3.0, 7.15, series);
    var p214 := new Point(4.0, 2.14, series);
    var s := new Session(Landscape, Defaults);
    var box := BBox(24.0, 10.0);
    s.Between(p715, box);
    s.Between(p214, box);
    assert s.PhaseOf() == Paired(p715, p214);
    s.Reset();
    assert s.PhaseOf() == Idle && s.drawElements == [];
    s.Between(p214, box);
    assert s.PhaseOf() == Picked(p214);
  }
}
