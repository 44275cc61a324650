/** The public entry point: picks the orientation strategy and builds the
    session that clicks are forwarded to. */
module Factory {
  import opened Plane
  import opened Host
  import opened Config
  import opened Render
  import opened Selection
  import opened Strategy
  import opened Annotation

  /** Only the exact flag "landscape" selects the landscape strategy; any other
      flag, or none, selects portrait. */
  function StrategyFor(direction: Option<string>): (o: Orientation)
    ensures o == Landscape <==> direction == Some("landscape")
    ensures o == Portrait <==> direction != Some("landscape")
  {
    if direction == Some("landscape") then Landscape else Portrait
  }

  class BetweenPoints {
    const instance: Session

    constructor (direction: Option<string>, overrides: Overrides)
      ensures fresh(instance)
      ensures instance.orientation == StrategyFor(direction) && instance.options == Merge(overrides)
      ensures instance.Valid() && instance.PhaseOf() == Idle && instance.clicks == []
      ensures instance.drawElements == [] && instance.effects == []
    {
      instance := new Session(StrategyFor(direction), Merge(overrides));
    }

    /** Forwards a click to the session. */
    method Between(point: Point, measured: BBox)
      requires instance.Valid()
      modifies instance
      ensures instance.Valid() && instance.clicks == old(instance.clicks) + [point]
      ensures instance.PhaseOf() == Next(old(instance.PhaseOf()), point)
      ensures instance.targetPoint == null ==>
        && instance.drawElements == []
        && instance.effects == old(instance.effects)
                               + ClickEffects(old(instance.PhaseOf()), old(instance.drawElements), point)
        && instance.renderer == old(instance.renderer) && instance.value == old(instance.value)
      ensures instance.targetPoint != null ==>
        var pl := MakePlan(instance.orientation, instance.options,
                           instance.sourcePoint, instance.targetPoint, measured);
        && instance.renderer == Some(point.series.renderer)
        && instance.value == instance.sourcePoint.y - instance.targetPoint.y
        && instance.drawElements == Elements(pl)
        && instance.effects == old(instance.effects)
                               + ClickEffects(old(instance.PhaseOf()), old(instance.drawElements), point)
                               + DrawEffects(point.series.renderer, pl)
    {
      instance.Between(point, measured);
    }
  }
}
