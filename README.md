# between-points: a verified model of the annotation engine

The engine is a Highcharts add-on. A user clicks two points of an X–Y chart.
The first click picks the source and the second picks the target. The engine
then draws a connector between the two points, labels it with the difference
`source.y − target.y`, and marks the source with a tick and the target with an
arrow. The next click clears the annotation and starts a new pair. There are two
orientation strategies. *Portrait* serves line, area and column charts, where
categories run horizontally. *Landscape* serves bar and inverted charts, where
the axes swap roles.

The model has these modules:

- `Plane`: positions, bounding boxes and SVG path commands on the drawing
  surface, where y grows downwards.
- `Host`: what the engine reads from the chart library. A point is a class with
  constant `x`, `y` and `series`, so `==` is object identity, as in the source.
  An axis is reduced to its `toPixels` transform, given as a function value. A
  chart's renderer is an identity.
- `Config`: the four numeric options, their defaults (20, 5, 2, 5), and how
  caller overrides are merged over them.
- `Format`: the integer test and the precision rule of the label.
- `Render`: the elements drawn, and the log of calls made into the host
  library: point selection, drawing, and `destroy`.
- `Connector`: the choice of which point is higher, the four anchors, and the
  connector path.
- `PortraitStrategy`, `LandscapeStrategy`: the two strategies as pure
  functions. Each one converts positions, computes the stub ends and the label
  centre, places the label, and draws the decorations.
- `Strategy`: dispatch on the orientation, and `MakePlan`, the complete
  annotation for a pair, with lemmas on its geometry.
- `Selection`: the two-click protocol on values. It has the click transition
  `Next`, the replay `Run` of a click sequence, a bound on completed pairs, and
  the host calls each click makes.
- `Annotation`: the class `Session`. Its fields are those of
  `HighchartBetweenPoints`: the two points, their positions, anchors A to D,
  renderer, value and `drawElements`. A field `effects` records every call into
  the host library. A ghost field records the clicks so far. `Valid()` states
  the session invariant:
  - elements are drawn exactly when a pair is complete, and then there are four;
  - source and target are distinct;
  - the selection equals `Run(Idle, clicks)`.

  Every method of the source is a method here, with the same steps. Three helper
  methods group the steps of `between`. `Layout` runs the three geometry steps,
  `DrawAnnotation` runs the three drawing steps, and `Annotate` runs both.
- `Factory`: the `BetweenPoints` facade and its orientation flag.
- `Scenarios`: click sequences on the demo data. They use only the session's
  contracts: 40 − 30 gives the label 10 with no decimals, and in landscape
  7.15 − 2.14 gives 5.01 with two. After an explicit clear the session takes
  clicks again.

The calls into the chart library are modelled as entries of the `effects` log.
There are four kinds: `select(true, true)`, `select(false)`, a drawing, and
`destroy`. Each drawing is one `Draw` entry holding the path or text drawn. The
`attr`, `css`, `add` and `toFront` calls of that drawing are folded into that
entry and not recorded apart. The bounding box the renderer measures for the
label is a parameter of `Between`.

## Model

| member | source | states |
|---|---|---|
| `Config.MergeNothing` | highcharts.between-points.js:211-215 | With no overrides, the options are the defaults: higherPointOffset 20, textOffset 5, decimalDigits 2, directionDecorationOffset 5 |
| `Config.MergeFieldwise` | highcharts.between-points.js:162 | Each option the caller gives wins. Each option left out keeps its default |
| `Config.MergeFull` | highcharts.between-points.js:162 | Overriding every option gives back exactly the caller's options |
| `Format.IsIntIffWhole` | highcharts.between-points.js:399-401 | `IsInt(n)` holds exactly when n equals some integer |
| `Format.Precision` | highcharts.between-points.js:347-357 | The label shows a fraction exactly when the difference is not whole and digits are configured. A non-whole difference gets the configured digit count |
| `Format.DemoPrecisions` | example/line-example.js:30 | With 2 digits: 40 − 30 = 10 shows 0 decimals. 11.94 − 7.15 = 4.79 and 7.15 − 2.14 = 5.01 show 2 |
| `Render.Destroyed` | highcharts.between-points.js:255-257 | The clearing loop makes one `destroy` call per drawn element and nothing else |
| `Render.DestroyedReverses` | highcharts.between-points.js:255-257 | The k-th `destroy` hits element n−1−k, since elements are popped last first |
| `Connector.HigherLower` | highcharts.between-points.js:294-307 | {higher, lower} is a permutation of {source, target}. The source is higher iff its value is strictly larger, so a tie makes the target higher |
| `PortraitStrategy.BetweenLine` | highcharts.between-points.js:437-442 | B lies straight above A, higherPointOffset higher. The B–C bridge is horizontal. C lies straight above or below D |
| `PortraitStrategy.BetweenLineCenter` | highcharts.between-points.js:443-454 | The centre's x is the midpoint of the source and target x. Its y is textOffset above the bridge. The source computes it as left x plus half the distance |
| `PortraitStrategy.TextPoint` | highcharts.between-points.js:455-464 | The label box is centred horizontally on the centre point, at the centre's height |
| `PortraitStrategy.Decorate` | highcharts.between-points.js:465-485 | The tick is horizontal, centred on the source, with 2d total length. The arrow's arms rise d above the target, symmetric about its x, so the arrow points down |
| `LandscapeStrategy.PositionSwapsAxes` | highcharts.between-points.js:515-520 | A point's landscape position is its portrait position with x and y exchanged |
| `LandscapeStrategy.BetweenLine` | highcharts.between-points.js:522-528 | B lies higherPointOffset to the right of A, at the same height. The B–C bridge is vertical. C lies level with D |
| `LandscapeStrategy.BetweenLineCenter` | highcharts.between-points.js:530-541 | The centre is on the bridge's x, halfway between the source and target y |
| `LandscapeStrategy.TextPoint` | highcharts.between-points.js:543-551 | The label box ends textOffset left of the centre and is centred on it vertically |
| `LandscapeStrategy.Decorate` | highcharts.between-points.js:553-573 | The tick is vertical, centred on the source. The arrow's arms reach d to the right, above and below the target, so the arrow points left |
| `Strategy.PlanShowsDifference` | highcharts.between-points.js:277-307 | The label carries source.y − target.y with the sign intact and the precision rule applied. The connector runs from the larger-valued point, or the target on a tie, to the other point |
| `Strategy.PortraitPlanGeometry` | highcharts.between-points.js:437-464 | Portrait: stubs vertical, bridge horizontal at offset above A. The label centre is above the bridge midpoint by textOffset, with the label centred on it |
| `Strategy.LandscapePlanGeometry` | highcharts.between-points.js:522-551 | Landscape: stubs horizontal, bridge vertical at offset right of A. The label centre is the bridge midpoint, with the label textOffset left of it |
| `Selection.Next` | highcharts.between-points.js:260-283 | A click completes a pair iff a source is waiting and a different point is clicked. It cancels iff the waiting source is clicked again. Otherwise the clicked point becomes the source. A completed pair's points always differ |
| `Selection.Pairs` | highcharts.between-points.js:260-283 | From any state, n clicks complete at most (n + pending)/2 pairs |
| `Selection.UninterruptedPairs` | highcharts.between-points.js:260-283 | From nothing selected and with no cancels, click 2m completes the pair (click 2m−1, click 2m). Click 2m+1 starts a new source. After k clicks, exactly k/2 pairs are complete |
| `Selection.DoubleClickCancels` | highcharts.between-points.js:266-271 | Two clicks in a row on the same point leave nothing selected iff no source was waiting before them |
| `Annotation.Session.constructor` | highcharts.between-points.js:161-209 | A new session has nothing selected, nothing drawn, no renderer and value 0 |
| `Annotation.Session.Between` | highcharts.between-points.js:234-244 | Keeps `Valid()`. The selection follows `Next`. A completed pair computes `MakePlan` and draws exactly its four elements in order: connector, label, tick, arrow. Otherwise nothing is drawn, and renderer, value, positions and anchors keep their old values. Every host call is logged in order |
| `Annotation.Session.Clear` | highcharts.between-points.js:249-258 | Deselects source then target and nulls both. Destroys every drawn element, last first, and leaves `drawElements` empty |
| `Annotation.Session.Reset` | highcharts.between-points.js:249-258 | An explicit `clear` on a completed pair makes the same calls as `Clear`, and leaves a valid session with nothing selected or drawn that takes clicks again |
| `Annotation.Session.Init` | highcharts.between-points.js:260-284 | Clears a drawn pair first, then applies `Next`. Returns true exactly when the pair is complete, and then sets value = source.y − target.y and the clicked point's renderer |
| `Annotation.Session.InitSourceTargetPoints` | highcharts.between-points.js:431-436 | Portrait places each point at (xAxis.toPixels(x), yAxis.toPixels(y)); landscape swaps the axes |
| `Annotation.Session.InitHigherLowerPoints` | highcharts.between-points.js:294-307 | A and D are set by `HigherLower` |
| `Annotation.Session.InitBetweenLinePoints` | highcharts.between-points.js:437-442 | B and C follow the strategy's `BetweenLine`, portrait here and landscape at lines 522-528 |
| `Annotation.Session.Layout` | highcharts.between-points.js:236-238 | The three geometry steps produce the positions and anchors of `MakePlan` |
| `Annotation.Session.DrawAnnotation` | highcharts.between-points.js:240-242 | The three drawing steps append the plan's four elements and log the plan's renderer calls |
| `Annotation.Session.Annotate` | highcharts.between-points.js:236-242 | A completed pair gets the positions and anchors of `MakePlan`, and the plan's four elements and renderer calls are appended |
| `Annotation.Session.DrawCable` | highcharts.between-points.js:317-326 | Draws and keeps the path M A L B L C L D |
| `Annotation.Session.GetText` | highcharts.between-points.js:347-357 | The label is the current value with `Precision`'s digit count |
| `Annotation.Session.GetBetweenLineCenter` | highcharts.between-points.js:443-454 | Portrait: the centre is midway between the points horizontally and textOffset above the bridge. Landscape (lines 530-541): on the bridge's x, midway between the points vertically |
| `Annotation.Session.GetTextBBox` | highcharts.between-points.js:383-391 | Draws the label once to measure it and destroys it at once. It is not kept |
| `Annotation.Session.GetTextPoint` | highcharts.between-points.js:455-464 | The label position is the strategy's `TextPoint` for the current centre and measured size |
| `Annotation.Session.DrawValueText` | highcharts.between-points.js:331-340 | Measures, then draws and keeps the label at its final position |
| `Annotation.Session.DrawDirectionDecoration` | highcharts.between-points.js:465-485 | Draws and keeps the tick and the arrow of the strategy's `Decorate` (landscape: lines 553-573) |
| `Factory.StrategyFor` | highcharts.between-points.js:138-147 | Landscape iff the flag is exactly "landscape". Any other flag, or none, gives portrait |
| `Factory.BetweenPoints.constructor` | highcharts.between-points.js:138-147 | The session gets the strategy of `StrategyFor` and the merged options, with nothing selected or drawn |
| `Factory.BetweenPoints.Between` | highcharts.between-points.js:148-150 | Passes the click to the session with the session's guarantees: the selection follows `Next`, and the drawn elements, the logged host calls, the renderer and the value are those of `Session.Between` in both cases |

## Left out

- Highcharts rendering is not modelled. An element is recorded as the path or
  text it was drawn as. The `attr` and `css` bundles (`lineAttr`, `lineCss`,
  `textAttr`, `textCss`), `add` and `toFront` are not modelled.
- Deep merging of the nested style bundles is not modelled. They pass straight
  through to the renderer. Only the four numeric options are merged.
- `Highcharts.numberFormat` is not modelled. A label is recorded as its value
  and digit count, not as the rounded, thousands-separated string.
- `axis.toPixels` is foreign code. It is an arbitrary function value of the
  point's series.
- `getBBox` is foreign code. The measured size is a parameter of `Between`.
- `point.select` is recorded as a call. The host's own reaction is not
  modelled: marking the point, or deselecting other points for `select(false)`
  without accumulate.
- Numbers are exact reals. IEEE floating point is not modelled. For example,
  in floating point 11.94 − 7.15 is not exactly 4.79.
- `Format.IsIntIffWhole` covers the mathematical integer test only. The
  source's `parseFloat(n) == parseInt(n, 10)` also misjudges numbers whose
  string form uses an exponent (≥ 1e21), and non-number inputs.
- `decimalDigits` is a natural number here. The source accepts any value a
  caller passes.
- `Annotation.Session.Clear` and `Annotation.Session.Reset` require both points
  to be set. The source calls `select(false)` on both without checking, so on
  a null point it throws a TypeError, which is not modelled. `Valid()` shows
  that `between` only calls `clear` when both are set. `Reset` also restarts
  the ghost record of clicks, so after it `clicks` holds only later clicks.
- The direction flag is `Option<string>`. Non-string flags are covered by
  "anything other than `Some("landscape")`".
- Two behaviours of the code could be read otherwise. The model follows the
  code in both:
  - On equal values the target is always the higher point.
  - The portrait arrow's arms rise above the target, so it points down. The
    landscape arrow's arms reach to the right, so it points left.
- The unary `+` in `sourcePointY + + offset` at line 559 is a plain addition
  for numeric options. It is modelled as one.
- The example chart set-ups under `example/` are not modelled. They hold only
  chart configuration and click wiring.
