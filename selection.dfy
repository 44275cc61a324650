/** The two-click selection protocol, on values: which points are selected
    after each click, and the host calls each click makes. */
module Selection {
  import opened Host
  import opened Render

  /** Nothing selected; a source chosen and waiting for its target; or a
      completed pair, whose annotation is drawn. */
  datatype Phase = Idle | Picked(source: Point) | Paired(source: Point, target: Point)

  predicate Distinct(ph: Phase) {
    ph.Paired? ==> ph.source != ph.target
  }

  /** The selection after clicking `p`. A completed pair is cleared first, so
      that the click starts a new pair. */
  function Next(ph: Phase, p: Point): (r: Phase)
    ensures r.Paired? <==> ph.Picked? && ph.source != p
    ensures r.Paired? ==> r.source == ph.source && r.target == p
    ensures r == Idle <==> ph == Picked(p)
    ensures r.Picked? ==> r.source == p
    ensures Distinct(r)
  {
    match ph
    case Idle => Picked(p)
    case Picked(s) => if s == p then Idle else Paired(s, p)
    case Paired(_, _) => Picked(p)
  }

  /** The selection after a sequence of clicks. */
  function Run(ph: Phase, clicks: seq<Point>): Phase
    decreases |clicks|
  {
    if clicks == [] then ph else Next(Run(ph, clicks[..|clicks| - 1]), clicks[|clicks| - 1])
  }

  function Pending(ph: Phase): nat {
    if ph.Picked? then 1 else 0
  }

  /** How many of the clicks complete a pair. Every completion needs a click
      that picks a source and a later click that picks a target, so `n`
      clicks complete at most one pair in two. */
  function Pairs(ph: Phase, clicks: seq<Point>): (n: nat)
    ensures 2 * n + Pending(Run(ph, clicks)) <= |clicks| + Pending(ph)
    decreases |clicks|
  {
    if clicks == [] then 0
    else
      var before := clicks[..|clicks| - 1];
      Pairs(ph, before) + if Next(Run(ph, before), clicks[|clicks| - 1]).Paired? then 1 else 0
  }

  /** No pair is cancelled: the second click of each pair differs from the first. */
  ghost predicate NoCancel(clicks: seq<Point>) {
    forall i | 0 <= i < |clicks| - 1 && i % 2 == 0 :: clicks[i] != clicks[i + 1]
  }

  /** The selection after the first `k` clicks when no pair is cancelled. */
  function Uninterrupted(clicks: seq<Point>, k: nat): Phase
    requires k <= |clicks|
  {
    if k == 0 then Idle
    else if k % 2 == 1 then Picked(clicks[k - 1])
    else Paired(clicks[k - 2], clicks[k - 1])
  }

  /** From nothing selected and without cancels, odd clicks pick a source and
      even clicks complete a pair with the click before: the n-th click
      completes the (n/2)-th pair, and the bound of Pairs is met exactly. */
  lemma {:induction false} UninterruptedPairs(clicks: seq<Point>, k: nat)
    requires NoCancel(clicks) && k <= |clicks|
    ensures Run(Idle, clicks[..k]) == Uninterrupted(clicks, k)
    ensures Pairs(Idle, clicks[..k]) == k / 2
  {
    if k > 0 {
      UninterruptedPairs(clicks, k - 1);
      assert clicks[..k][..k - 1] == clicks[..k - 1];
      if k % 2 == 0 {
        assert clicks[k - 2] != clicks[k - 1];
      }
    }
  }

  /** Clicking the same point twice in a row cancels it and leaves nothing
      selected, unless a source was already waiting before the two clicks. */
  lemma DoubleClickCancels(ph: Phase, p: Point)
    ensures Next(Next(ph, p), p) == Idle <==> !ph.Picked?
  {
  }

  /** The host calls a click makes before any drawing: clearing a completed
      pair deselects both its points and destroys the drawn elements `drawn`;
      then the clicked point is selected, or, when it is the waiting source,
      deselected. */
  function ClickEffects(ph: Phase, drawn: seq<Element>, p: Point): seq<Effect> {
    match ph
    case Idle => [Select(p)]
    case Picked(s) => if s == p then [Deselect(s)] else [Select(p)]
    case Paired(s, t) => [Deselect(s), Deselect(t)] + Destroyed(drawn) + [Select(p)]
  }
}
