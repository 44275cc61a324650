/** Orientation-independent parts of the connector: which of the two points is
    the higher one, and the polyline through the four anchors. */
module Connector {
  import opened Plane

  /** The four anchors of a connector: the higher point (A), the end of the
      stub drawn from it (B), the end of the stub drawn from the lower point
      (C) and the lower point (D). */
  datatype Anchors = Anchors(higher: Pt, higherEnd: Pt, lowerEnd: Pt, lower: Pt)

  /** The positions of the higher and of the lower point. */
  datatype Ends = Ends(higher: Pt, lower: Pt)

  /** `initHigherLowerPoints`: the higher point is the one with the larger
      value; when the values are equal it is the target. */
  function HigherLower(sourceValue: real, targetValue: real, source: Pt, target: Pt): (r: Ends)
    ensures multiset{r.higher, r.lower} == multiset{source, target}
    ensures || (r == Ends(source, target) && sourceValue > targetValue)
            || (r == Ends(target, source) && targetValue >= sourceValue)
  {
    if sourceValue > targetValue then Ends(source, target) else Ends(target, source)
  }

  /** The connector path: M A L B L C L D. */
  function CablePath(a: Anchors): seq<Cmd> {
    [M(a.higher), L(a.higherEnd), L(a.lowerEnd), L(a.lower)]
  }
}
