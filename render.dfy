/** What the engine draws and what it asks of the host, as a log of effects. */
module Render {
  import opened Plane
  import opened Host

  /** The label text `numberFormat(value, digits)`: the difference shown
      with `digits` decimal places. */
  datatype Label = Label(value: real, digits: nat)

  /** A drawn element, as the renderer was asked to draw it. */
  datatype Element = Path(cmds: seq<Cmd>) | Text(caption: Label, at: Pt)

  /** One call into the host library, in the order the engine makes them:
      `point.select(true, true)`, `point.select(false)`, drawing an element on
      a chart's renderer, and `destroy` on a drawn element. A drawing stands
      for the whole chain of calls: its attributes, styles, `add`, and
      `toFront` for the kept elements (the label drawn only to be measured
      is added but not brought to the front). */
  datatype Effect =
    | Select(point: Point)
    | Deselect(point: Point)
    | Draw(on: Renderer, element: Element)
    | Destroy(element: Element)

  /** The effects of the clearing loop, which pops the list of drawn elements
      until it is empty and destroys each popped element: the last element
      first. */
  function Destroyed(es: seq<Element>): (r: seq<Effect>)
    ensures |r| == |es|
    ensures forall i :: 0 <= i < |r| ==> r[i].Destroy?
  {
    if es == [] then [] else Destroyed(es[1..]) + [Destroy(es[0])]
  }

  /** Clearing destroys every element exactly once, in reverse drawing order. */
  lemma {:induction false} DestroyedReverses(es: seq<Element>, k: nat)
    requires k < |es|
    ensures Destroyed(es)[k] == Destroy(es[|es| - 1 - k])
  {
    if k < |es| - 1 {
      DestroyedReverses(es[1..], k);
    }
  }
}
