/** The engine's numeric options: defaults, and caller overrides merged over them. */
module Config {

  datatype Option<T> = None | Some(value: T) {
    function GetOr(default: T): T {
      match this
      case Some(v) => v
      case None => default
    }
  }

  /** The four numeric options of an annotation session. */
  datatype Options = Options(
    higherPointOffset: real,         // length of the stub drawn from the higher point
    textOffset: real,                // gap between the connector and the label
    decimalDigits: nat,              // decimals shown for a non-integer difference
    directionDecorationOffset: real  // arm length of the tick and the arrow
  )

  /** The built-in defaults. */
  const Defaults := Options(20.0, 5.0, 2, 5.0)

  /** What a caller may pass; an absent field keeps its default. */
  datatype Overrides = Overrides(
    higherPointOffset: Option<real>,
    textOffset: Option<real>,
    decimalDigits: Option<nat>,
    directionDecorationOffset: Option<real>
  )

  const NoOverrides := Overrides(None, None, None, None)

  /** Every field given. */
  function Full(o: Options): Overrides {
    Overrides(Some(o.higherPointOffset), Some(o.textOffset), Some(o.decimalDigits),
              Some(o.directionDecorationOffset))
  }

  /** The options a session is built with: each given field over its default. */
  function Merge(o: Overrides): Options {
    Options(o.higherPointOffset.GetOr(Defaults.higherPointOffset),
            o.textOffset.GetOr(Defaults.textOffset),
            o.decimalDigits.GetOr(Defaults.decimalDigits),
            o.directionDecorationOffset.GetOr(Defaults.directionDecorationOffset))
  }

  /** Without overrides a session uses exactly the defaults 20, 5, 2 and 5. */
  lemma MergeNothing()
    ensures Merge(NoOverrides) == Defaults
    ensures Defaults.higherPointOffset == 20.0 && Defaults.textOffset == 5.0
    ensures Defaults.decimalDigits == 2 && Defaults.directionDecorationOffset == 5.0
  {
  }

  /** A field the caller gives wins; a field the caller leaves out is the default. */
  lemma MergeFieldwise(o: Overrides)
    ensures o.higherPointOffset.Some? ==> Merge(o).higherPointOffset == o.higherPointOffset.value
    ensures o.higherPointOffset.None? ==> Merge(o).higherPointOffset == Defaults.higherPointOffset
    ensures o.textOffset.Some? ==> Merge(o).textOffset == o.textOffset.value
    ensures o.textOffset.None? ==> Merge(o).textOffset == Defaults.textOffset
    ensures o.decimalDigits.Some? ==> Merge(o).decimalDigits == o.decimalDigits.value
    ensures o.decimalDigits.None? ==> Merge(o).decimalDigits == Defaults.decimalDigits
    ensures o.directionDecorationOffset.Some? ==>
              Merge(o).directionDecorationOffset == o.directionDecorationOffset.value
    ensures o.directionDecorationOffset.None? ==>
              Merge(o).directionDecorationOffset == Defaults.directionDecorationOffset
  {
  }

  /** Overriding every field gives back exactly the caller's options. */
  lemma MergeFull(o: Options)
    ensures Merge(Full(o)) == o
  {
  }
}
