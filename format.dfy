/** The label's precision rule: whole differences are shown without decimals. */
module Format {

  /** `isInt`: the number has no fractional part. */
  predicate IsInt(n: real) {
    n == n.Floor as real
  }

  /** The integer `k` as a number. */
  function Whole(k: int): real { k as real }

  /** IsInt is exactly "equals some integer". */
  lemma {:induction false} IsIntIffWhole(n: real)
    ensures IsInt(n) <==> exists k: int :: Whole(k) == n
  {
    if IsInt(n) {
      assert Whole(n.Floor) == n;
    }
  }

  /** Decimal places of the label for a difference `value`, given the
      configured `decimalDigits`: a fraction is shown exactly when the
      difference is not whole and some digits are configured, and then
      with the configured count. */
  function Precision(value: real, decimalDigits: nat): (d: nat)
    ensures d > 0 <==> !IsInt(value) && decimalDigits > 0
    ensures !IsInt(value) ==> d == decimalDigits
  {
    if IsInt(value) then 0 else decimalDigits
  }

  /** The worked differences of the demo data 40, 30, 11.94, 7.15, 2.14 with
      the default two digits: 40 - 30 shows no decimals, 11.94 - 7.15 and
      7.15 - 2.14 show two. */
  lemma DemoPrecisions()
    ensures 40.0 - 30.0 == 10.0 && Precision(40.0 - 30.0, 2) == 0
    ensures 11.94 - 7.15 == 4.79 && Precision(11.94 - 7.15, 2) == 2
    ensures 7.15 - 2.14 == 5.01 && Precision(7.15 - 2.14, 2) == 2
  {
    assert (4.79).Floor == 4;
    assert (5.01).Floor == 5;
  }
}
