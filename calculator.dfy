/** `calculator.Add` (internal/calculator/calculator.go): a sum on Go's
    64-bit `int` that reports a negative result as an error. */
module Calculator {
  import opened Go

  const NegativeMessage: string := "retour négatif"

  function Add(a: Int64, b: Int64): (r: Ret<Int64>)
    ensures r.err.Some? <==> Wrap64(a as int + b as int) < 0
    ensures r.err.Some? ==> r == Ret(0, Some(NegativeMessage))
    ensures r.err.None? ==> r.value == Wrap64(a as int + b as int) && r.value >= 0
    ensures MinInt64 <= a as int + b as int <= MaxInt64 ==>
              (r.err.None? <==> a as int + b as int >= 0) &&
              (r.err.None? ==> r.value as int == a as int + b as int)
  {
    var result := Wrap64(a as int + b as int);
    if result < 0 then Ret(0, Some(NegativeMessage)) else Ret(result, None)
  }

  /** The order of the operands does not matter. */
  lemma AddCommutes(a: Int64, b: Int64)
    ensures Add(a, b) == Add(b, a)
  {
  }

  /** Two non-negative operands whose sum fits succeed with that sum. */
  lemma NonNegativeSum(a: Int64, b: Int64)
    requires a >= 0 && b >= 0 && a as int + b as int <= MaxInt64
    ensures Add(a, b) == Ret((a as int + b as int) as Int64, None)
  {
  }

  /** Overflow past the largest `int` wraps to a negative value, so the
      mathematically positive sum is reported as negative. */
  lemma OverflowReportsNegative()
    ensures Add(MaxInt64 as Int64, 1) == Ret(0, Some(NegativeMessage))
  {
    assert Wrap64(MaxInt64 + 1) as int == MinInt64;
  }

  /** Two negative operands whose sum wraps below the smallest `int` come
      back non-negative and succeed. */
  lemma UnderflowSucceeds()
    ensures Add(MinInt64 as Int64, -1) == Ret(MaxInt64 as Int64, None)
  {
    assert Wrap64(MinInt64 - 1) as int == MaxInt64;
  }
}
