/** The parts of the Python runtime that the benchmark driver leans on:
    the exceptions it can raise, `len(range(...))`, and the arithmetic facts
    needed to reason about them. */
module Builtins {

  datatype Option<+T> = None | Some(value: T)

  /** The exceptions the modelled code can raise. */
  datatype Exception =
    | ValueError               // range() called with a step of zero
    | ZeroDivisionError        // integer `%` by zero
    | EmptyStatistics          // numpy percentile/max over an empty sample list
    | KeyError(key: string)    // dictionary lookup of an absent key
    | ClickException(message: string)

  /** A value, or the exception raised instead of producing it. */
  datatype Result<+T> = Ok(value: T) | Raised(error: Exception)

  /** `len(range(n))`: a negative count gives an empty range. */
  function Max0(n: int): nat
  {
    if n < 0 then 0 else n
  }

  /** `len(range(0, stop, step))`; Python refuses a zero step. */
  function RangeLen(stop: int, step: int): nat
    requires step != 0
  {
    if step > 0 then
      (if stop <= 0 then 0 else (stop + step - 1) / step)
    else
      (if stop >= 0 then 0 else (-stop - step - 1) / (-step))
  }

  lemma MulMonotone(a: int, b: int, c: nat)
    requires a <= b
    ensures a * c <= b * c
  {
  }

  /** Euclidean quotient and remainder are unique. */
  lemma DivModUnique(a: int, d: int, q: int, r: int)
    requires d > 0 && a == q * d + r && 0 <= r < d
    ensures a / d == q && a % d == r
  {
    var q', r' := a / d, a % d;
    assert a == q' * d + r';
    if q' > q {
      assert (q + 1) * d == q * d + d;
      MulMonotone(q + 1, q', d);
    } else if q' < q {
      assert (q' + 1) * d == q' * d + d;
      MulMonotone(q' + 1, q, d);
    }
  }

  /** For a positive step, the range has ceil(stop/step) elements:
      its last start lies below `stop`, and one more step reaches it. */
  lemma RangeCeiling(stop: int, step: int)
    requires step > 0
    ensures RangeLen(stop, step) > 0 <==> stop > 0
    ensures RangeLen(stop, step) * step >= stop
    ensures RangeLen(stop, step) > 0 ==> (RangeLen(stop, step) - 1) * step < stop
  {
  }

  lemma PositiveRangeMembers(stop: int, step: int, k: nat)
    requires step > 0
    ensures k < RangeLen(stop, step) <==> k * step < stop
  {
    RangeCeiling(stop, step);
    var n := RangeLen(stop, step);
    if k < n {
      MulMonotone(k, n - 1, step);
    } else {
      MulMonotone(n, k, step);
    }
  }

  /** `k` indexes an element of `range(0, stop, step)` exactly when
      `k * step` is one of the values the range yields. */
  lemma RangeMembers(stop: int, step: int, k: nat)
    requires step != 0
    ensures k < RangeLen(stop, step) <==> (if step > 0 then k * step < stop else k * step > stop)
  {
    if step > 0 {
      PositiveRangeMembers(stop, step, k);
    } else {
      assert RangeLen(stop, step) == RangeLen(-stop, -step);
      PositiveRangeMembers(-stop, -step, k);
      assert k * step == -(k * -step);
    }
  }
}
