/** Integer conversions of the Python and Qt code, stated on exact reals. */
module Numeric {

  /** Python's `int(x)` on a float: truncation toward zero. */
  function Trunc(x: real): (r: int)
    ensures 0.0 <= x ==> 0 <= r && r as real <= x < r as real + 1.0
    ensures x < 0.0 ==> r <= 0 && r as real - 1.0 < x <= r as real
  {
    if x >= 0.0 then x.Floor else -((-x).Floor)
  }

  /** Truncation moves a value by strictly less than one, toward zero. */
  lemma TruncClose(x: real)
    ensures -1.0 < Trunc(x) as real - x < 1.0
  {
  }

  /** Truncation leaves an integer as it is. */
  lemma TruncOfInt(k: int)
    ensures Trunc(k as real) == k
  {
  }

  /** On non-negative values truncation is monotone. */
  lemma TruncMonotone(x: real, y: real)
    requires 0.0 <= x <= y
    ensures Trunc(x) <= Trunc(y)
  {
  }

  /** Qt's `qRound`, used by `QPointF.toPoint()`: halves round away from zero. */
  function QRound(d: real): (r: int)
    ensures -0.5 <= r as real - d <= 0.5
  {
    if d >= 0.0 then Trunc(d + 0.5) else Trunc(d - 0.5)
  }

  function MinInt(a: int, b: int): int { if a <= b then a else b }
  function MaxInt(a: int, b: int): int { if a >= b then a else b }

  /** `max(lo, min(x, hi))` as the source writes it; `lo` wins when `hi < lo`. */
  function ClampInt(x: int, lo: int, hi: int): (r: int)
    ensures lo <= r
    ensures lo <= hi ==> r <= hi
    ensures lo <= x <= hi ==> r == x
  {
    MaxInt(lo, MinInt(x, hi))
  }

  function MinReal(a: real, b: real): real { if a <= b then a else b }
  function MaxReal(a: real, b: real): real { if a >= b then a else b }

  /** `max(lo, min(x, hi))` on floats. */
  function ClampReal(x: real, lo: real, hi: real): (r: real)
    requires lo <= hi
    ensures lo <= r <= hi
    ensures lo <= x <= hi ==> r == x
    ensures x < lo ==> r == lo
    ensures hi < x ==> r == hi
  {
    MaxReal(lo, MinReal(x, hi))
  }
}
