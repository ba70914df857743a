/** The value quantizer of the amCharts life wheel: the live value a cursor
    at normalized radial position `y` selects on an axis whose maximum is
    `yMax` is `min(ceil(y * yMax), yMax)`. Positions are exact reals. */
module Quantizer {

  /** `Math.ceil` on an exact real. */
  function Ceil(x: real): (c: int)
    ensures c as real - 1.0 < x <= c as real
  {
    -((-x).Floor)
  }

  lemma CeilMonotone(x: real, x': real)
    requires x <= x'
    ensures Ceil(x) <= Ceil(x')
  {
  }

  /** Scaling by a non-negative factor keeps the sign. */
  lemma ScaleNonNegative(a: real, k: real)
    requires 0.0 <= a && 0.0 <= k
    ensures 0.0 <= a * k
  {
  }

  /** Scaling by a non-negative factor keeps the order. */
  lemma ScaleMonotone(a: real, b: real, k: real)
    requires a <= b && 0.0 <= k
    ensures a * k <= b * k
  {
    ScaleNonNegative(b - a, k);
    assert b * k - a * k == (b - a) * k;
  }

  /** `v` is the ceiling of `x` capped at `yMax`: never above the cap, the
      least integer at or above `x` below it, the cap itself beyond it, and
      non-negative when `x` and the cap are. */
  predicate IsCappedCeiling(x: real, yMax: int, v: int) {
    && v <= yMax
    && (x <= yMax as real ==> v as real - 1.0 < x <= v as real)
    && (x > yMax as real ==> v == yMax)
    && (0.0 <= x && 0 <= yMax ==> 0 <= v)
  }

  /** The ceiling of `x`, capped at `yMax`. */
  function CappedCeil(x: real, yMax: int): (v: int)
    ensures IsCappedCeiling(x, yMax, v)
  {
    var c := Ceil(x);
    if c < yMax then c else yMax
  }

  lemma CappedCeilMonotone(x: real, x': real, yMax: int)
    requires x <= x'
    ensures CappedCeil(x, yMax) <= CappedCeil(x', yMax)
  {
    CeilMonotone(x, x');
  }

  /** The value selected by radial position `y`. There is no lower clamp:
      a position at or below `-1 / yMax` gives a negative value. */
  function Quantize(y: real, yMax: int): (v: int)
    ensures IsCappedCeiling(y * yMax as real, yMax, v)
  {
    CappedCeil(y * yMax as real, yMax)
  }

  /** A position at or outside the centre never selects a negative value. */
  lemma QuantizeNonNegative(y: real, yMax: int)
    requires 0.0 <= y && 0 <= yMax
    ensures 0 <= Quantize(y, yMax)
  {
    ScaleNonNegative(y, yMax as real);
  }

  /** A position further out never selects a smaller value. */
  lemma QuantizeMonotone(y: real, y': real, yMax: int)
    requires y <= y'
    requires 0 <= yMax
    ensures Quantize(y, yMax) <= Quantize(y', yMax)
  {
    var x, x' := y * yMax as real, y' * yMax as real;
    ScaleMonotone(y, y', yMax as real);
    CappedCeilMonotone(x, x', yMax);
    assert Quantize(y, yMax) == CappedCeil(x, yMax);
    assert Quantize(y', yMax) == CappedCeil(x', yMax);
  }

  /** Quantizing the position that value `v` stands for gives `v` back. */
  lemma QuantizeRequantize(v: int, yMax: int)
    requires 0 < yMax
    requires 0 <= v <= yMax
    ensures Quantize(v as real / yMax as real, yMax) == v
  {
  }

  /** The normalized positions 0.0, 0.65 and 1.0 on a ten-step axis, and a
      position below the centre, which the missing lower clamp lets through. */
  lemma QuantizeSamples()
    ensures Quantize(0.0, 10) == 0
    ensures Quantize(0.65, 10) == 7
    ensures Quantize(1.0, 10) == 10
    ensures Quantize(-0.25, 10) == -2
  {
  }
}
