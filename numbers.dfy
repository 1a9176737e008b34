/** JavaScript numbers as the price bot uses them, over exact reals.

    A price or a percentage is a finite real. Dividing by zero is the only way
    the bot's formulas leave the reals; the model collapses the non-finite
    results (Infinity, -Infinity, NaN) into one value, NonFinite. Rounding of
    IEEE-754 doubles is not modelled: arithmetic on finite values is exact. */
module Numbers {

  datatype Num = Finite(value: real) | NonFinite

  /** `a / b` */
  function Quot(a: Num, b: Num): (r: Num)
    ensures r.Finite? <==> a.Finite? && b.Finite? && b.value != 0.0
    ensures r.Finite? ==> r.value * b.value == a.value
  {
    if a.Finite? && b.Finite? && b.value != 0.0 then Finite(a.value / b.value) else NonFinite
  }

  /** `a - b` */
  function Minus(a: Num, b: Num): (r: Num)
    ensures r.Finite? <==> a.Finite? && b.Finite?
    ensures r.Finite? ==> r.value + b.value == a.value
  {
    if a.Finite? && b.Finite? then Finite(a.value - b.value) else NonFinite
  }

  /** `a * k` for a finite constant `k` */
  function Times(a: Num, k: real): (r: Num)
    ensures r.Finite? <==> a.Finite?
  {
    if a.Finite? then Finite(a.value * k) else NonFinite
  }

  /** `a < k` for a finite constant `k`; every comparison with NaN is false. */
  predicate Below(a: Num, k: real)
  {
    a.Finite? && a.value < k
  }

  /** `Math.ceil(x)`: the least integer not below `x`. */
  function Ceil(x: real): (k: int)
    ensures x <= k as real < x + 1.0
  {
    if x.Floor as real == x then x.Floor else x.Floor + 1
  }

  /** No integer between `x` and `Ceil(x)`. */
  lemma CeilIsLeast(x: real, j: int)
    requires x <= j as real
    ensures Ceil(x) <= j
  {
  }

  /** The integer `Number.prototype.toFixed` writes for `x` scaled to whole
      units: the nearest integer, a tie going away from zero (toFixed works on
      the magnitude and keeps the sign). */
  function RoundHalfAway(x: real): (n: int)
    ensures x - 0.5 <= n as real <= x + 0.5
    ensures x >= 0.0 ==> x - 0.5 < n as real && n >= 0
    ensures x < 0.0 ==> n as real < x + 0.5 && n <= 0
  {
    if x >= 0.0 then (x + 0.5).Floor else -((-x + 0.5).Floor)
  }

  /** The numeric value of `n.toFixed(d)` read back as a number, for the scale
      `10^d`. NaN and the infinities are written as themselves. */
  function ToFixed(n: Num, scale: real): (r: Num)
    requires scale > 0.0
    ensures r.Finite? <==> n.Finite?
    ensures r.Finite? ==> n.value - 0.5 / scale <= r.value <= n.value + 0.5 / scale
    ensures r.Finite? ==> r.value * scale == RoundHalfAway(n.value * scale) as real
  {
    if n.Finite? then
      var k := RoundHalfAway(n.value * scale);
      assert n.value * scale - 0.5 <= k as real <= n.value * scale + 0.5;
      DivideBounds(n.value * scale, k as real, scale);
      Finite(k as real / scale)
    else NonFinite
  }

  /** Dividing `x - 1/2 <= k <= x + 1/2` by a positive scale. */
  lemma DivideBounds(x: real, k: real, scale: real)
    requires scale > 0.0
    requires x - 0.5 <= k <= x + 0.5
    ensures x / scale - 0.5 / scale <= k / scale <= x / scale + 0.5 / scale
  {
    assert (x - 0.5) / scale == x / scale - 0.5 / scale;
    assert (x + 0.5) / scale == x / scale + 0.5 / scale;
  }
}
