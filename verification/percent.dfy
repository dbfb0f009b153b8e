/** The percentage arithmetic behind the dashboard's progress bars:
    `(part / whole) * 100`, `Math.min(x, 100)` and
    `Math.max(0, Math.min(100, x))`. Amounts are exact integers and ratios
    exact reals; a zero denominator is excluded by the callers' preconditions. */
module Percent {

  /** `part` as a percentage of `whole`. */
  function Ratio(part: int, whole: int): (r: real)
    requires whole != 0
    ensures r * whole as real == part as real * 100.0
  {
    part as real / whole as real * 100.0
  }

  /** Multiplying by a positive factor keeps the order of two reals. */
  lemma ScaleOrder(a: real, b: real, w: real)
    requires w > 0.0
    ensures a < b <==> a * w < b * w
    ensures a == b <==> a * w == b * w
  {
    var d := (b - a) * w;
    assert d == b * w - a * w;
    if a < b {
      assert d > 0.0;
    } else if b < a {
      assert (a - b) * w > 0.0;
    }
  }

  /** Against a positive whole, the percentage reaches 100 exactly when the
      part reaches the whole, and is positive exactly when the part is. */
  lemma RatioOrder(part: int, whole: int)
    requires whole > 0
    ensures Ratio(part, whole) < 100.0 <==> part < whole
    ensures Ratio(part, whole) == 100.0 <==> part == whole
    ensures Ratio(part, whole) > 0.0 <==> part > 0
    ensures Ratio(part, whole) == 0.0 <==> part == 0
  {
    var r := Ratio(part, whole);
    var w := whole as real;
    ScaleOrder(r, 100.0, w);
    ScaleOrder(0.0, r, w);
  }

  /** The same positive part is a smaller percentage of a larger whole. */
  lemma LargerWholeSmallerRatio(part: int, small: int, large: int)
    requires 0 < small < large && part > 0
    ensures Ratio(part, large) < Ratio(part, small)
  {
    var a := Ratio(part, large);
    var b := Ratio(part, small);
    RatioOrder(part, small);
    assert b > 0.0;
    ScaleOrder(small as real, large as real, b);
    ScaleOrder(b, a, large as real);
    assert a * large as real == b * small as real;
  }

  /** The percentages of a part and of the rest of the whole add up to 100. */
  lemma RatiosComplement(part: int, whole: int)
    requires whole != 0
    ensures Ratio(whole - part, whole) + Ratio(part, whole) == 100.0
  {
    var a := Ratio(whole - part, whole);
    var b := Ratio(part, whole);
    var w := whole as real;
    var x := a * w;
    var y := b * w;
    assert x + y == 100.0 * w;
    assert (a + b) * w == x + y;
  }

  /** `Math.min(x, 100)`: the capped value never exceeds 100 and leaves
      values up to 100 alone. */
  function Cap(x: real): (r: real)
    ensures r <= 100.0
    ensures x <= 100.0 ==> r == x
    ensures x >= 100.0 ==> r == 100.0
  {
    if x < 100.0 then x else 100.0
  }

  /** `Math.max(0, Math.min(100, x))`: always within [0, 100], the identity
      inside that range, and the nearer bound outside it. */
  function Clamp(x: real): (r: real)
    ensures 0.0 <= r <= 100.0
    ensures 0.0 <= x <= 100.0 ==> r == x
    ensures x < 0.0 ==> r == 0.0
    ensures x > 100.0 ==> r == 100.0
  {
    if x < 0.0 then 0.0 else Cap(x)
  }
}
