/** `round(x, 12)` over the reals: to twelve decimals, ties to the even digit. */
module Rounding {

  const SCALE: real := 1000000000000.0

  function HalfEven(y: real): int {
    var f := y.Floor;
    var d := y - f as real;
    if d < 0.5 then f
    else if d > 0.5 then f + 1
    else if f % 2 == 0 then f
    else f + 1
  }

  function Round12(x: real): real { HalfEven(x * SCALE) as real / SCALE }

  /** The nearest integer, and of two equally near the even one. */
  lemma {:induction false} HalfEvenNearest(y: real)
    ensures -0.5 <= HalfEven(y) as real - y <= 0.5
    ensures HalfEven(y) as real - y in {-0.5, 0.5} ==> HalfEven(y) % 2 == 0
  {
  }

  lemma {:induction false} HalfEvenMonotone(x: real, y: real)
    requires x <= y
    ensures HalfEven(x) <= HalfEven(y)
  {
    assert x.Floor <= y.Floor;
  }

  /** Rounding never reverses an order. */
  lemma {:induction false} Round12Monotone(x: real, y: real)
    requires x <= y
    ensures Round12(x) <= Round12(y)
  {
    assert x * SCALE <= y * SCALE;
    HalfEvenMonotone(x * SCALE, y * SCALE);
  }

  /** A value in [0, 1] stays there. */
  lemma {:induction false} Round12Unit(x: real)
    requires 0.0 <= x <= 1.0
    ensures 0.0 <= Round12(x) <= 1.0
  {
    Round12Monotone(0.0, x);
    Round12Monotone(x, 1.0);
    assert HalfEven(0.0) == 0 && HalfEven(SCALE) == 1000000000000;
  }
}
