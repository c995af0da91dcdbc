/** `float(i)` of an integer: the nearest double, ties to the even one, up to the largest. */
module Floats {

  const TWO_53: int := 0x20_0000_0000_0000
  const TWO_97: int := 0x2_0000_0000_0000_0000_0000_0000

  /** 2^1024 - 2^970: from here on `float(i)` raises instead of rounding. */
  const FLOAT_LIMIT: int :=
    0x3F_FFFF_FFFF_FFFF * (TWO_97 * TWO_97 * TWO_97 * TWO_97 * TWO_97) * (TWO_97 * TWO_97 * TWO_97 * TWO_97 * TWO_97)

  predicate BeyondFloat(i: int) { i >= FLOAT_LIMIT || i <= -FLOAT_LIMIT }

  /** The distance between doubles around an integer of this size; one below 2^53. */
  function Gap(n: nat): (g: int)
    ensures g >= 1
  {
    if n < TWO_53 then 1 else 2 * Gap(n / 2)
  }

  /** The multiple of the gap next to a natural number, the even one of two equally near. */
  function NearestNat(n: nat): (r: int)
    ensures r >= 0 && -Gap(n) <= 2 * (r - n) <= Gap(n)
  {
    var g := Gap(n);
    var rest := n % g;
    if 2 * rest > g || (2 * rest == g && (n / g) % 2 == 1) then n - rest + g else n - rest
  }

  function Nearest(i: int): int { if i < 0 then -NearestNat(-i) else NearestNat(i) }

  /** Integers below 2^53 convert exactly; the first one that does not is 2^53 + 1. */
  lemma {:induction false} SmallIsExact(i: int)
    requires -TWO_53 < i < TWO_53
    ensures Nearest(i) == i
  {
  }

  lemma {:induction false} FirstInexact()
    ensures Nearest(TWO_53 + 1) == TWO_53
  {
    assert Gap(TWO_53 + 1) == 2 * Gap((TWO_53 + 1) / 2) == 2;
  }
}
