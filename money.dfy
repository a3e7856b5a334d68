/** Exact money arithmetic. Both the price calculator and the promo-code
    evaluator round an amount to two decimals; the service does it with
    Python's `round`, which resolves ties to the even neighbour. Here the
    rounding is done on exact values instead of binary floats. */
module Money {

  /** `x` has no more than two decimals. */
  ghost predicate IsCents(x: real) {
    (x * 100.0).Floor as real == x * 100.0
  }

  /** The integer nearest to `y`, ties going to the even neighbour. */
  function RoundHalfEven(y: real): (n: int)
    ensures y - 0.5 <= n as real <= y + 0.5
    ensures (n as real - y == 0.5 || y - n as real == 0.5) ==> n % 2 == 0
  {
    var f := y.Floor;
    var frac := y - f as real;
    if frac < 0.5 then f
    else if frac > 0.5 then f + 1
    else if f % 2 == 0 then f
    else f + 1
  }

  /** `x` rounded to two decimals. */
  function Round2(x: real): (r: real)
    ensures IsCents(r)
    ensures x - 0.005 <= r <= x + 0.005
  {
    var y := x * 100.0;
    var n := RoundHalfEven(y);
    var r := n as real / 100.0;
    assert r * 100.0 == n as real;
    assert r - x == (n as real - y) / 100.0;
    r
  }

  /** Rounding half to even never swaps the order of two values. */
  lemma RoundHalfEvenMonotone(y: real, z: real)
    requires y <= z
    ensures RoundHalfEven(y) <= RoundHalfEven(z)
  {
    // Both results lie within one half of their arguments, so a descent
    // would need y == z with one tie resolved two ways.
  }

  /** Rounding to two decimals is monotone. */
  lemma Round2Monotone(x: real, y: real)
    requires x <= y
    ensures Round2(x) <= Round2(y)
  {
    RoundHalfEvenMonotone(x * 100.0, y * 100.0);
  }

  /** An amount that already has two decimals is left alone. */
  lemma Round2OfCents(x: real)
    requires IsCents(x)
    ensures Round2(x) == x
  {
    var y := x * 100.0;
    assert y.Floor as real == y;
    assert RoundHalfEven(y) == y.Floor;
  }

  /** `amount` reduced by `percent` percent and rounded to two decimals. A
      non-negative two-decimal amount stays between zero and itself, and
      without a discount it is rounded only. */
  function Discounted(amount: real, percent: int): (r: real)
    requires 0 <= percent <= 100
    ensures IsCents(r)
    ensures var exact := amount * (1.0 - percent as real / 100.0);
      exact - 0.005 <= r <= exact + 0.005
    ensures amount >= 0.0 && IsCents(amount) ==> 0.0 <= r <= amount
    ensures percent == 0 ==> r == Round2(amount)
  {
    DiscountedWithin(amount, percent);
    Round2(amount * (1.0 - percent as real / 100.0))
  }

  lemma DiscountedWithin(amount: real, percent: int)
    requires 0 <= percent <= 100
    ensures amount >= 0.0 && IsCents(amount) ==>
      0.0 <= Round2(amount * (1.0 - percent as real / 100.0)) <= amount
    ensures percent == 0 ==> amount * (1.0 - percent as real / 100.0) == amount
  {
    if amount >= 0.0 && IsCents(amount) {
      DiscountedBounds(amount, percent);
    }
  }

  /** A non-negative amount with two decimals, scaled down by a percentage
      in 0..100 and rounded, stays between zero and the amount. */
  lemma DiscountedBounds(amount: real, percent: int)
    requires amount >= 0.0 && IsCents(amount) && 0 <= percent <= 100
    ensures 0.0 <= Round2(amount * (1.0 - percent as real / 100.0)) <= amount
  {
    DiscountScales(amount, percent);
    RoundedBetween(amount * (1.0 - percent as real / 100.0), amount);
  }

  lemma DiscountScales(amount: real, percent: int)
    requires amount >= 0.0 && 0 <= percent <= 100
    ensures 0.0 <= amount * (1.0 - percent as real / 100.0) <= amount
  {
    ScaledBetween(amount, 1.0 - percent as real / 100.0);
  }

  /** Rounding a value between zero and a two-decimal bound stays within
      them. */
  lemma RoundedBetween(x: real, bound: real)
    requires 0.0 <= x <= bound && IsCents(bound)
    ensures 0.0 <= Round2(x) <= bound
  {
    Round2Monotone(0.0, x);
    Round2Monotone(x, bound);
    Round2OfCents(0.0);
    Round2OfCents(bound);
  }

  lemma ScaledBetween(amount: real, factor: real)
    requires amount >= 0.0 && 0.0 <= factor <= 1.0
    ensures 0.0 <= amount * factor <= amount
  {
    assert amount - amount * factor == amount * (1.0 - factor);
  }
}
