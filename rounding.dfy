/** Exact rounding of a rational quotient, as Python's built-in round() does it:
    to the nearest integer, and to the even one of two equally near integers. */
module Rounding {

  /** r is num / den rounded to the nearest integer, a tie going to the even neighbour. */
  predicate IsRounding(num: int, den: int, r: int)
  {
    && 2 * (num - den * r) <= den && 2 * (den * r - num) <= den
    && (2 * (num - den * r) == den || 2 * (den * r - num) == den ==> r % 2 == 0)
  }

  /** The integer nearest to num / den (den > 0), ties going to the even neighbour. */
  function RoundHalfEven(num: int, den: int): (r: int)
    requires den > 0
    ensures 2 * (num - den * r) <= den && 2 * (den * r - num) <= den
    ensures 2 * (num - den * r) == den || 2 * (den * r - num) == den ==> r % 2 == 0
  {
    var q := num / den;
    var m := num % den;
    assert num == den * q + m;
    assert den * (q + 1) == den * q + den;
    if 2 * m < den then q
    else if 2 * m > den then q + 1
    else if q % 2 == 0 then q
    else q + 1
  }

  /** den * d grows by den with each step of d; in particular it exceeds den once d > 1. */
  lemma MulStep(den: int, d: int)
    requires den > 0 && d >= 1
    ensures den * d >= den && (den * d == den ==> d == 1)
  {
    assert den * d == den * (d - 1) + den;
    if d > 1 {
      assert den * (d - 1) >= den * 1 by { MulStep(den, d - 1); }
    }
  }

  /** Roundings respect the order of the numerators: two integers more than one apart
      cannot both be within half of nearby quotients, and at distance one both would
      be ties, of which only one can be even. */
  lemma RoundingOrder(a: int, b: int, den: int, ra: int, rb: int)
    requires den > 0 && a <= b
    requires IsRounding(a, den, ra) && IsRounding(b, den, rb)
    ensures ra <= rb
  {
    if ra > rb {
      assert den * ra == den * rb + den * (ra - rb);
      MulStep(den, ra - rb);
    }
  }

  /** A rounding is negative exactly when the quotient is below -1/2. */
  lemma RoundingSign(num: int, den: int, r: int)
    requires den > 0 && IsRounding(num, den, r)
    ensures r < 0 <==> 2 * num + den < 0
  {
    if r < 0 {
      assert den * r == -(den * -r);
      MulStep(den, -r);
    } else if r > 0 {
      MulStep(den, r);
    }
  }

  /** The two properties of RoundHalfEven single out one integer: it is the only
      rounding of num / den to nearest with ties to even. */
  lemma RoundHalfEvenUnique(num: int, den: int, r: int)
    requires den > 0 && IsRounding(num, den, r)
    ensures r == RoundHalfEven(num, den)
  {
    var s := RoundHalfEven(num, den);
    RoundingOrder(num, num, den, r, s);
    RoundingOrder(num, num, den, s, r);
  }

  /** Sign of the rounded value: a non-negative quotient never rounds below zero,
      and the result is negative exactly when num / den < -1/2 (at -1/2 the tie goes to 0). */
  lemma RoundHalfEvenSign(num: int, den: int)
    requires den > 0
    ensures num >= 0 ==> RoundHalfEven(num, den) >= 0
    ensures RoundHalfEven(num, den) < 0 <==> 2 * num + den < 0
  {
    RoundingSign(num, den, RoundHalfEven(num, den));
  }

  /** Rounding is monotone in the numerator. */
  lemma RoundHalfEvenMonotone(a: int, b: int, den: int)
    requires den > 0 && a <= b
    ensures RoundHalfEven(a, den) <= RoundHalfEven(b, den)
  {
    RoundingOrder(a, b, den, RoundHalfEven(a, den), RoundHalfEven(b, den));
  }

  /** An exact quotient rounds to itself. */
  lemma RoundHalfEvenExact(q: int, den: int)
    requires den > 0
    ensures RoundHalfEven(den * q, den) == q
  {
    RoundHalfEvenUnique(den * q, den, q);
  }
}
