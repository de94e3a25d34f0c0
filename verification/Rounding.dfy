/** Decimal rounding to whole pence, on exact rationals num / den. */
module Rounding {

  /** ROUND_HALF_UP: to the nearest, ties away from zero. */
  function HalfUp(num: int, den: int): int
    requires den > 0
  {
    if num >= 0 then (2 * num + den) / (2 * den) else -((den - 2 * num) / (2 * den))
  }

  /** ROUND_HALF_EVEN, Decimal's default: to the nearest, ties to the even neighbour. */
  function HalfEven(num: int, den: int): int
    requires den > 0
  {
    var (q, r) := (num / den, num % den);
    if 2 * r < den || (2 * r == den && q % 2 == 0) then q else q + 1
  }

  /** `r` is a nearest integer to num / den. */
  predicate Nearest(r: int, num: int, den: int) {
    -den <= 2 * (den * r - num) <= den
  }

  lemma DivMod(a: int, d: int)
    requires d > 0
    ensures a == d * (a / d) + a % d && 0 <= a % d < d
  {
  }

  /** Half-up: nearest, and a tie goes away from zero. */
  lemma HalfUpNearest(num: int, den: int)
    requires den > 0
    ensures Nearest(HalfUp(num, den), num, den)
    ensures num >= 0 ==> 2 * (den * HalfUp(num, den) - num) > -den
    ensures num < 0 ==> 2 * (den * HalfUp(num, den) - num) < den
  {
    var a := if num >= 0 then 2 * num + den else den - 2 * num;
    DivMod(a, 2 * den);
    var q := a / (2 * den);
    assert (2 * den) * q == 2 * (den * q);
    if num < 0 {
      assert den * (-q) == -(den * q);
    }
  }

  /** Half-even: nearest, and a tie goes to the even neighbour. */
  lemma HalfEvenNearest(num: int, den: int)
    requires den > 0
    ensures Nearest(HalfEven(num, den), num, den)
    ensures 2 * (den * HalfEven(num, den) - num) in {den, -den} ==> HalfEven(num, den) % 2 == 0
  {
    DivMod(num, den);
    var q := num / den;
    assert den * (q + 1) == den * q + den;
  }

  /** To the nearest integer, ties to the even one. */
  predicate NearestEven(r: int, num: int, den: int) {
    Nearest(r, num, den) && (2 * (den * r - num) in {den, -den} ==> r % 2 == 0)
  }

  lemma HalfEvenIs(num: int, den: int)
    requires den > 0
    ensures NearestEven(HalfEven(num, den), num, den)
  {
    HalfEvenNearest(num, den);
  }

  /** Rounding to the nearest never crosses a whole number of pence. */
  lemma NearestBetween(r: int, num: int, den: int, lo: int, hi: int)
    requires den > 0 && Nearest(r, num, den) && lo * den <= num <= hi * den
    ensures lo <= r <= hi
  {
    assert den * (lo - 1) == lo * den - den && den * (hi + 1) == hi * den + den;
    if r < lo {
      MulMono(den, r, lo - 1);
    }
    if r > hi {
      MulMono(den, hi + 1, r);
    }
  }

  lemma MulMono(d: int, a: int, b: int)
    requires d >= 0 && a <= b
    ensures d * a <= d * b
  {
  }
}
