/**
 Round-half-to-even division. `Decimal.quantize` uses it to bring a cost to six
 decimals, and binary64 arithmetic uses it to pick a 53-bit significand.
 */
module Rounding {
  import opened Arithmetic

  /** `num / den` rounded to an integer, ties going to the even neighbour. */
  function HalfEven(num: int, den: int): int
    requires den > 0
  {
    var q, r := num / den, num % den;
    if 2 * r < den then q
    else if 2 * r > den then q + 1
    else if q % 2 == 0 then q
    else q + 1
  }

  /** `r` is within half a unit of `num / den`, and is even when it is exactly half a unit away. */
  ghost predicate IsNearestEven(num: int, den: int, r: int)
    requires den > 0
  {
    var error := num - r * den;
    && -den <= 2 * error <= den
    && (2 * error == den || 2 * error == -den ==> r % 2 == 0)
  }

  lemma HalfEvenIsNearest(num: int, den: int)
    requires den > 0
    ensures IsNearestEven(num, den, HalfEven(num, den))
  {
    var q, r := num / den, num % den;
    assert num == q * den + r;
    assert (q + 1) * den == q * den + den;
  }

  /** Being nearest, with ties to even, determines the result. */
  lemma NearestEvenUnique(num: int, den: int, r: int, s: int)
    requires den > 0
    requires IsNearestEven(num, den, r) && IsNearestEven(num, den, s)
    ensures r == s
  {
    NearestEvenOrdered(num, den, r, s);
    NearestEvenOrdered(num, den, s, r);
  }

  lemma NearestEvenOrdered(num: int, den: int, r: int, s: int)
    requires den > 0
    requires IsNearestEven(num, den, r) && IsNearestEven(num, den, s)
    ensures s <= r
  {
    if s > r {
      MultiplesApart(r, s, den);
    }
  }

  lemma HalfEvenMonotone(a: int, b: int, den: int)
    requires den > 0 && a <= b
    ensures HalfEven(a, den) <= HalfEven(b, den)
  {
    var r, s := HalfEven(a, den), HalfEven(b, den);
    HalfEvenIsNearest(a, den);
    HalfEvenIsNearest(b, den);
    NearestEvenMonotone(a, b, den, r, s);
  }

  lemma NearestEvenMonotone(a: int, b: int, den: int, r: int, s: int)
    requires den > 0 && a <= b
    requires IsNearestEven(a, den, r) && IsNearestEven(b, den, s)
    ensures r <= s
  {
    if s < r {
      MultiplesApart(s, r, den);
      assert r == s + 1;
      assert a == b;
      NearestEvenUnique(a, den, r, s);
    }
  }

  /** Rounding an exact multiple changes nothing. */
  lemma HalfEvenExact(k: int, den: int)
    requires den > 0
    ensures HalfEven(k * den, den) == k
  {
    HalfEvenIsNearest(k * den, den);
    NearestEvenUnique(k * den, den, HalfEven(k * den, den), k);
  }

  // ----- ties away from zero -----

  /** `num / den` rounded to an integer, ties going away from zero, as a numeric column stores it. */
  function HalfAway(num: int, den: int): int
    requires den > 0
  {
    var q, r := num / den, num % den;
    if 2 * r > den || (2 * r == den && num >= 0) then q + 1 else q
  }

  lemma HalfAwayIsNearest(num: int, den: int)
    requires den > 0
    ensures var error := num - HalfAway(num, den) * den;
            && -den <= 2 * error <= den
            && (2 * error == den ==> num < 0) && (2 * error == -den ==> num >= 0)
  {
    var q, r := num / den, num % den;
    assert num == q * den + r;
    OneMore(q, den);
  }

  /** Adding a whole number before rounding is adding it afterwards, except to a tie that it takes below zero. */
  lemma HalfAwayShift(k: int, num: int, den: int)
    requires den > 0 && num >= 0
    ensures HalfAway(k * den + num, den)
         == k + HalfAway(num, den) - if 2 * (num % den) == den && k * den + num < 0 then 1 else 0
  {
    DivisionShift(k, num, den);
  }

  lemma DivisionShift(k: int, num: int, den: int)
    requires den > 0
    ensures (k * den + num) / den == k + num / den && (k * den + num) % den == num % den
  {
    var q, r := num / den, num % den;
    var p, s := (k * den + num) / den, (k * den + num) % den;
    assert num == q * den + r && k * den + num == p * den + s;
    Distribute(k, q, den);
    if p < k + q {
      MultiplesApart(p, k + q, den);
    } else if p > k + q {
      MultiplesApart(k + q, p, den);
    }
  }
}
