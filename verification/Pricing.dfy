/**
 From a dollar price to atomic USDC units through binary64 arithmetic
 (app/x402/pricing.py:40-53): parse the decimal, multiply by a million, truncate.
 Each operation is correctly rounded, ties to even (section 4.3.1 of IEEE 754-2008).
 */
module Pricing {
  import opened Arithmetic
  import opened Powers
  import opened Rounding

  const P51: nat := 0x8_0000_0000_0000
  const P52: nat := 2 * P51
  const P53: nat := 2 * P52
  const MILLION: nat := 1_000_000

  /** The number `significand / 2^scale`. */
  datatype Binary64 = Binary64(significand: nat, scale: nat)

  /**
   The binary64 number nearest to `num / den`: scale until the integer part has 53 bits, then
   round. The values met here need no other exponents.
   */
  function Nearest(num: nat, den: nat): Binary64
    requires 0 < den && num < P53 * den
    decreases P53 * den - num
  {
    if num == 0 then Binary64(0, 0)
    else if num >= P52 * den then
      HalfEvenNonNegative(num, den);
      Binary64(HalfEven(num, den), 0)
    else
      var b := Nearest(2 * num, den);
      b.(scale := b.scale + 1)
  }

  lemma HalfEvenNonNegative(num: nat, den: nat)
    requires den > 0
    ensures HalfEven(num, den) >= 0
  {
    HalfEvenMonotone(0, num, den);
    HalfEvenExact(0, den);
    assert 0 * den == 0;
  }

  /** `float` of the price with `units` millionths of a dollar, a decimal with at most six places. */
  function FloatOfPrice(units: nat): Binary64
    requires units < P51
  {
    Nearest(units, MILLION)
  }

  /** The floating product by a million, then the truncation. */
  function AtomicUnits(units: nat): nat
    requires units < P51
  {
    var price := FloatOfPrice(units);
    ProductInRange(units);
    var product := Nearest(price.significand * MILLION, Pow2(price.scale));
    product.significand / Pow2(product.scale)
  }

  // ----- what rounding guarantees -----

  /** Scaled to 53 bits, the exact quotient is within half a unit of the significand, which is even in a tie. */
  ghost predicate RoundsTo(num: nat, den: nat, b: Binary64)
    requires den > 0
  {
    var t := Pow2(b.scale);
    && IsNearestEven(num * t, den, b.significand)
    && num * t >= P52 * den
  }

  lemma {:induction false} NearestRounds(num: nat, den: nat)
    requires 0 < den && 0 < num < P53 * den
    ensures RoundsTo(num, den, Nearest(num, den))
    decreases P53 * den - num
  {
    if num >= P52 * den {
      HalfEvenIsNearest(num, den);
      assert Pow2(0) == 1;
    } else {
      NearestRounds(2 * num, den);
      var b := Nearest(2 * num, den);
      ShiftFactor(num, Pow2(b.scale));
    }
  }

  lemma ShiftFactor(num: nat, t: nat)
    ensures (2 * num) * t == num * (2 * t)
  {
  }

  /** The scale of a price below 2^51 dollars' worth of units exceeds two million. */
  lemma PriceScale(units: nat)
    requires 0 < units < P51
    ensures Pow2(FloatOfPrice(units).scale) > 2 * MILLION
    ensures 2 * (FloatOfPrice(units).significand * MILLION) < P52 * Pow2(FloatOfPrice(units).scale)
  {
    NearestRounds(units, MILLION);
    var t := Pow2(FloatOfPrice(units).scale);
    if t <= 2 * MILLION {
      ProductBelow(units, t, 2 * MILLION);
      assert false;
    }
    ProductOrdered(units, P51 - 1, t);
  }

  lemma ProductBelow(units: nat, t: nat, most: nat)
    requires t <= most
    ensures units * t <= units * most
  {
    ProductOrdered(t, most, units);
    assert units * t == t * units && units * most == most * units;
  }

  lemma ProductInRange(units: nat)
    requires units < P51
    ensures FloatOfPrice(units).significand * MILLION < P53 * Pow2(FloatOfPrice(units).scale)
  {
    if units > 0 {
      PriceScale(units);
    }
  }

  /** Two roundings, each within half a unit in the 53rd bit, stay within half an atomic unit together. */
  lemma TwoRoundings(n: nat, t: nat, m: nat, s: nat, p: nat)
    requires 2 * MILLION < t && 2 < s
    requires -(MILLION as int) <= 2 * (n * t - m * MILLION) <= MILLION
    requires -(t as int) <= 2 * ((m * MILLION) * s - p * t) <= t
    ensures n * s - s < p < n * s + s
  {
    // s times the first inequality plus the second bounds 2 * (n * s - p) * t by t + s * MILLION < s * t
    var e := n * t - m * MILLION;
    ScaledError(e, MILLION, s);
    assert (n * t) * s == e * s + (m * MILLION) * s by { Distribute(e, m * MILLION, s); }
    assert (n * t) * s == (n * s) * t by { Rearrange(n, t, s); }
    var d := n * s - p;
    assert d * t == (n * s) * t - p * t by { DistributeMinus(n * s, p, t); }
    assert 2 * (d * t) <= t + s * MILLION && -(t + s * MILLION) <= 2 * (d * t);
    assert 2 * (s * MILLION) <= s * t by {
      ProductOrdered(2 * MILLION, t, s);
      assert (2 * MILLION) * s == 2 * (s * MILLION);
      assert t * s == s * t;
    }
    assert 2 * t <= s * t by { ProductOrdered(2, s, t); }
    assert -(s * t) <= 2 * (d * t) <= s * t;
    FactorBelow(d, s, t);
    assert (-d) * t == -(d * t);
    FactorBelow(-d, s, t);
  }

  lemma FactorBelow(d: int, s: nat, t: nat)
    requires 0 < s && 0 < t && 2 * (d * t) <= s * t
    ensures d < s
  {
    if d >= s {
      ProductOrdered(s, d, t);
      ProductOrdered(1, s, t);
      assert false;
    }
  }

  lemma ScaledError(e: int, bound: nat, s: nat)
    requires -(bound as int) <= 2 * e <= bound
    ensures -(s * bound) <= 2 * (e * s) <= s * bound
  {
    ProductOrdered(2 * e, bound, s);
    ProductOrdered(-(bound as int), 2 * e, s);
    assert (2 * e) * s == 2 * (e * s) && bound * s == s * bound && (-(bound as int)) * s == -(s * bound);
  }

  lemma Rearrange(n: int, t: int, s: int)
    ensures (n * t) * s == (n * s) * t
  {
  }

  /** A quotient strictly between `n - 1` and `n + 1` truncates to `n - 1` or `n`. */
  lemma TruncatesNear(n: nat, s: nat, p: nat)
    requires s > 0 && n * s - s < p < n * s + s
    ensures p / s == n || p / s == n - 1
  {
    var q := p / s;
    assert q * s <= p < q * s + s by { assert p == q * s + p % s; }
    if q >= n + 1 {
      ProductOrdered(n + 1, q, s);
      OneMore(n, s);
      assert false;
    }
    if q <= n - 2 {
      ProductOrdered(q + 2, n, s);
      OneMore(q, s);
      OneMore(q + 1, s);
      assert false;
    }
  }

  /** A price of `n` atomic units converts to `n` or `n - 1`, never more: the payer is never overcharged. */
  lemma ConversionBound(n: nat)
    requires n < P51
    ensures AtomicUnits(n) == n || AtomicUnits(n) == n - 1
  {
    if n > 0 {
      var price := FloatOfPrice(n);
      var t := Pow2(price.scale);
      NearestRounds(n, MILLION);
      PriceScale(n);
      ProductInRange(n);
      var num := price.significand * MILLION;
      assert num > 0;
      NearestRounds(num, t);
      var product := Nearest(num, t);
      var s := Pow2(product.scale);
      if s <= 2 {
        ProductBelow(num, s, 2);
        assert false;
      }
      TwoRoundings(n, t, price.significand, s, product.significand);
      TruncatesNear(n, s, product.significand);
    } else {
      assert AtomicUnits(0) == 0;
    }
  }

  // ----- which prices convert exactly -----

  /** The spacing of binary64 numbers at the product of the parsed price and a million is one part in this. */
  function ProductScale(n: nat): (s: nat)
    requires n < P51
    ensures s > 0
  {
    var price := FloatOfPrice(n);
    ProductInRange(n);
    Pow2(Nearest(price.significand * MILLION, Pow2(price.scale)).scale)
  }

  /** By how much the parsed float, times a million, falls short of `n`, in parts of `Pow2(scale)`. */
  function Shortfall(n: nat): int
    requires n < P51
  {
    var price := FloatOfPrice(n);
    n * Pow2(price.scale) - price.significand * MILLION
  }

  lemma ScaleAboveTwo(num: nat, t: nat)
    requires t > 0 && 0 < num && 2 * num < P52 * t
    ensures num < P53 * t && Pow2(Nearest(num, t).scale) > 2
  {
    NearestRounds(num, t);
    var s := Pow2(Nearest(num, t).scale);
    if s <= 2 {
      ProductBelow(num, s, 2);
      assert false;
    }
  }

  /** A tie just below a multiple of an even scale rounds up to it. */
  lemma RoundsUpIff(n: nat, s: nat, t: nat, num: nat, p: nat)
    requires s % 2 == 0 && 0 < t && IsNearestEven(num * s, t, p)
    ensures p >= n * s <==> 2 * (n * s * t - num * s) <= t
  {
    if p >= n * s {
      ProductOrdered(n * s, p, t);
    } else {
      ProductOrdered(p, n * s - 1, t);
      DistributeMinus(n * s, 1, t);
      if 2 * (n * s * t - num * s) <= t {
        if p < n * s - 1 {
          MultiplesApart(p, n * s - 1, t);
          assert false;
        }
        EvenMultiple(n, s);
        assert false;
      }
    }
  }

  lemma EvenMultiple(n: nat, s: nat)
    requires s % 2 == 0
    ensures (n * s) % 2 == 0
  {
    var half := s / 2;
    assert n * s == 2 * (n * half);
  }

  lemma PowerIsEven(k: nat)
    requires Pow2(k) > 2
    ensures Pow2(k) % 2 == 0
  {
  }

  lemma TruncatesTo(n: nat, s: nat, p: nat)
    requires s > 0 && (p / s == n || p / s == n - 1)
    ensures p / s == n <==> p >= n * s
  {
    assert p == (p / s) * s + p % s;
    OneMore(n - 1, s);
  }

  /**
   A price converts exactly if and only if the parsed float, times a million, falls short of it by
   no more than half the spacing of floats there: then the product rounds up to the whole number,
   otherwise truncation takes one away.
   */
  lemma ExactIff(n: nat)
    requires n < P51
    ensures AtomicUnits(n) == n <==> 2 * (Shortfall(n) * ProductScale(n)) <= Pow2(FloatOfPrice(n).scale)
  {
    if n == 0 {
      assert AtomicUnits(0) == 0 && Shortfall(0) == 0 * Pow2(0) - 0 * MILLION;
    } else {
      var price := FloatOfPrice(n);
      var t, num := Pow2(price.scale), price.significand * MILLION;
      ConversionBound(n);
      NearestRounds(n, MILLION);
      PriceScale(n);
      assert num > 0;
      ScaleAboveTwo(num, t);
      NearestRounds(num, t);
      var product := Nearest(num, t);
      var s := Pow2(product.scale);
      PowerIsEven(product.scale);
      RoundsUpIff(n, s, t, num, product.significand);
      TruncatesTo(n, s, product.significand);
      DistributeMinus(n * t, num, s);
      Rearrange(n, t, s);
    }
  }

  // ----- exact cases and a short one -----

  lemma HalvedScale(num: nat, den: nat, scale: nat, scaled: nat)
    requires scale > 0 && num > 0 && scaled == num * Pow2(scale) && scaled < P53 * den
    ensures scaled == (2 * num) * Pow2(scale - 1) && 2 * num <= scaled
  {
    var t := Pow2(scale - 1);
    ShiftFactor(num, t);
    ProductOrdered(1, t, 2 * num);
  }

  /** Only one scale brings a number to 53 bits. */
  lemma {:induction false} NearestAt(num: nat, den: nat, scale: nat, scaled: nat)
    requires 0 < den && 0 < num < P53 * den
    requires scaled == num * Pow2(scale) && P52 * den <= scaled < P53 * den
    ensures HalfEven(scaled, den) >= 0
    ensures Nearest(num, den) == Binary64(HalfEven(scaled, den), scale)
    decreases scale
  {
    HalfEvenNonNegative(scaled, den);
    if scale == 0 {
      assert scaled == num;
    } else {
      HalvedScale(num, den, scale, scaled);
      NearestAt(2 * num, den, scale - 1, scaled);
    }
  }

  lemma PowerAt(a: nat, b: nat, x: nat, y: nat)
    requires Pow2(a) == x && Pow2(b) == y
    ensures Pow2(a + b) == x * y
  {
    Pow2Sum(a, b);
  }

  lemma Power20()
    ensures Pow2(20) == 0x10_0000
  {
    PowerAt(1, 1, 2, 2);
    PowerAt(2, 2, 4, 4);
    PowerAt(4, 1, 16, 2);
    PowerAt(5, 5, 32, 32);
    PowerAt(10, 10, 1024, 1024);
  }

  lemma Power40(k: nat, extra: nat)
    requires k == 40 + extra
    ensures Pow2(k) == 0x100_0000_0000 * Pow2(extra)
  {
    Power20();
    PowerAt(20, 20, 0x10_0000, 0x10_0000);
    PowerAt(40, extra, 0x100_0000_0000, Pow2(extra));
  }

  lemma Power60(k: nat, extra: nat)
    requires k == 60 + extra
    ensures Pow2(k) == 0x1000_0000_0000_0000 * Pow2(extra)
  {
    Power20();
    Power40(k - 20, extra);
    PowerAt(k - 20, 20, 0x100_0000_0000 * Pow2(extra), 0x10_0000);
  }

  /** A conversion computed from the scales and significands of its two roundings. */
  lemma ConvertsTo(n: nat, k: nat, t: nat, m: nat, k2: nat, s: nat, p: nat)
    requires 0 < n < P51 && Pow2(k) == t && Pow2(k2) == s
    requires P52 * MILLION <= n * t < P53 * MILLION && IsNearestEven(n * t, MILLION, m)
    requires P52 * t <= (m * MILLION) * s < P53 * t && IsNearestEven((m * MILLION) * s, t, p)
    ensures AtomicUnits(n) == p / s
  {
    NearestAt(n, MILLION, k, n * t);
    HalfEvenIsNearest(n * t, MILLION);
    NearestEvenUnique(n * t, MILLION, HalfEven(n * t, MILLION), m);
    ProductInRange(n);
    NearestAt(m * MILLION, t, k2, (m * MILLION) * s);
    HalfEvenIsNearest((m * MILLION) * s, t);
    NearestEvenUnique((m * MILLION) * s, t, HalfEven((m * MILLION) * s, t), p);
  }

  lemma HalfCent(n: nat, k: nat, k2: nat)
    requires n == 5_000 && k == 60 && k2 == 40
    ensures AtomicUnits(n) == n
  {
    Power60(k, 0);
    Power40(k2, 0);
    ConvertsTo(n, k, 0x1000_0000_0000_0000, 5764607523034235, k2, 0x100_0000_0000, 5497558138880000);
  }

  lemma TenthOfCent(n: nat, k: nat, k2: nat)
    requires n == 1_000 && k == 62 && k2 == 43
    ensures AtomicUnits(n) == n
  {
    Power60(k, 2);
    Power40(k2, 3);
    ConvertsTo(n, k, 0x4000_0000_0000_0000, 4611686018427388, k2, 0x800_0000_0000, 8796093022208000);
  }

  /** The listed prices, nothing, a tenth of a cent and half a cent, convert exactly. */
  lemma ListedPricesExact(n: nat)
    requires n == 0 || n == 1_000 || n == 5_000
    ensures AtomicUnits(n) == n
  {
    if n == 5_000 {
      HalfCent(n, 60, 40);
    } else if n == 1_000 {
      TenthOfCent(n, 62, 43);
    }
  }

  /** The bound is reached: a price of 0.000249 dollars converts to 248 units. */
  lemma ShortByOne(n: nat)
    requires n == 249
    ensures AtomicUnits(n) == n - 1
  {
    RoundedShort(n, 64, 45);
  }

  lemma RoundedShort(n: nat, k: nat, k2: nat)
    requires n == 249 && k == 64 && k2 == 45
    ensures AtomicUnits(n) == n - 1
  {
    Power60(k, 4);
    Power40(k2, 5);
    ConvertsTo(n, k, 0x1_0000_0000_0000_0000, 4593239274353678, k2, 0x2000_0000_0000, 8760908650119167);
  }
}
