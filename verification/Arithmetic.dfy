/** Products of integers, one law at a time, and the associativity of concatenation. */
module Arithmetic {
  lemma Distribute(a: int, b: int, x: int)
    ensures (a + b) * x == a * x + b * x
  {
  }

  lemma DistributeMinus(a: int, b: int, x: int)
    ensures (a - b) * x == a * x - b * x
  {
  }

  lemma OneMore(r: int, den: int)
    ensures (r + 1) * den == r * den + den
  {
  }

  lemma {:induction false} ProductOrdered(a: int, b: int, den: int)
    requires den >= 0 && a <= b
    ensures a * den <= b * den
    decreases b - a
  {
    if a == b {
    } else {
      OneMore(a, den);
      ProductOrdered(a + 1, b, den);
    }
  }

  lemma MultiplesApart(r: int, s: int, den: int)
    requires den > 0 && r < s
    ensures s * den >= r * den + den
    ensures r + 2 <= s ==> s * den >= r * den + 2 * den
  {
    OneMore(r, den);
    ProductOrdered(r + 1, s, den);
    if r + 2 <= s {
      OneMore(r + 1, den);
      ProductOrdered(r + 2, s, den);
    }
  }

  lemma Associates<T>(x: seq<T>, y: seq<T>, z: seq<T>)
    ensures (x + y) + z == x + (y + z)
  {
  }
}
