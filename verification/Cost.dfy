/**
 The price of one request (app/services/usage.py:44-61).

 Prices are stored with four decimals per million tokens, so a price is an integer
 number of 10^-4 dollars and `tokens * price` is an integer number of 10^-10 dollars.
 The charge is kept with six decimals, that is, in micro-dollars of 10^4 such units.
 */
module Cost {
  import opened Arithmetic
  import opened Rounding

  const UNITS_PER_MICRO := 10_000

  /** Registry prices, in 10^-4 dollars per million tokens. */
  datatype Price = Price(prompt: int, completion: int)

  datatype Usage = Usage(promptTokens: int, completionTokens: int)

  predicate NonNegativePrice(price: Price) {
    price.prompt >= 0 && price.completion >= 0
  }

  function Billable(tokens: int): nat {
    if tokens > 0 then tokens else 0
  }

  /** The exact price of a request, in 10^-10 dollars. */
  function ExactCost(usage: Usage, price: Price): int {
    Billable(usage.promptTokens) * price.prompt + Billable(usage.completionTokens) * price.completion
  }

  /** The price of a request rounded to micro-dollars. */
  function CostOf(usage: Usage, price: Price): int {
    HalfEven(ExactCost(usage, price), UNITS_PER_MICRO)
  }

  /** The accumulating form of the source: two guarded additions, then one rounding. */
  method ComputeCost(usage: Usage, price: Price) returns (cost: int)
    ensures cost == CostOf(usage, price)
    ensures var promptUnits := if usage.promptTokens > 0 then usage.promptTokens * price.prompt else 0;
            var completionUnits := if usage.completionTokens > 0 then usage.completionTokens * price.completion else 0;
            IsNearestEven(promptUnits + completionUnits, 10_000, cost)
  {
    var exact := 0;
    if usage.promptTokens > 0 {
      exact := exact + usage.promptTokens * price.prompt;
    }
    if usage.completionTokens > 0 {
      exact := exact + usage.completionTokens * price.completion;
    }
    assert exact == ExactCost(usage, price);
    HalfEvenIsNearest(exact, UNITS_PER_MICRO);
    cost := HalfEven(exact, UNITS_PER_MICRO);
  }

  /** A million tokens of one kind cost that kind's listed price, 10^-4 dollars being 100 micro-dollars. */
  lemma MillionTokens(p: int, q: int)
    ensures CostOf(Usage(1_000_000, 0), Price(p, q)) == 100 * p
    ensures CostOf(Usage(0, 1_000_000), Price(p, q)) == 100 * q
  {
    HalfEvenExact(100 * p, UNITS_PER_MICRO);
    HalfEvenExact(100 * q, UNITS_PER_MICRO);
    assert ExactCost(Usage(1_000_000, 0), Price(p, q)) == 100 * p * UNITS_PER_MICRO;
    assert ExactCost(Usage(0, 1_000_000), Price(p, q)) == 100 * q * UNITS_PER_MICRO;
  }

  /** The charge is the exact price in 10^-10 dollars, each count at its own price, to the nearest micro-dollar. */
  lemma CostIsNearest(usage: Usage, price: Price)
    requires usage.promptTokens >= 0 && usage.completionTokens >= 0
    ensures IsNearestEven(usage.promptTokens * price.prompt + usage.completionTokens * price.completion, 10_000,
                          CostOf(usage, price))
  {
    HalfEvenIsNearest(ExactCost(usage, price), UNITS_PER_MICRO);
  }

  /** A negative count costs what no tokens cost. */
  lemma NegativeIsFree(usage: Usage, price: Price)
    ensures usage.promptTokens < 0 ==> CostOf(usage, price) == CostOf(usage.(promptTokens := 0), price)
    ensures usage.completionTokens < 0 ==> CostOf(usage, price) == CostOf(usage.(completionTokens := 0), price)
  {
  }

  /** More tokens at higher prices never cost less. */
  lemma CostMonotone(u: Usage, v: Usage, p: Price, q: Price)
    requires NonNegativePrice(p)
    requires u.promptTokens <= v.promptTokens && u.completionTokens <= v.completionTokens
    requires p.prompt <= q.prompt && p.completion <= q.completion
    ensures CostOf(u, p) <= CostOf(v, q)
  {
    ProductMonotone(Billable(u.promptTokens), Billable(v.promptTokens), p.prompt, q.prompt);
    ProductMonotone(Billable(u.completionTokens), Billable(v.completionTokens), p.completion, q.completion);
    HalfEvenMonotone(ExactCost(u, p), ExactCost(v, q), UNITS_PER_MICRO);
  }

  lemma ProductMonotone(a: nat, b: nat, x: int, y: int)
    requires a <= b && 0 <= x <= y
    ensures a * x <= b * y
  {
    assert a * x <= a * y;
    assert a * y <= b * y;
  }

  /** Billing one request as two changes the total by at most one micro-dollar. */
  lemma SplitWithinOne(u: Usage, v: Usage, price: Price)
    requires u.promptTokens >= 0 && u.completionTokens >= 0
    requires v.promptTokens >= 0 && v.completionTokens >= 0
    ensures var whole := Usage(u.promptTokens + v.promptTokens, u.completionTokens + v.completionTokens);
            -1 <= CostOf(u, price) + CostOf(v, price) - CostOf(whole, price) <= 1
  {
    var whole := Usage(u.promptTokens + v.promptTokens, u.completionTokens + v.completionTokens);
    assert ExactCost(whole, price) == ExactCost(u, price) + ExactCost(v, price) by {
      Distribute(u.promptTokens, v.promptTokens, price.prompt);
      Distribute(u.completionTokens, v.completionTokens, price.completion);
    }
    HalfEvenIsNearest(ExactCost(u, price), UNITS_PER_MICRO);
    HalfEvenIsNearest(ExactCost(v, price), UNITS_PER_MICRO);
    HalfEvenIsNearest(ExactCost(whole, price), UNITS_PER_MICRO);
  }

  function TotalCost(bills: seq<(Usage, Price)>): int {
    if bills == [] then 0 else CostOf(bills[0].0, bills[0].1) + TotalCost(bills[1..])
  }

  function TotalExactCost(bills: seq<(Usage, Price)>): int {
    if bills == [] then 0 else ExactCost(bills[0].0, bills[0].1) + TotalExactCost(bills[1..])
  }

  /** Over n requests the charges drift from the exact prices by at most n/2 micro-dollars. */
  lemma {:induction false} AccumulatedError(bills: seq<(Usage, Price)>)
    ensures var drift := UNITS_PER_MICRO * TotalCost(bills) - TotalExactCost(bills);
            -|bills| * UNITS_PER_MICRO <= 2 * drift <= |bills| * UNITS_PER_MICRO
  {
    if bills == [] {
    } else {
      HalfEvenIsNearest(ExactCost(bills[0].0, bills[0].1), UNITS_PER_MICRO);
      AccumulatedError(bills[1..]);
    }
  }
}
