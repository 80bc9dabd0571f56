/**
 Prices as they are written (app/x402/pricing.py:9-30 and 40-53): dollar signs stripped, then a
 decimal of at most six places, read as millionths of a dollar.
 */
module PriceText {
  import opened Wrappers
  import opened Pricing

  const PLACES: nat := 6

  /** `lstrip('$')`. */
  function Bare(text: string): string {
    if text != "" && text[0] == '$' then Bare(text[1..]) else text
  }

  predicate AllDigits(s: string) {
    forall i :: 0 <= i < |s| ==> '0' <= s[i] <= '9'
  }

  function DigitsValue(digits: string): nat
    requires AllDigits(digits)
  {
    if digits == "" then 0
    else 10 * DigitsValue(digits[..|digits| - 1]) + (digits[|digits| - 1] - '0') as nat
  }

  function PointAt(s: string): (i: nat)
    ensures i <= |s| && (i < |s| ==> s[i] == '.') && '.' !in s[..i]
  {
    if s == "" || s[0] == '.' then 0
    else
      assert s[..1 + PointAt(s[1..])] == [s[0]] + s[1..][..PointAt(s[1..])];
      1 + PointAt(s[1..])
  }

  /** Millionths of a dollar; nothing for parts that do not make a plain decimal of at most six places. */
  function Reading(whole: string, fraction: string): Option<nat> {
    if AllDigits(whole) && AllDigits(fraction) && whole + fraction != "" && |fraction| <= PLACES
    then Some(DigitsValue(whole + fraction) * Pow10(PLACES - |fraction|))
    else None
  }

  function Pow10(k: nat): nat {
    if k == 0 then 1 else 10 * Pow10(k - 1)
  }

  function UnitsOf(text: string): Option<nat> {
    var s := Bare(text);
    var i := PointAt(s);
    Reading(s[..i], if i < |s| then s[i + 1..] else "")
  }

  /** Prices the conversion is modelled for. */
  predicate Plain(text: string) {
    UnitsOf(text).Some? && UnitsOf(text).value < P51
  }

  /** The conversion of the source; a text that is no number counts as nothing. */
  function Convert(text: string): nat {
    if Plain(text) then AtomicUnits(UnitsOf(text).value) else 0
  }

  /** A written price converts to the atomic units it denotes, or to one less. */
  lemma ConvertBound(text: string)
    requires Plain(text)
    ensures Convert(text) == UnitsOf(text).value || Convert(text) == UnitsOf(text).value - 1
  {
    ConversionBound(UnitsOf(text).value);
  }

  // ----- every amount can be written -----

  /** The last `places` decimal digits of `n`. */
  function Digits(n: nat, places: nat): (digits: string)
    ensures |digits| == places && AllDigits(digits)
  {
    if places == 0 then "" else Digits(n / 10, places - 1) + ['0' + (n % 10) as char]
  }

  function Decimal(n: nat): (digits: string)
    ensures digits != "" && AllDigits(digits)
  {
    if n < 10 then ['0' + n as char] else Decimal(n / 10) + ['0' + (n % 10) as char]
  }

  lemma ValueSnoc(digits: string, d: nat)
    requires AllDigits(digits) && d < 10
    ensures DigitsValue(digits + ['0' + d as char]) == 10 * DigitsValue(digits) + d
  {
    assert (digits + ['0' + d as char])[..|digits|] == digits;
  }

  lemma {:induction false} DecimalValue(n: nat)
    ensures DigitsValue(Decimal(n)) == n
  {
    if n < 10 {
      ValueSnoc("", n);
      assert "" + ['0' + n as char] == ['0' + n as char];
    } else {
      DecimalValue(n / 10);
      ValueSnoc(Decimal(n / 10), n % 10);
    }
  }

  /** Writing the low digits after the high ones writes the number. */
  lemma {:induction false} SplitValue(whole: string, n: nat, places: nat)
    requires AllDigits(whole) && n < Pow10(places)
    ensures DigitsValue(whole + Digits(n, places)) == DigitsValue(whole) * Pow10(places) + n
  {
    if places == 0 {
      assert whole + "" == whole;
    } else {
      var front := whole + Digits(n / 10, places - 1);
      SplitValue(whole, n / 10, places - 1);
      ValueSnoc(front, n % 10);
      assert whole + Digits(n, places) == front + ['0' + (n % 10) as char];
      Tenfold(DigitsValue(whole), Pow10(places - 1));
    }
  }

  lemma Tenfold(value: nat, power: nat)
    ensures 10 * (value * power) == value * (10 * power)
  {
  }

  /** `whole` dollars and `fraction` written with `places` digits after the point. */
  function Write(whole: nat, fraction: nat, places: nat): string {
    "$" + Decimal(whole) + "." + Digits(fraction, places)
  }

  lemma {:induction false} PointAfter(whole: string, fraction: string)
    requires AllDigits(whole)
    ensures PointAt(whole + "." + fraction) == |whole|
  {
    var s := whole + "." + fraction;
    if whole != "" {
      assert s[1..] == whole[1..] + "." + fraction;
      PointAfter(whole[1..], fraction);
    }
  }

  /** A dollar text is read by its two parts. */
  lemma ReadsParts(text: string, whole: string, fraction: string)
    requires AllDigits(whole) && whole != "" && text == "$" + whole + "." + fraction
    ensures UnitsOf(text) == Reading(whole, fraction)
  {
    var s := whole + "." + fraction;
    assert text[1..] == s && s[0] == whole[0];
    assert Bare(text) == Bare(s) == s;
    PointAfter(whole, fraction);
    assert s[..|whole|] == whole && s[|whole| + 1..] == fraction;
  }

  lemma ReadsValue(text: string, whole: string, fraction: string, value: nat)
    requires AllDigits(whole) && whole != "" && AllDigits(fraction) && |fraction| <= PLACES
    requires text == "$" + whole + "." + fraction && DigitsValue(whole + fraction) == value
    ensures UnitsOf(text) == Some(value * Pow10(PLACES - |fraction|))
  {
    ReadsParts(text, whole, fraction);
  }

  lemma WrittenValue(whole: nat, fraction: nat, places: nat)
    requires fraction < Pow10(places)
    ensures DigitsValue(Decimal(whole) + Digits(fraction, places)) == whole * Pow10(places) + fraction
  {
    DecimalValue(whole);
    SplitValue(Decimal(whole), fraction, places);
  }

  /** Reading a written amount gives its millionths, however many places it is written with. */
  lemma WrittenPrice(whole: nat, fraction: nat, places: nat)
    requires places <= PLACES && fraction < Pow10(places)
    ensures UnitsOf(Write(whole, fraction, places)) == Some((whole * Pow10(places) + fraction) * Pow10(PLACES - places))
  {
    WrittenValue(whole, fraction, places);
    ReadsValue(Write(whole, fraction, places), Decimal(whole), Digits(fraction, places),
               whole * Pow10(places) + fraction);
  }

  lemma PowersOfTen(k: nat)
    requires k == 3
    ensures Pow10(k) == 1_000
  {
    assert Pow10(k) == 10 * Pow10(k - 1) && Pow10(k - 1) == 10 * Pow10(k - 2);
  }

  lemma {:induction false} ZeroDigits(places: nat)
    ensures forall i :: 0 <= i < places ==> Digits(0, places)[i] == '0'
  {
    if places == 0 {
    } else {
      ZeroDigits(places - 1);
    }
  }

  lemma ThreePlaces(d: nat, k: nat)
    requires d < 10 && k == 3
    ensures Digits(d, k) == ['0', '0', '0' + d as char]
  {
    ZeroDigits(k - 1);
    assert Digits(d, k) == Digits(0, k - 1) + ['0' + d as char];
  }

  lemma ZeroDollars(n: nat)
    requires n == 0
    ensures Decimal(n) == ['0']
  {
  }

  lemma TenthsText(d: nat, n: nat, k: nat, text: string)
    requires d < 10 && n == 0 && k == 3 && text == ['$', '0', '.', '0', '0', '0' + d as char]
    ensures text == Write(n, d, k)
  {
    ThreePlaces(d, k);
    ZeroDollars(n);
  }

  /** Texts of a price below a cent, in tenths of a cent. */
  lemma TenthsOfCent(d: nat, n: nat, k: nat, text: string)
    requires d < 10 && n == 0 && k == 3 && text == ['$', '0', '.', '0', '0', '0' + d as char]
    ensures UnitsOf(text) == Some(1_000 * d)
  {
    TenthsText(d, n, k, text);
    PowersOfTen(k);
    WrittenPrice(n, d, k);
    assert PLACES - k == k && n * Pow10(k) == 0;
  }

  /** The texts of the listed table convert to exactly what they denote. */
  lemma ListedTexts(text: string)
    requires text == "$0.001" || text == "$0.005"
    ensures UnitsOf(text) == Some(Convert(text)) && Convert(text) == if text == "$0.001" then 1_000 else 5_000
  {
    var d := if text == "$0.001" then 1 else 5;
    TenthsOfCent(d, 0, 3, text);
    ListedPricesExact(1_000 * d);
  }
}
