/** `SmartstoreUploader.calculate_korean_price` (smartstore_uploader.py):
    a US dollar price converted to a won listing price. Amounts are exact
    rationals. */
module Pricing {
  import opened Wrappers

  const UsdToKrw: real := 1350.0
  const Markup: real := 1.6
  const RoundingUnit: int := 800
  const MinimumPrice: int := 1000

  /** Python's `round` on one argument: to the nearest integer, ties to the
      even neighbour. */
  function RoundHalfEven(x: real): (r: int)
    ensures x - 0.5 <= r as real <= x + 0.5
    ensures (r as real == x - 0.5 || r as real == x + 0.5) ==> r % 2 == 0
  {
    var f := x.Floor;
    var d := x - f as real;
    if d < 0.5 then f
    else if d > 0.5 then f + 1
    else if f % 2 == 0 then f
    else f + 1
  }

  /** `adjusted_price % 100 == 0` for a positive amount. */
  predicate IsMultipleOf100(x: real) {
    (x / 100.0).Floor as real == x / 100.0
  }

  /** The won amount after conversion and the 1.6 markup. */
  function Adjusted(usd: real): real {
    usd * UsdToKrw * Markup
  }

  /** `calculate_korean_price`. `usd` is what `float` makes of the input
      after '$' and ',' are deleted, `None` where it raises. */
  function KoreanPrice(usd: Option<real>): (r: int)
    ensures r == 0 <==> usd.None? || usd.value <= 0.0
    ensures usd.Some? && usd.value > 0.0 ==> r >= MinimumPrice
    ensures usd.Some? && usd.value > 0.0 && !IsMultipleOf100(Adjusted(usd.value)) ==>
      && (r == MinimumPrice || r % RoundingUnit == 0)
      && (r > MinimumPrice ==> Adjusted(usd.value) - 400.0 <= r as real <= Adjusted(usd.value) + 400.0)
      && r == Max(RoundHalfEven(Adjusted(usd.value) / 800.0) * RoundingUnit, MinimumPrice)
    ensures usd.Some? && usd.value > 0.0 && IsMultipleOf100(Adjusted(usd.value)) ==>
      && r % 100 == 0
      && r == Max(Adjusted(usd.value).Floor, MinimumPrice)
      && (r > MinimumPrice ==> r as real == Adjusted(usd.value))
  {
    match usd
    case None => 0
    case Some(p) =>
      if p <= 0.0 then 0
      else
        var adjusted := Adjusted(p);
        if IsMultipleOf100(adjusted) then
          WholeHundreds(adjusted);
          Max(adjusted.Floor, MinimumPrice)
        else
          NearestMultipleOf800(adjusted);
          Max(RoundHalfEven(adjusted / 800.0) * RoundingUnit, MinimumPrice)
  }

  lemma WholeHundreds(x: real)
    requires IsMultipleOf100(x)
    ensures x.Floor as real == x && x.Floor % 100 == 0
  {
    var q := (x / 100.0).Floor;
    assert x == q as real * 100.0;
    assert (q * 100) as real == x;
  }

  lemma NearestMultipleOf800(x: real)
    ensures var k := RoundHalfEven(x / 800.0);
      x - 400.0 <= (k * 800) as real <= x + 400.0
  {
    var k := RoundHalfEven(x / 800.0);
    assert x / 800.0 - 0.5 <= k as real <= x / 800.0 + 0.5;
    assert (k * 800) as real == k as real * 800.0;
  }

  function Max(a: int, b: int): int {
    if a >= b then a else b
  }

  /** Because the 800-won rounding is skipped for amounts that are already
      whole hundreds, a dearer item can list cheaper: 7.50 dollars become
      16 200 won and stay so, while 7.51 dollars become 16 221.6 won and
      round down to 16 000. */
  lemma PriceNotMonotone()
    ensures KoreanPrice(Some(7.5)) == 16200
    ensures KoreanPrice(Some(7.51)) == 16000
  {
    assert Adjusted(7.5) == 16200.0;
    assert IsMultipleOf100(16200.0) by {
      assert 16200.0 / 100.0 == 162.0;
    }
    assert Adjusted(7.51) == 16221.6;
    assert !IsMultipleOf100(16221.6) by {
      assert (16221.6 / 100.0).Floor == 162;
    }
    assert RoundHalfEven(16221.6 / 800.0) == 20 by {
      assert (16221.6 / 800.0).Floor == 20;
    }
  }
}
