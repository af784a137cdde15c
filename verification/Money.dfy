/** Amounts are counted in paise: a `real` where the code has not rounded yet, an `int` where it has. Rounding a
    rupee amount to two decimals is then rounding to the nearest whole paisa, halves going up. */
module Money {

  /** `Math.round(x * 100) / 100`, `toFixed(2)` and `TaxEngine.roundToTwoDecimals`, on paise. */
  function Round(x: real): (r: int)
    ensures r as real - 0.5 <= x < r as real + 0.5
  {
    (x + 0.5).Floor
  }

  /** Rounding is the only integer within half a paisa, halves up. */
  lemma RoundUnique(x: real, n: int)
    requires n as real - 0.5 <= x < n as real + 0.5
    ensures Round(x) == n
  {
    var r := Round(x);
    assert r < n ==> r as real + 1.0 <= n as real;
    assert n < r ==> n as real + 1.0 <= r as real;
  }

  lemma RoundMonotone(x: real, y: real)
    requires x <= y
    ensures Round(x) <= Round(y)
  {
    assert Round(y) < Round(x) ==> Round(y) as real + 1.0 <= Round(x) as real;
  }

  /** Whole paise pass through a rounding unchanged. */
  lemma RoundShift(x: real, n: int)
    ensures Round(x + n as real) == Round(x) + n
  {
    assert (Round(x) + n) as real == Round(x) as real + n as real;
    RoundUnique(x + n as real, Round(x) + n);
  }

  lemma RoundWhole(n: int)
    ensures Round(n as real) == n
  {
    RoundUnique(n as real, n);
  }

  lemma RoundNonNegative(x: real)
    requires -0.5 <= x
    ensures 0 <= Round(x)
  {
    RoundMonotone(-0.5, x);
    RoundUnique(-0.5, 0);
  }

  predicate IsWhole(x: real) {
    x == x.Floor as real
  }

  /** `price * units` for a whole number of units. Written as repeated addition, which the solver handles linearly;
      `TimesIsProduct` says it is the product. */
  function Times(price: real, units: nat): real {
    if units == 0 then 0.0 else Times(price, units - 1) + price
  }

  lemma {:induction false} TimesIsProduct(price: real, units: nat)
    ensures Times(price, units) == price * units as real
  {
    if units == 0 {
    } else {
      TimesIsProduct(price, units - 1);
      assert price * units as real == price * (units - 1) as real + price;
    }
  }

  lemma {:induction false} TimesAdd(price: real, a: nat, b: nat)
    ensures Times(price, a + b) == Times(price, a) + Times(price, b)
  {
    if b == 0 {
    } else {
      TimesAdd(price, a, b - 1);
    }
  }

  /** A ratio of an amount. */
  function Part(amount: real, ratio: real): real {
    amount * ratio
  }

  lemma TimesMonotone(price: real, a: nat, b: nat)
    requires 0.0 <= price && a <= b
    ensures 0.0 <= Times(price, a) <= Times(price, b)
  {
    TimesNonNegative(price, a);
    TimesNonNegative(price, b - a);
    TimesAdd(price, a, b - a);
  }

  lemma {:induction false} TimesNonNegative(price: real, units: nat)
    requires 0.0 <= price
    ensures 0.0 <= Times(price, units)
  {
    if units == 0 {
    } else {
      TimesNonNegative(price, units - 1);
    }
  }
}
