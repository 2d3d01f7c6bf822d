/** The pure helpers of the clicker's economy: the three price curves, the
    passive rate and the rounding applied to the per-click value when a
    multiplier is bought (click-it/Clicker.js, lines 12-15 and 36).

    The script computes with IEEE-754 doubles; this module computes with exact
    reals and integers, so `Math.floor(25 * Math.pow(1.3, l))` is the floor of
    the exact value 25 * (13/10)^l. Per-click values are kept in integer
    hundredths ("cents"), which is what `toFixed(2)` rounds to. */
module Pricing {

  /** b to the power n, for a natural exponent. */
  function Pow(b: real, n: nat): real
  {
    if n == 0 then 1.0 else b * Pow(b, n - 1)
  }

  lemma {:induction false} PowAtLeastOne(b: real, n: nat)
    requires b >= 1.0
    ensures Pow(b, n) >= 1.0
  {
    if n > 0 {
      PowAtLeastOne(b, n - 1);
      assert b * Pow(b, n - 1) >= 1.0 * Pow(b, n - 1);
    }
  }

  /** Math.round: the nearest integer, halves rounded towards +infinity. */
  function JsRound(x: real): (r: int)
    ensures r as real - 0.5 <= x < r as real + 0.5
  {
    (x + 0.5).Floor
  }

  // ---------------------------------------------------------------------
  // priceMult and priceAuto (lines 12-13)
  // ---------------------------------------------------------------------

  /** priceMult(l) = floor(25 * 1.3^l), the cost of the next multiplier level. */
  function PriceMult(level: nat): (p: nat)
    ensures p as real <= 25.0 * Pow(1.3, level) < p as real + 1.0
    ensures p >= 25
  {
    PowAtLeastOne(1.3, level);
    (25.0 * Pow(1.3, level)).Floor
  }

  /** priceAuto(n) = floor(50 * 1.45^n), the cost of the next auto-clicker. */
  function PriceAuto(count: nat): (p: nat)
    ensures p as real <= 50.0 * Pow(1.45, count) < p as real + 1.0
    ensures p >= 50
  {
    PowAtLeastOne(1.45, count);
    (50.0 * Pow(1.45, count)).Floor
  }

  /** Each multiplier level costs strictly more than the one before it. */
  lemma PriceMultStep(level: nat)
    ensures PriceMult(level) < PriceMult(level + 1)
  {
  }

  /** Each auto-clicker costs strictly more than the one before it. */
  lemma PriceAutoStep(count: nat)
    ensures PriceAuto(count) < PriceAuto(count + 1)
  {
  }

  /** The multiplier curve starts at 25 and is increasing in the level. */
  lemma {:induction false} PriceMultMonotone(l1: nat, l2: nat)
    requires l1 <= l2
    ensures PriceMult(0) == 25
    ensures PriceMult(l1) <= PriceMult(l2)
    ensures l1 < l2 ==> PriceMult(l1) < PriceMult(l2)
  {
    if l1 < l2 {
      PriceMultMonotone(l1, l2 - 1);
      PriceMultStep(l2 - 1);
    }
  }

  /** The auto-clicker curve starts at 50 and is increasing in the count. */
  lemma {:induction false} PriceAutoMonotone(n1: nat, n2: nat)
    requires n1 <= n2
    ensures PriceAuto(0) == 50
    ensures PriceAuto(n1) <= PriceAuto(n2)
    ensures n1 < n2 ==> PriceAuto(n1) < PriceAuto(n2)
  {
    if n1 < n2 {
      PriceAutoMonotone(n1, n2 - 1);
      PriceAutoStep(n2 - 1);
    }
  }

  // ---------------------------------------------------------------------
  // priceCrit (line 14)
  // ---------------------------------------------------------------------

  /** The exponent of priceCrit, Math.round(c*100)/5: the crit chance in whole
      percent divided by 5. The rounding happens BEFORE the division, so the
      exponent is a multiple of 1/5, not an integer. */
  function CritExponent(c: real): (e: real)
    ensures (5.0 * e).Floor as real == 5.0 * e
    ensures 5.0 * e - 0.5 <= c * 100.0 < 5.0 * e + 0.5
  {
    JsRound(c * 100.0) as real / 5.0
  }

  /** n^5 on naturals. */
  function Fifth(n: nat): nat
  {
    n * n * n * n * n
  }

  lemma FifthAtLeast(n: nat)
    ensures Fifth(n) >= n
  {
  }

  lemma FifthStep(n: nat)
    ensures Fifth(n) < Fifth(n + 1)
  {
  }

  lemma {:induction false} FifthMonotone(m: nat, n: nat)
    requires m < n
    ensures Fifth(m) < Fifth(n)
  {
    if m + 1 < n {
      FifthMonotone(m, n - 1);
    }
    FifthStep(n - 1);
  }

  /** The integer fifth root of x, searched upwards from p. */
  function Root5From(x: real, p: nat): (r: nat)
    requires Fifth(p) as real <= x
    ensures p <= r
    ensures Fifth(r) as real <= x < Fifth(r + 1) as real
    decreases x.Floor - p
  {
    FifthAtLeast(p);
    if x < Fifth(p + 1) as real then p
    else
      FifthAtLeast(p + 1);
      Root5From(x, p + 1)
  }

  /** floor(x^(1/5)) for x >= 0: the largest r with r^5 <= x. */
  function Root5(x: real): (r: nat)
    requires x >= 0.0
    ensures Fifth(r) as real <= x < Fifth(r + 1) as real
  {
    Root5From(x, 0)
  }

  /** There is only one r with r^5 <= x < (r+1)^5. */
  lemma Root5Unique(x: real, r: nat, q: nat)
    requires Fifth(r) as real <= x < Fifth(r + 1) as real
    requires Fifth(q) as real <= x < Fifth(q + 1) as real
    ensures r == q
  {
    if r < q {
      FifthMonotone(r + 1, q + 1);
      if r + 1 < q { FifthMonotone(r + 1, q); }
    } else if q < r {
      if q + 1 < r { FifthMonotone(q + 1, r); }
    }
  }

  /** (200 * 1.9^(k/5))^5 = 200^5 * 1.9^k for the rounded percentage k of c;
      a negative k (a saved chance below zero) divides instead. */
  function CritBound(c: real): (b: real)
    ensures b > 0.0
  {
    var k := JsRound(c * 100.0);
    PowAtLeastOne(1.9, if k >= 0 then k else -k);
    if k >= 0 then Pow(200.0, 5) * Pow(1.9, k) else Pow(200.0, 5) / Pow(1.9, -k)
  }

  /** priceCrit(c) = floor(200 * 1.9^(Math.round(c*100)/5)), written without the
      fractional power: p is that floor exactly when p^5 <= 200^5 * 1.9^k < (p+1)^5. */
  function PriceCrit(c: real): (p: nat)
    ensures Fifth(p) as real <= CritBound(c) < Fifth(p + 1) as real
  {
    Root5(CritBound(c))
  }

  // ---------------------------------------------------------------------
  // cps (line 15)
  // ---------------------------------------------------------------------

  /** cps() = autos * (1 + mult * 0.1): score per second from auto-clickers. */
  function Cps(autos: nat, mult: nat): (r: real)
    ensures r >= autos as real
    ensures autos == 0 ==> r == 0.0
  {
    autos as real * (1.0 + mult as real * 0.1)
  }

  /** The passive rate is non-decreasing in both the auto count and the level. */
  lemma CpsMonotone(a1: nat, m1: nat, a2: nat, m2: nat)
    requires a1 <= a2 && m1 <= m2
    ensures Cps(a1, m1) <= Cps(a2, m2)
  {
  }

  // ---------------------------------------------------------------------
  // The per-click update of buyMult (line 36)
  // ---------------------------------------------------------------------

  /** +(perClick * 1.25).toFixed(2) on a value held in hundredths: the nearest
      hundredth of 1.25 * cents. toFixed rounds the magnitude with halves going
      up and then restores the sign, so negative halves go away from zero. */
  function NextPerClick(cents: int): (r: int)
    ensures cents >= 0 ==> 100 * r - 50 <= 125 * cents < 100 * r + 50
    ensures cents < 0 ==> 100 * r - 50 < 125 * cents <= 100 * r + 50
    ensures cents >= 0 ==> r >= cents
    ensures cents >= 2 ==> r > cents
  {
    if cents >= 0 then (125 * cents + 50) / 100
    else -((125 * -cents + 50) / 100)
  }

  /** The concrete values of the rate and price curves at their starting points.
      priceCrit at the starting chance 0.03 has exponent 3/5, so it costs 293.
      The per-click value goes from 1.00 to 1.25 on the first multiplier; on the
      thirteenth, 14.54 * 1.25 = 18.175 is an exact half and rounds up to 18.18. */
  lemma StartingPrices()
    ensures PriceMult(0) == 25 && PriceMult(1) == 32
    ensures PriceAuto(0) == 50 && PriceAuto(1) == 72
    ensures CritExponent(0.03) == 0.6 && CritExponent(0.05) == 1.0
    ensures PriceCrit(0.03) == 293
    ensures Cps(2, 3) / 20.0 == 0.13
    ensures NextPerClick(100) == 125 && NextPerClick(1454) == 1818
  {
    assert Pow(1.3, 1) == 1.3;
    assert Pow(1.45, 1) == 1.45;
    assert JsRound(0.03 * 100.0) == 3;
    assert JsRound(0.05 * 100.0) == 5;
    assert Pow(200.0, 5) == 320000000000.0;
    assert Pow(1.9, 3) == 6.859;
    assert CritBound(0.03) == 2194880000000.0;
    assert Fifth(293) == 2159424884693;
    assert Fifth(294) == 2196527536224;
    Root5Unique(CritBound(0.03), PriceCrit(0.03), 293);
  }
}
