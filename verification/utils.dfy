/** Fixed-point helpers of `clients/utils.js`: powers of ten, the shared
    constants and the decimal rescaling `scale`.

    A human decimal amount such as "6.1" is represented by its wei value, the
    18-decimal integer `toWei` produces; `toWei` itself is a foreign library
    conversion and is not modelled. */
module Utils {

  /** 10^n. */
  function Pow10(n: nat): (r: nat)
    ensures r >= 1
  {
    if n == 0 then 1 else 10 * Pow10(n - 1)
  }

  /** `_1e18`: one whole token in wei. */
  const E18: nat := 1_000_000_000_000_000_000

  /** `TEN_THOUSAND`: basis points in 100%. */
  const TenThousand: nat := 10_000

  lemma E18IsPow10()
    ensures E18 == Pow10(18)
  {
    assert Pow10(6) == 1_000_000;
    Pow10Add(6, 6);
    Pow10Add(12, 6);
  }

  lemma {:induction false} Pow10Add(a: nat, b: nat)
    ensures Pow10(a + b) == Pow10(a) * Pow10(b)
    decreases a
  {
    if a > 0 {
      Pow10Add(a - 1, b);
      assert Pow10(a + b) == 10 * Pow10(a - 1 + b);
    }
  }

  lemma MulNonPositive(q: int, k: int)
    requires q <= -1 && k > 0
    ensures q * k <= -k
  {
    assert q * k == (q + 1) * k - k;
    assert (q + 1) * k <= 0;
  }

  /** Floor division by a positive divisor, stated by its two bounds. */
  lemma DivBounds(a: nat, k: nat)
    requires k > 0
    ensures 0 <= a / k
    ensures (a / k) * k <= a < (a / k + 1) * k
  {
    var q := a / k;
    assert a == k * q + a % k;
    if q < 0 {
      MulNonPositive(q, k);
    }
  }

  /** A quotient is determined by its two bounds. */
  lemma DivUnique(a: nat, k: nat, q: nat)
    requires k > 0
    requires q * k <= a < (q + 1) * k
    ensures a / k == q
  {
    DivBounds(a, k);
    var p := a / k;
    if p < q {
      MulMonotone(p + 1, q, k);
    }
  }

  lemma MulMonotone(a: nat, b: nat, k: nat)
    requires a <= b
    ensures a * k <= b * k
  {
  }

  /** Floor division by a positive divisor is monotone in the dividend. */
  lemma DivMonotone(a: nat, b: nat, k: nat)
    requires k > 0
    requires a <= b
    ensures a / k <= b / k
  {
    DivBounds(a, k);
    DivBounds(b, k);
    if a / k > b / k {
      MulMonotone(b / k + 1, a / k, k);
    }
  }

  /** `a * k` divides back to `a` with nothing left over. */
  lemma MulDivExact(a: nat, k: nat)
    requires k > 0
    ensures (a * k) / k == a
    ensures (a * k) % k == 0
  {
    DivUnique(a * k, k, a);
  }

  /** `scale(num, decimals)`: takes the wei value of `num` and rescales it
      from 18 decimals to `decimals`, truncating when going down and exactly
      multiplying when going up. */
  function Scale(wei: nat, decimals: nat): (r: nat)
    ensures decimals <= 18 ==>
      r * Pow10(18 - decimals) <= wei < (r + 1) * Pow10(18 - decimals)
    ensures decimals >= 18 ==>
      r % Pow10(decimals - 18) == 0 && r / Pow10(decimals - 18) == wei
  {
    if decimals < 18 then
      var k := Pow10(18 - decimals);
      DivBounds(wei, k);
      wei / k
    else if decimals > 18 then
      var k := Pow10(decimals - 18);
      MulDivExact(wei, k);
      wei * k
    else
      wei
  }

  /** Inverse of `Scale`: the wei value an amount at `decimals` decimals
      stands for (exact going up to 18 decimals, floor coming down). */
  function Unscale(units: nat, decimals: nat): (r: nat)
  {
    if decimals <= 18 then
      var k := Pow10(18 - decimals);
      MulMonotone(0, units, k);
      units * k
    else
      var k := Pow10(decimals - 18);
      DivBounds(units, k);
      units / k
  }

  /** Scaling down to fewer decimals loses at most one unit at the target
      precision; scaling up to more decimals loses nothing. */
  lemma ScaleRoundTrip(wei: nat, decimals: nat)
    ensures decimals <= 18 ==>
      Unscale(Scale(wei, decimals), decimals) <= wei
      < Unscale(Scale(wei, decimals), decimals) + Pow10(18 - decimals)
    ensures decimals >= 18 ==> Unscale(Scale(wei, decimals), decimals) == wei
  {
  }

  /** An amount already at `decimals` precision survives the trip to wei and
      back unchanged. */
  lemma UnscaleRoundTrip(units: nat, decimals: nat)
    requires decimals <= 18
    ensures Scale(Unscale(units, decimals), decimals) == units
  {
    var k := Pow10(18 - decimals);
    DivUnique(units * k, k, units);
  }

  lemma ScaleIdentityAt18(wei: nat)
    ensures Scale(wei, 18) == wei
  {
  }

  /** Scaling down never increases the integer. */
  lemma ScaleDownBounded(wei: nat, decimals: nat)
    requires decimals <= 18
    ensures Scale(wei, decimals) <= wei
  {
    var r := Scale(wei, decimals);
    MulMonotone(1, Pow10(18 - decimals), r);
  }

  /** For fixed decimals, scaling is monotone non-decreasing in the amount. */
  lemma ScaleMonotone(a: nat, b: nat, decimals: nat)
    requires a <= b
    ensures Scale(a, decimals) <= Scale(b, decimals)
  {
    if decimals < 18 {
      DivMonotone(a, b, Pow10(18 - decimals));
    } else if decimals > 18 {
      MulMonotone(a, b, Pow10(decimals - 18));
    }
  }

  /** The 6-decimal example: 6.1 tokens truncate to 6100000 units. */
  lemma ScaleExample()
    ensures Scale(6_100_000_000_000_000_000, 6) == 6_100_000
  {
    assert Pow10(12) == 1_000_000_000_000;
  }
}
