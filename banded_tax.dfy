/** The generic slab (banded) tax engine behind income tax, National
    Insurance and Stamp Duty Land Tax: a schedule is an ascending list of
    `(low, high, rate)` bands, and an amount pays `rate` on the part of it
    that lies inside each band.

    `SlabSum` is the closed-form reference: the sum over all bands of
    `max(0, min(x, high) - low) * rate`. The two methods are the loops the
    calculator actually runs, one leaving early with `break` (income tax,
    SDLT) and one skipping bands with `continue` (NIC); each is proved equal
    to the closed form. */
module BandedTax {
  import opened RealOps

  /** The upper end of a band; the open top band is `float("inf")` in the
      calculator. */
  datatype Bound = Finite(value: real) | Infinite

  datatype Band = Band(low: real, high: Bound, rate: real)

  /** `x <= high`, with every amount below an infinite bound. */
  predicate AtMost(x: real, high: Bound)
  {
    high.Infinite? || x <= high.value
  }

  /** `min(x, high)`. */
  function Clip(x: real, high: Bound): real
  {
    match high
    case Infinite => x
    case Finite(h) => Min(x, h)
  }

  /** A band does not end below where it starts. */
  predicate WellFormedBand(b: Band)
  {
    AtMost(b.low, b.high)
  }

  predicate AllWellFormed(bands: seq<Band>)
  {
    forall i | 0 <= i < |bands| :: WellFormedBand(bands[i])
  }

  /** Ascending, non-overlapping bands: every band but possibly the last is
      bounded, and it ends at or below where every later band starts. */
  predicate Sorted(bands: seq<Band>)
  {
    && AllWellFormed(bands)
    && forall i, j | 0 <= i < j < |bands| :: EndsBefore(bands[i], bands[j])
  }

  /** Band `a` is bounded and ends at or below the start of band `b`. */
  predicate EndsBefore(a: Band, b: Band)
  {
    a.high.Finite? && a.high.value <= b.low
  }

  /** No band refunds tax. */
  predicate NonNegativeRates(bands: seq<Band>)
  {
    forall i | 0 <= i < |bands| :: 0.0 <= bands[i].rate
  }

  /** The part of `x` that lies inside band `b`: `max(0, min(x, high) - low)`. */
  function Portion(x: real, b: Band): real
  {
    Max(0.0, Clip(x, b.high) - b.low)
  }

  /** What band `b` charges on the amount `x`. */
  function Charge(x: real, b: Band): real
  {
    Portion(x, b) * b.rate
  }

  /** Closed-form slab sum of `x` over `bands`: the sum of every band's
      charge. */
  function SlabSum(x: real, bands: seq<Band>): real
    decreases |bands|
  {
    if |bands| == 0 then 0.0
    else SlabSum(x, bands[..|bands| - 1]) + Charge(x, bands[|bands| - 1])
  }

  /** The loop of `compute_income_tax` and `compute_sdlt`: stop at the first
      band that starts at or above `x`, and after the band that contains `x`. */
  method SumBandsBreaking(x: real, bands: seq<Band>) returns (tax: real)
    requires Sorted(bands)
    ensures tax == SlabSum(x, bands)
  {
    tax := 0.0;
    for i := 0 to |bands|
      invariant tax == SlabSum(x, bands[..i])
    {
      var low, high, rate := bands[i].low, bands[i].high, bands[i].rate;
      if x <= low {
        LaterBandsStartAbove(bands, i);
        BandsAboveVanish(x, bands, i);
        break;
      }
      var taxable := Clip(x, high) - low;
      BandStep(x, bands, i, tax, taxable, rate);
      tax := tax + taxable * rate;
      if AtMost(x, high) {
        LaterBandsStartAbove(bands, i);
        BandsAboveVanish(x, bands, i + 1);
        break;
      }
    }
    assert bands[..|bands|] == bands;
  }

  /** The loop of `compute_nic`: visit every band, skipping those that start
      at or above `x`. */
  method SumBandsContinuing(x: real, bands: seq<Band>) returns (tax: real)
    requires AllWellFormed(bands)
    ensures tax == SlabSum(x, bands)
  {
    tax := 0.0;
    for i := 0 to |bands|
      invariant tax == SlabSum(x, bands[..i])
    {
      var low, high, rate := bands[i].low, bands[i].high, bands[i].rate;
      if x <= low {
        BandsAboveVanish(x, bands[..i + 1], i);
        assert bands[..i + 1][..i] == bands[..i];
        continue;
      }
      var taxable := Clip(x, high) - low;
      BandStep(x, bands, i, tax, taxable, rate);
      tax := tax + taxable * rate;
    }
    assert bands[..|bands|] == bands;
  }

  /** One band that `x` reaches into: adding `taxable * rate` with
      `taxable = min(x, high) - low` extends the slab sum by that band. */
  lemma BandStep(x: real, bands: seq<Band>, i: nat, tax: real, taxable: real, rate: real)
    requires AllWellFormed(bands) && i < |bands| && tax == SlabSum(x, bands[..i])
    requires x > bands[i].low && taxable == Clip(x, bands[i].high) - bands[i].low && rate == bands[i].rate
    ensures tax + taxable * rate == SlabSum(x, bands[..i + 1])
  {
    assert bands[..i + 1][..i] == bands[..i];
    assert WellFormedBand(bands[i]);
    assert Portion(x, bands[i]) == taxable;
  }

  /** Taking one more band of the schedule adds that band's charge. */
  lemma PrefixStep(x: real, bands: seq<Band>, k: nat)
    requires k < |bands|
    ensures SlabSum(x, bands[..k + 1]) == SlabSum(x, bands[..k]) + Charge(x, bands[k])
  {
    assert bands[..k + 1][..k] == bands[..k];
  }

  /** Bands that start at or above `x` contribute nothing. */
  lemma {:induction false} BandsAboveVanish(x: real, bands: seq<Band>, k: nat)
    requires k <= |bands|
    requires forall j | k <= j < |bands| :: x <= bands[j].low
    ensures SlabSum(x, bands) == SlabSum(x, bands[..k])
    decreases |bands|
  {
    if k < |bands| {
      var init := bands[..|bands| - 1];
      BandsAboveVanish(x, init, k);
      assert init[..k] == bands[..k];
    } else {
      assert bands[..k] == bands;
    }
  }

  /** An amount at or below the start of every band is not taxed. */
  lemma ZeroBelowAllBands(x: real, bands: seq<Band>)
    requires forall j | 0 <= j < |bands| :: x <= bands[j].low
    ensures SlabSum(x, bands) == 0.0
  {
    BandsAboveVanish(x, bands, 0);
  }

  /** Band boundary: an amount no larger than the upper bound of band `i` is
      taxed only in band `i` and the bands below it. */
  lemma BoundaryBelongsBelow(x: real, bands: seq<Band>, i: nat)
    requires Sorted(bands) && i < |bands|
    requires AtMost(x, bands[i].high)
    ensures SlabSum(x, bands) == SlabSum(x, bands[..i + 1])
  {
    BandsAboveVanish(x, bands, i + 1);
  }

  /** With non-negative rates the slab sum is never negative. */
  lemma {:induction false} SlabSumNonNegative(x: real, bands: seq<Band>)
    requires NonNegativeRates(bands)
    ensures SlabSum(x, bands) >= 0.0
    decreases |bands|
  {
    if |bands| > 0 {
      var init, last := bands[..|bands| - 1], bands[|bands| - 1];
      assert NonNegativeRates(init);
      SlabSumNonNegative(x, init);
      ChargeMonotone(x, x, last);
    }
  }

  /** With non-negative rates the slab sum is non-decreasing in the amount. */
  lemma {:induction false} SlabSumMonotone(x1: real, x2: real, bands: seq<Band>)
    requires x1 <= x2 && NonNegativeRates(bands)
    ensures SlabSum(x1, bands) <= SlabSum(x2, bands)
    decreases |bands|
  {
    if |bands| > 0 {
      var init, last := bands[..|bands| - 1], bands[|bands| - 1];
      assert NonNegativeRates(init);
      SlabSumMonotone(x1, x2, init);
      ChargeMonotone(x1, x2, last);
    }
  }

  /** In a sorted schedule, band `i` starts no later than any later band
      starts, and ends no later than any later band starts. */
  lemma LaterBandsStartAbove(bands: seq<Band>, i: nat)
    requires Sorted(bands) && i < |bands|
    ensures WellFormedBand(bands[i])
    ensures forall j | i <= j < |bands| :: bands[i].low <= bands[j].low
    ensures forall j | i < j < |bands| :: EndsBefore(bands[i], bands[j])
  {
  }

  /** A band with a non-negative rate charges a non-negative amount that
      does not fall as the amount rises. */
  lemma ChargeMonotone(x1: real, x2: real, b: Band)
    requires x1 <= x2 && 0.0 <= b.rate
    ensures 0.0 <= Charge(x1, b) <= Charge(x2, b)
  {
    MulMonotone(0.0, Portion(x1, b), b.rate, b.rate);
    MulMonotone(Portion(x1, b), Portion(x2, b), b.rate, b.rate);
  }
}
