/** The three UK schedules of the calculator (tax year 2025/26, SDLT from
    April 2025) run through the band engine: income tax and SDLT with the
    breaking loop, employee Class 1 NIC with the continuing loop. */
module UkTax {
  import opened RealOps
  import opened BandedTax

  const PersonalAllowance: real := 12570.0

  /** Income tax: 0% up to the personal allowance, 20% to 50,270, 40% to
      125,140, 45% above. */
  const TaxBands: seq<Band> := [
    Band(0.0, Finite(12570.0), 0.0),
    Band(12570.0, Finite(50270.0), 0.20),
    Band(50270.0, Finite(125140.0), 0.40),
    Band(125140.0, Infinite, 0.45)
  ]

  /** Employee NIC: primary threshold and upper earnings limit. */
  const NicPrimaryThreshold: real := 12570.0
  const NicUpperEarningsLimit: real := 50270.0

  const NicRates: seq<Band> := [
    Band(NicPrimaryThreshold, Finite(NicUpperEarningsLimit), 0.12),
    Band(NicUpperEarningsLimit, Infinite, 0.02)
  ]

  /** Residential SDLT slabs. */
  const SdltBands: seq<Band> := [
    Band(0.0, Finite(125000.0), 0.00),
    Band(125000.0, Finite(250000.0), 0.02),
    Band(250000.0, Finite(925000.0), 0.05),
    Band(925000.0, Finite(1500000.0), 0.10),
    Band(1500000.0, Infinite, 0.12)
  ]

  /** Income tax on an annual gross salary, as the closed-form slab sum. */
  function IncomeTax(gross: real): real
  {
    SlabSum(gross, TaxBands)
  }

  /** Employee NIC on an annual gross salary. */
  function Nic(gross: real): real
  {
    SlabSum(gross, NicRates)
  }

  /** SDLT on a purchase price. */
  function Sdlt(price: real): real
  {
    SlabSum(price, SdltBands)
  }

  /** All three schedules are ascending and non-overlapping, with
      non-negative rates. */
  lemma SchedulesWellFormed()
    ensures Sorted(TaxBands) && NonNegativeRates(TaxBands)
    ensures Sorted(NicRates) && NonNegativeRates(NicRates)
    ensures Sorted(SdltBands) && NonNegativeRates(SdltBands)
  {
  }

  /** `compute_income_tax`: the breaking loop, then `max(0.0, tax)`. */
  method ComputeIncomeTax(gross: real) returns (tax: real)
    ensures tax == IncomeTax(gross)
  {
    SchedulesWellFormed();
    var sum := SumBandsBreaking(gross, TaxBands);
    SlabSumNonNegative(gross, TaxBands);
    tax := Max(0.0, sum);
  }

  /** `compute_nic`: the continuing loop, then `max(0.0, nic)`. */
  method ComputeNic(gross: real) returns (nic: real)
    ensures nic == Nic(gross)
  {
    SchedulesWellFormed();
    var sum := SumBandsContinuing(gross, NicRates);
    SlabSumNonNegative(gross, NicRates);
    nic := Max(0.0, sum);
  }

  /** `compute_sdlt`: the breaking loop, returned as it is. */
  method ComputeSdlt(price: real) returns (tax: real)
    ensures tax == Sdlt(price)
  {
    SchedulesWellFormed();
    tax := SumBandsBreaking(price, SdltBands);
  }

  /** A schedule of at most five bands written out as the sum of its
      charges. */
  lemma Unfold(x: real, bands: seq<Band>)
    requires |bands| == 2 || |bands| == 4 || |bands| == 5
    ensures |bands| == 2 ==>
      SlabSum(x, bands) == Charge(x, bands[0]) + Charge(x, bands[1])
    ensures |bands| == 4 ==>
      SlabSum(x, bands) == Charge(x, bands[0]) + Charge(x, bands[1]) + Charge(x, bands[2]) + Charge(x, bands[3])
    ensures |bands| == 5 ==>
      SlabSum(x, bands) == Charge(x, bands[0]) + Charge(x, bands[1]) + Charge(x, bands[2]) + Charge(x, bands[3])
                           + Charge(x, bands[4])
  {
    assert bands[..0] == [];
    PrefixStep(x, bands, 0);
    PrefixStep(x, bands, 1);
    if |bands| > 2 {
      PrefixStep(x, bands, 2);
      PrefixStep(x, bands, 3);
      if |bands| > 4 {
        PrefixStep(x, bands, 4);
      }
    }
    assert bands[..|bands|] == bands;
  }

  /** Income tax band by band: nothing up to the personal allowance, then
      20%, 40% above 50,270 and 45% above 125,140. */
  lemma IncomeTaxClosedForm(gross: real)
    ensures IncomeTax(gross) ==
      if gross <= 12570.0 then 0.0
      else if gross <= 50270.0 then 0.20 * (gross - 12570.0)
      else if gross <= 125140.0 then 7540.0 + 0.40 * (gross - 50270.0)
      else 7540.0 + 29948.0 + 0.45 * (gross - 125140.0)
  {
    Unfold(gross, TaxBands);
  }

  /** NIC band by band: nothing up to the primary threshold, 12% of the
      excess up to the upper earnings limit, 2% above it. */
  lemma NicClosedForm(gross: real)
    ensures Nic(gross) ==
      if gross <= NicPrimaryThreshold then 0.0
      else if gross <= NicUpperEarningsLimit then 0.12 * (gross - NicPrimaryThreshold)
      else 0.12 * (NicUpperEarningsLimit - NicPrimaryThreshold) + 0.02 * (gross - NicUpperEarningsLimit)
  {
    Unfold(gross, NicRates);
  }

  /** SDLT slab by slab. */
  lemma SdltClosedForm(price: real)
    ensures Sdlt(price) ==
      if price <= 125000.0 then 0.0
      else if price <= 250000.0 then 0.02 * (price - 125000.0)
      else if price <= 925000.0 then 2500.0 + 0.05 * (price - 250000.0)
      else if price <= 1500000.0 then 2500.0 + 33750.0 + 0.10 * (price - 925000.0)
      else 2500.0 + 33750.0 + 57500.0 + 0.12 * (price - 1500000.0)
  {
    Unfold(price, SdltBands);
  }

  /** Worked example: income tax on 60,000 is 7,540 + 3,892. */
  lemma IncomeTaxOn60000()
    ensures IncomeTax(60000.0) == 11432.0
  {
    IncomeTaxClosedForm(60000.0);
  }

  /** Band boundary: a salary of exactly 50,270 pays no 40% tax. */
  lemma IncomeTaxAtHigherRateThreshold()
    ensures IncomeTax(50270.0) == 7540.0
    ensures IncomeTax(50270.0) == SlabSum(50270.0, TaxBands[..2])
  {
    SchedulesWellFormed();
    BoundaryBelongsBelow(50270.0, TaxBands, 1);
    IncomeTaxClosedForm(50270.0);
  }

  /** Worked example: SDLT on 300,000 is 2,500 + 2,500. */
  lemma SdltOn300000()
    ensures Sdlt(300000.0) == 5000.0
  {
    SdltClosedForm(300000.0);
  }

  /** Sign: every tax is non-negative, and nothing is due on an amount at or
      below zero. */
  lemma TaxesNonNegative(x: real)
    ensures IncomeTax(x) >= 0.0 && Nic(x) >= 0.0 && Sdlt(x) >= 0.0
    ensures x <= 0.0 ==> IncomeTax(x) == 0.0 && Nic(x) == 0.0 && Sdlt(x) == 0.0
  {
    SchedulesWellFormed();
    SlabSumNonNegative(x, TaxBands);
    SlabSumNonNegative(x, NicRates);
    SlabSumNonNegative(x, SdltBands);
    if x <= 0.0 {
      ZeroBelowAllBands(x, TaxBands);
      ZeroBelowAllBands(x, NicRates);
      ZeroBelowAllBands(x, SdltBands);
    }
  }

  /** Monotonicity: a larger amount never pays less of any of the three. */
  lemma TaxesMonotone(x1: real, x2: real)
    requires x1 <= x2
    ensures IncomeTax(x1) <= IncomeTax(x2)
    ensures Nic(x1) <= Nic(x2)
    ensures Sdlt(x1) <= Sdlt(x2)
  {
    SchedulesWellFormed();
    SlabSumMonotone(x1, x2, TaxBands);
    SlabSumMonotone(x1, x2, NicRates);
    SlabSumMonotone(x1, x2, SdltBands);
  }
}
