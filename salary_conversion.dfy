/** Conversion between an annual gross salary and take-home pay: the direct
    direction (`gross_to_net`) subtracts income tax and NIC, and the inverse
    (`net_to_gross`) is a fixed 60-step bisection that relies on net pay
    rising with gross pay. */
module SalaryConversion {
  import opened RealOps
  import opened UkTax

  /** `(net_annual, tax, nic)` as `gross_to_net` returns it. */
  datatype Pay = Pay(net: real, tax: real, nic: real)

  /** Take-home pay alone: the gross less both deductions. */
  function NetOf(gross: real): real
  {
    gross - IncomeTax(gross) - Nic(gross)
  }

  /** Take-home pay and the two deductions on an annual gross salary. */
  function GrossToNet(gross: real): (p: Pay)
    ensures p.tax == IncomeTax(gross) && p.nic == Nic(gross)
    ensures p.tax >= 0.0 && p.nic >= 0.0
    ensures p.net <= gross
    ensures gross >= 0.0 ==> p.net >= 0.0
  {
    TaxesNonNegative(gross);
    NetAtLeastShare(gross);
    Pay(NetOf(gross), IncomeTax(gross), Nic(gross))
  }

  /** `gross_to_net` as the calculator runs it: both band loops, then the
      subtraction. */
  method ComputeGrossToNet(gross: real) returns (p: Pay)
    ensures p == GrossToNet(gross)
    ensures p.net == NetOf(gross) && p.net + p.tax + p.nic == gross
  {
    var tax := ComputeIncomeTax(gross);
    var nic := ComputeNic(gross);
    p := Pay(gross - tax - nic, tax, nic);
  }

  /** Combined marginal rate: between any two salaries the deductions take
      at most 47% of the difference (45% income tax plus 2% NIC at the top)
      and never less than nothing, so net pay keeps at least 53% of every
      extra pound. */
  lemma NetMarginal(g1: real, g2: real)
    requires g1 <= g2
    ensures 0.53 * (g2 - g1) <= NetOf(g2) - NetOf(g1) <= g2 - g1
  {
    IncomeTaxClosedForm(g1);
    IncomeTaxClosedForm(g2);
    NicClosedForm(g1);
    NicClosedForm(g2);
  }

  /** A non-negative salary keeps at least 53% of itself as net pay. */
  lemma NetAtLeastShare(gross: real)
    ensures gross >= 0.0 ==> NetOf(gross) >= 0.53 * gross
  {
    if gross >= 0.0 {
      NetMarginal(0.0, gross);
      NetOfUntaxed(0.0);
    }
  }

  /** Net pay is strictly increasing in gross pay. */
  lemma NetIncreasing(g1: real, g2: real)
    requires g1 < g2
    ensures NetOf(g1) < NetOf(g2)
  {
    NetMarginal(g1, g2);
  }

  /** Below the personal allowance nothing is deducted. */
  lemma NetOfUntaxed(gross: real)
    requires gross <= PersonalAllowance
    ensures NetOf(gross) == gross
  {
    IncomeTaxClosedForm(gross);
    NicClosedForm(gross);
  }

  /** The number of halvings `net_to_gross` performs. */
  const Bisections: nat := 60

  /** `width` halved `k` times. */
  function Halved(width: real, k: nat): real
  {
    if k == 0 then width else Halved(width, k - 1) / 2.0
  }

  /** Halving `k` times is dividing by `2^k`. */
  lemma {:induction false} HalvedIsDivision(width: real, k: nat)
    ensures Halved(width, k) == width / Pow(2.0, k)
  {
    if k > 0 {
      HalvedIsDivision(width, k - 1);
      assert Pow(2.0, k) == 2.0 * Pow(2.0, k - 1);
    }
  }

  /** Half the width of the final bracket around the returned gross:
      `(guessHigh - guessLow) / 2^61`. */
  function HalfWidth(guessLow: real, guessHigh: real): real
  {
    Halved(guessHigh - guessLow, Bisections + 1)
  }

  /** The bisection invariant for a bracket `[low, high]` inside
      `[guessLow, guessHigh]`: each end is either still the initial guess or
      lies on its side of the target. */
  predicate Brackets(targetNet: real, guessLow: real, guessHigh: real, low: real, high: real)
  {
    && guessLow <= low <= high <= guessHigh
    && (low == guessLow || NetOf(low) < targetNet)
    && (high == guessHigh || NetOf(high) >= targetNet)
  }

  /** After `k` halvings the bracket is the initial one halved `k` times. */
  predicate Scaled(guessLow: real, guessHigh: real, k: nat, low: real, high: real)
  {
    high - low == Halved(guessHigh - guessLow, k)
  }

  /** The ordering part of the bracket after any number of halvings: it keeps
      the bisection invariant, and an end that the target cannot move past
      is still the initial guess. */
  predicate Ordered(targetNet: real, guessLow: real, guessHigh: real, low: real, high: real)
  {
    && (guessLow <= guessHigh ==> Brackets(targetNet, guessLow, guessHigh, low, high))
    && (guessLow <= guessHigh && NetOf(guessHigh) < targetNet ==> high == guessHigh)
    && (guessLow <= guessHigh && NetOf(guessLow) >= targetNet ==> low == guessLow)
  }

  predicate BisectionState(targetNet: real, guessLow: real, guessHigh: real, k: nat, low: real, high: real)
  {
    Scaled(guessLow, guessHigh, k, low, high) && Ordered(targetNet, guessLow, guessHigh, low, high)
  }

  /** `net_to_gross`: 60 halvings of `[guessLow, guessHigh]`, keeping the
      lower end below the target net and the upper end at or above it; the
      midpoint of the final bracket is returned together with its pay. */
  method NetToGross(targetNet: real, guessLow: real, guessHigh: real) returns (gross: real, p: Pay)
    ensures p == GrossToNet(gross)
    ensures guessLow <= guessHigh ==>
      Brackets(targetNet, guessLow, guessHigh,
               gross - HalfWidth(guessLow, guessHigh), gross + HalfWidth(guessLow, guessHigh))
    ensures guessLow <= guessHigh && NetOf(guessHigh) < targetNet ==>
      gross == guessHigh - HalfWidth(guessLow, guessHigh)
    ensures guessLow <= guessHigh && NetOf(guessLow) >= targetNet ==>
      gross == guessLow + HalfWidth(guessLow, guessHigh)
    ensures guessLow <= guessHigh && NetOf(guessLow) < targetNet <= NetOf(guessHigh) ==>
      targetNet - HalfWidth(guessLow, guessHigh) <= p.net < targetNet + HalfWidth(guessLow, guessHigh)
  {
    var low, high := guessLow, guessHigh;
    for i := 0 to Bisections
      invariant BisectionState(targetNet, guessLow, guessHigh, i, low, high)
    {
      ghost var oldLow, oldHigh := low, high;
      var mid := (low + high) / 2.0;
      var midPay := ComputeGrossToNet(mid);
      if midPay.net < targetNet {
        low := mid;
      } else {
        high := mid;
      }
      BisectionStep(targetNet, guessLow, guessHigh, i, oldLow, oldHigh, low, high);
    }
    gross := (low + high) / 2.0;
    FinalBracket(targetNet, guessLow, guessHigh, low, high, gross);
    if guessLow <= guessHigh && NetOf(guessLow) < targetNet <= NetOf(guessHigh) {
      NetNearTarget(targetNet, guessLow, guessHigh, gross);
    }
    p := ComputeGrossToNet(gross);
  }

  /** One halving keeps the bisection state. */
  lemma BisectionStep(targetNet: real, guessLow: real, guessHigh: real, k: nat,
                      low: real, high: real, newLow: real, newHigh: real)
    requires BisectionState(targetNet, guessLow, guessHigh, k, low, high)
    requires var mid := (low + high) / 2.0;
      if NetOf(mid) < targetNet then newLow == mid && newHigh == high
      else newLow == low && newHigh == mid
    ensures BisectionState(targetNet, guessLow, guessHigh, k + 1, newLow, newHigh)
  {
    OrderedStep(targetNet, guessLow, guessHigh, low, high, newLow, newHigh);
  }

  /** One halving keeps the ordering part of the bracket. */
  lemma OrderedStep(targetNet: real, guessLow: real, guessHigh: real,
                    low: real, high: real, newLow: real, newHigh: real)
    requires Ordered(targetNet, guessLow, guessHigh, low, high)
    requires var mid := (low + high) / 2.0;
      if NetOf(mid) < targetNet then newLow == mid && newHigh == high
      else newLow == low && newHigh == mid
    ensures Ordered(targetNet, guessLow, guessHigh, newLow, newHigh)
  {
    if guessLow <= guessHigh {
      MidpointNetOrder(guessLow, guessHigh, (low + high) / 2.0);
    }
  }

  /** A midpoint inside the initial guesses has a net between theirs. */
  lemma MidpointNetOrder(guessLow: real, guessHigh: real, mid: real)
    requires guessLow <= mid <= guessHigh
    ensures NetOf(guessLow) <= NetOf(mid) <= NetOf(guessHigh)
  {
    NetMarginal(guessLow, mid);
    NetMarginal(mid, guessHigh);
  }

  /** After the last halving, the midpoint lies `HalfWidth` from both ends
      of the final bracket. */
  lemma FinalBracket(targetNet: real, guessLow: real, guessHigh: real, low: real, high: real, gross: real)
    requires BisectionState(targetNet, guessLow, guessHigh, Bisections, low, high)
    requires gross == (low + high) / 2.0
    ensures gross - HalfWidth(guessLow, guessHigh) == low
    ensures gross + HalfWidth(guessLow, guessHigh) == high
  {
  }

  /** Approximation: when the target net lies between the nets of the two
      initial guesses, the final bracket straddles it, and the returned
      gross yields a net within `HalfWidth` of the target, because net pay
      never moves faster than gross pay. */
  lemma NetNearTarget(targetNet: real, guessLow: real, guessHigh: real, gross: real)
    requires NetOf(guessLow) < targetNet <= NetOf(guessHigh)
    requires Brackets(targetNet, guessLow, guessHigh,
                      gross - HalfWidth(guessLow, guessHigh), gross + HalfWidth(guessLow, guessHigh))
    ensures NetOf(gross - HalfWidth(guessLow, guessHigh)) < targetNet
            <= NetOf(gross + HalfWidth(guessLow, guessHigh))
    ensures targetNet - HalfWidth(guessLow, guessHigh) <= NetOf(gross)
            < targetNet + HalfWidth(guessLow, guessHigh)
  {
    var low, high := gross - HalfWidth(guessLow, guessHigh), gross + HalfWidth(guessLow, guessHigh);
    NetMarginal(low, gross);
    NetMarginal(gross, high);
  }

  /** Whenever some gross in the initial bracket yields exactly the target
      net, the returned gross is within `HalfWidth` of it. */
  lemma BracketHoldsRoot(targetNet: real, guessLow: real, guessHigh: real, low: real, high: real, root: real)
    requires Brackets(targetNet, guessLow, guessHigh, low, high)
    requires guessLow <= root <= guessHigh && NetOf(root) == targetNet
    ensures low <= root <= high
  {
    if root < low {
      NetIncreasing(root, low);
    }
    if high < root {
      NetIncreasing(high, root);
    }
  }
}
