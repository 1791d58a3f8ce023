/** Repayment-loan arithmetic: the level monthly payment that repays a
    principal over a number of years at an annual percentage rate
    (`monthly_payment`), and its inverse, the largest principal a given
    monthly payment repays (the payment-capacity estimate of the
    affordability projection). Interest compounds monthly at a twelfth of
    the annual rate. */
module Loan {
  import opened RealOps

  /** The monthly rate `r` for an annual percentage rate. */
  function MonthlyRate(annualRatePercent: real): real
  {
    annualRatePercent / 100.0 / 12.0
  }

  /** The number of monthly payments `n` in a term of whole years. */
  function Months(years: int): int
  {
    years * 12
  }

  /** `monthly_payment(principal, annual_rate_percent, years)`. The formula
      divides by `(1 + r)^n - 1`, which is zero for `r != 0` only when
      `1 + r == -1` (as `n` is even), that is at an annual rate of -2400%. */
  function MonthlyPayment(principal: real, annualRatePercent: real, years: int): (pay: real)
    requires principal <= 0.0 || years <= 0 || annualRatePercent != -2400.0
    ensures principal <= 0.0 || years <= 0 ==> pay == 0.0
  {
    if principal <= 0.0 || years <= 0 then 0.0
    else
      var r, n := MonthlyRate(annualRatePercent), Months(years);
      if r == 0.0 then principal / n as real
      else
        PowReachesOne(1.0 + r, n);
        principal * (r * Pow(1.0 + r, n)) / (Pow(1.0 + r, n) - 1.0)
  }

  /** The inverse used for the payment-capacity mortgage: `payment * n` at
      a zero rate, otherwise `payment * (1 - (1 + r)^-n) / r`. The power is
      undefined only when `1 + r == 0`, that is at an annual rate of -1200%
      over a positive term. A term of no years repays nothing. */
  function MaxPrincipal(payment: real, annualRatePercent: real, years: int): (principal: real)
    requires years <= 0 || annualRatePercent != -1200.0
    ensures years == 0 ==> principal == 0.0
  {
    var r, n := MonthlyRate(annualRatePercent), Months(years);
    if r == 0.0 then payment * n as real
    else payment * (1.0 - PowInt(1.0 + r, -n)) / r
  }

  /** The outstanding balance after `k` months: each month adds interest at
      rate `r` and then takes off one payment. */
  function Balance(principal: real, payment: real, r: real, k: nat): real
  {
    if k == 0 then principal else Balance(principal, payment, r, k - 1) * (1.0 + r) - payment
  }

  /** At a zero rate the payment spreads the principal evenly over the
      months of the term. */
  lemma ZeroRatePayment(principal: real, years: int)
    requires principal > 0.0 && years > 0
    ensures MonthlyPayment(principal, 0.0, years) * (12 * years) as real == principal
  {
  }

  /** Worked example: 1,200 over one year at 0% is 100 a month. */
  lemma ZeroRateExample()
    ensures MonthlyPayment(1200.0, 0.0, 1) == 100.0
  {
    ZeroRatePayment(1200.0, 1);
  }

  /** At a positive rate a positive principal costs a positive payment. */
  lemma PaymentPositive(principal: real, annualRatePercent: real, years: int)
    requires principal > 0.0 && years > 0 && annualRatePercent >= 0.0
    ensures MonthlyPayment(principal, annualRatePercent, years) > 0.0
  {
    var r, n := MonthlyRate(annualRatePercent), Months(years);
    if r != 0.0 {
      PowAboveOne(1.0 + r, n);
      var b := Pow(1.0 + r, n);
      assert r * b > 0.0;
      assert principal * (r * b) > 0.0;
    }
  }

  /** Per unit of principal, the payment of a loan with a positive principal
      and term. */
  function PaymentFactor(annualRatePercent: real, years: int): real
    requires years > 0 && annualRatePercent != -2400.0
  {
    MonthlyPayment(1.0, annualRatePercent, years)
  }

  /** Linearity: the payment is the principal times a factor that depends on
      the rate and term only; scaling the principal by `k >= 0` scales the
      payment by `k`. */
  lemma PaymentLinear(principal: real, k: real, annualRatePercent: real, years: int)
    requires k >= 0.0 && annualRatePercent != -2400.0
    ensures MonthlyPayment(k * principal, annualRatePercent, years)
            == k * MonthlyPayment(principal, annualRatePercent, years)
  {
    if k > 0.0 && principal > 0.0 && years > 0 {
      assert k * principal > 0.0;
      PaymentIsFactor(principal, annualRatePercent, years);
      PaymentIsFactor(k * principal, annualRatePercent, years);
    } else if k > 0.0 && principal <= 0.0 {
      assert k * principal <= 0.0;
    }
  }

  /** A positive principal's payment is the principal times the payment on
      one unit. */
  lemma PaymentIsFactor(principal: real, annualRatePercent: real, years: int)
    requires principal > 0.0 && years > 0 && annualRatePercent != -2400.0
    ensures MonthlyPayment(principal, annualRatePercent, years)
            == principal * PaymentFactor(annualRatePercent, years)
  {
    var r, n := MonthlyRate(annualRatePercent), Months(years);
    if r != 0.0 {
      PowReachesOne(1.0 + r, n);
      var b := Pow(1.0 + r, n);
      assert principal * (r * b) / (b - 1.0) == principal * ((r * b) / (b - 1.0));
    }
  }

  /** The payment never falls as the principal rises, at a non-negative
      rate. */
  lemma PaymentMonotone(p1: real, p2: real, annualRatePercent: real, years: int)
    requires p1 <= p2 && annualRatePercent >= 0.0
    ensures MonthlyPayment(p1, annualRatePercent, years) <= MonthlyPayment(p2, annualRatePercent, years)
  {
    if p2 > 0.0 && years > 0 {
      PaymentPositive(1.0, annualRatePercent, years);
      PaymentIsFactor(p2, annualRatePercent, years);
      if p1 > 0.0 {
        PaymentIsFactor(p1, annualRatePercent, years);
        MulMonotone(p1, p2, PaymentFactor(annualRatePercent, years), PaymentFactor(annualRatePercent, years));
      } else {
        MulMonotone(0.0, p2, PaymentFactor(annualRatePercent, years), PaymentFactor(annualRatePercent, years));
      }
    }
  }

  /** Round trip: the largest principal that the payment on a loan repays is
      that loan. */
  lemma PrincipalRoundTrip(principal: real, annualRatePercent: real, years: int)
    requires principal > 0.0 && years > 0
    requires annualRatePercent != -1200.0 && annualRatePercent != -2400.0
    ensures MaxPrincipal(MonthlyPayment(principal, annualRatePercent, years), annualRatePercent, years) == principal
  {
    var r, n := MonthlyRate(annualRatePercent), Months(years);
    if r != 0.0 {
      PowReachesOne(1.0 + r, n);
      var b := Pow(1.0 + r, n);
      var pay := principal * (r * b) / (b - 1.0);
      assert PowInt(1.0 + r, -n) == 1.0 / b;
      Annuity(principal, pay, r, b);
    }
  }

  /** Round trip the other way: a positive payment is exactly the payment on
      the largest principal it repays. */
  lemma PaymentRoundTrip(payment: real, annualRatePercent: real, years: int)
    requires years > 0 && annualRatePercent != -1200.0 && annualRatePercent != -2400.0
    requires MaxPrincipal(payment, annualRatePercent, years) > 0.0
    ensures MonthlyPayment(MaxPrincipal(payment, annualRatePercent, years), annualRatePercent, years) == payment
  {
    var r, n := MonthlyRate(annualRatePercent), Months(years);
    if r != 0.0 {
      PowReachesOne(1.0 + r, n);
      var b := Pow(1.0 + r, n);
      assert PowInt(1.0 + r, -n) == 1.0 / b;
      var principal := payment * (1.0 - 1.0 / b) / r;
      Annuity(principal, payment, r, b);
    }
  }

  /** The annuity identity behind both round trips: with `b = (1 + r)^n`,
      `pay = P * r * b / (b - 1)` exactly when `P = pay * (1 - 1/b) / r`. */
  lemma Annuity(principal: real, pay: real, r: real, b: real)
    requires r != 0.0 && b != 0.0 && b != 1.0
    ensures pay == principal * (r * b) / (b - 1.0) <==> principal == pay * (1.0 - 1.0 / b) / r
  {
    assert (1.0 - 1.0 / b) == (b - 1.0) / b;
    assert pay * ((b - 1.0) / b) / r == pay * (b - 1.0) / (r * b);
  }

  /** A positive payment over a positive term repays a positive principal at
      a non-negative rate. */
  lemma MaxPrincipalPositive(payment: real, annualRatePercent: real, years: int)
    requires payment > 0.0 && years > 0 && annualRatePercent >= 0.0
    ensures MaxPrincipal(payment, annualRatePercent, years) > 0.0
  {
    var r, n := MonthlyRate(annualRatePercent), Months(years);
    if r != 0.0 {
      PowAboveOne(1.0 + r, n);
      var b := Pow(1.0 + r, n);
      assert PowInt(1.0 + r, -n) == 1.0 / b;
      assert r > 0.0;
      DiscountedPositive(payment, r, b);
    }
  }

  lemma DiscountedPositive(payment: real, r: real, b: real)
    requires payment > 0.0 && r > 0.0 && b > 1.0
    ensures payment * (1.0 - 1.0 / b) / r > 0.0
  {
    assert 1.0 / b < 1.0;
    assert payment * (1.0 - 1.0 / b) > 0.0;
  }

  /** The balance after `k` months in closed form, scaled by `r` so that it
      holds for every rate. */
  lemma {:induction false} BalanceClosedForm(principal: real, payment: real, r: real, k: nat)
    ensures Balance(principal, payment, r, k) * r
            == principal * Pow(1.0 + r, k) * r - payment * (Pow(1.0 + r, k) - 1.0)
  {
    if k > 0 {
      var prev, b := Balance(principal, payment, r, k - 1), Pow(1.0 + r, k - 1);
      var cur, next := Balance(principal, payment, r, k), Pow(1.0 + r, k);
      assert cur == prev * (1.0 + r) - payment;
      assert next == (1.0 + r) * b;
      BalanceClosedForm(principal, payment, r, k - 1);
      BalanceStep(principal, payment, r, prev, b, cur, next);
    }
  }

  /** One month of the closed form: if it holds for the balance `prev`
      against `b = (1 + r)^(k-1)`, it holds for the next balance `cur`
      against `(1 + r)^k`. */
  lemma BalanceStep(principal: real, payment: real, r: real, prev: real, b: real, cur: real, next: real)
    requires prev * r == principal * b * r - payment * (b - 1.0)
    requires cur == prev * (1.0 + r) - payment && next == (1.0 + r) * b
    ensures cur * r == principal * next * r - payment * (next - 1.0)
  {
  }

  /** At a zero rate the balance falls by one payment a month. */
  lemma {:induction false} BalanceZeroRate(principal: real, payment: real, k: nat)
    ensures Balance(principal, payment, 0.0, k) == principal - k as real * payment
  {
    if k > 0 {
      BalanceZeroRate(principal, payment, k - 1);
    }
  }

  /** Full amortisation: paying `MonthlyPayment` every month for the whole
      term leaves nothing owing. */
  lemma FullyAmortises(principal: real, annualRatePercent: real, years: int)
    requires principal > 0.0 && years > 0 && annualRatePercent != -2400.0
    ensures Balance(principal, MonthlyPayment(principal, annualRatePercent, years),
                    MonthlyRate(annualRatePercent), Months(years) as nat) == 0.0
  {
    var r, n := MonthlyRate(annualRatePercent), Months(years);
    var pay := MonthlyPayment(principal, annualRatePercent, years);
    if r == 0.0 {
      BalanceZeroRate(principal, pay, n);
    } else {
      PowReachesOne(1.0 + r, n);
      var b := Pow(1.0 + r, n);
      BalanceClosedForm(principal, pay, r, n);
      assert pay * (b - 1.0) == principal * (r * b);
      assert Balance(principal, pay, r, n) * r == 0.0;
    }
  }
}
