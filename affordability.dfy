/** The calculator's two projections and the rules they combine.

    Salary projection: given a price, what gross salary is needed? It takes
    the larger of a loan-to-income estimate and the gross whose take-home pay
    covers the mortgage payment and monthly costs.

    Affordability: given take-home pay, what price can be afforded? It takes
    the smaller of a loan-to-income cap and the largest loan the spare
    monthly income repays, and adds the deposit back.

    The form's inputs, module-level values in the calculator, are an
    explicit `Inputs` record here. */
module Affordability {
  import opened RealOps
  import opened UkTax
  import opened SalaryConversion
  import opened Loan

  /** The form's inputs that the projections read. */
  datatype Inputs = Inputs(
    price: real,
    depositPct: real,
    depositAmt: real,
    termYears: int,
    interestRate: real,
    monthlyOverheads: real,
    monthlyExpenses: real,
    lti: real,
    netMonthlySalary: real,
    effectiveTaxRate: real,
    maintenancePct: real,
    insuranceMonthly: real)

  /** The ranges the input widgets allow. */
  predicate InputsValid(inp: Inputs)
  {
    && inp.price >= 0.0
    && 0.0 <= inp.depositPct <= 50.0
    && inp.depositAmt >= 0.0
    && 1 <= inp.termYears <= 40
    && inp.interestRate >= 0.0
    && inp.monthlyOverheads >= 0.0
    && inp.monthlyExpenses >= 0.0
    && 1.0 <= inp.lti <= 10.0
    && inp.netMonthlySalary >= 0.0
    && 0.0 <= inp.effectiveTaxRate <= 50.0
    && 0.0 <= inp.maintenancePct <= 5.0
    && inp.insuranceMonthly >= 0.0
  }

  /** The deposit: an explicit amount overrides the percentage of the
      price. */
  function Deposit(price: real, depositPct: real, depositAmt: real): (d: real)
    ensures depositAmt > 0.0 ==> d == depositAmt
    ensures depositAmt <= 0.0 ==> d == price * depositPct / 100.0
  {
    if depositAmt > 0.0 then depositAmt else price * depositPct / 100.0
  }

  /** What is left of `amount` once `spent` is taken out, never negative:
      the loan that a deposit leaves of the price, and the monthly money
      that the other costs leave for a mortgage. */
  function Remainder(amount: real, spent: real): (rest: real)
    ensures rest >= 0.0 && rest >= amount - spent
    ensures rest == 0.0 || rest == amount - spent
  {
    Max(0.0, amount - spent)
  }

  /** Deposit and loan together pay the price, exactly when the deposit
      does not exceed it; a non-negative deposit never leads to a loan
      larger than a non-negative price. */
  lemma LoanCoversPrice(price: real, deposit: real)
    ensures deposit <= price ==> deposit + Remainder(price, deposit) == price
    ensures deposit > price ==> Remainder(price, deposit) == 0.0
    ensures 0.0 <= deposit && 0.0 <= price ==> Remainder(price, deposit) <= price
  {
  }

  /** The loan for the form's price and deposit rule. */
  function LoanOf(inp: Inputs): real
  {
    Remainder(inp.price, Deposit(inp.price, inp.depositPct, inp.depositAmt))
  }

  /** Monthly maintenance: a yearly percentage of the price, over twelve
      months. */
  function MonthlyMaintenance(price: real, maintenancePct: real): (m: real)
    ensures price >= 0.0 && maintenancePct >= 0.0 ==> m >= 0.0
    ensures m * 12.0 == price * (maintenancePct / 100.0)
  {
    price * (maintenancePct / 100.0) / 12.0
  }

  /** The regular monthly costs besides the mortgage. */
  function MonthlyCosts(inp: Inputs): real
  {
    inp.monthlyOverheads + inp.monthlyExpenses
    + MonthlyMaintenance(inp.price, inp.maintenancePct) + inp.insuranceMonthly
  }

  /** SDLT is charged only on a house, and only when the user asks for it. */
  method SdltDue(price: real, isHouse: bool, showSdlt: bool) returns (sdlt: real)
    ensures sdlt == (if isHouse && showSdlt then Sdlt(price) else 0.0)
    ensures sdlt >= 0.0
  {
    if isHouse && showSdlt {
      sdlt := ComputeSdlt(price);
      TaxesNonNegative(price);
    } else {
      sdlt := 0.0;
    }
  }

  /** The flat-rate gross for a take-home pay, when the effective rate is
      strictly between 0% and 100%: the gross that the flat rate reduces to
      the annual take-home. Otherwise the annual take-home itself. */
  function SimpleGrossFromNet(netMonthly: real, effectiveTaxRate: real): (gross: real)
    ensures 0.0 < effectiveTaxRate < 100.0 ==>
      gross * (1.0 - effectiveTaxRate / 100.0) == netMonthly * 12.0
    ensures !(0.0 < effectiveTaxRate < 100.0) ==> gross == netMonthly * 12.0
  {
    if 0.0 < effectiveTaxRate && effectiveTaxRate < 100.0 then
      (netMonthly * 12.0) / (1.0 - effectiveTaxRate / 100.0)
    else netMonthly * 12.0
  }

  /** The flat-rate fallback of the salary projection: below a 100% rate, the
      gross that the flat rate reduces to the required annual take-home;
      otherwise zero. */
  function SimpleGrossForAfford(requiredNetMonthly: real, effectiveTaxRate: real): (gross: real)
    ensures effectiveTaxRate < 100.0 ==>
      gross * (1.0 - effectiveTaxRate / 100.0) == requiredNetMonthly * 12.0
    ensures effectiveTaxRate >= 100.0 ==> gross == 0.0
  {
    if effectiveTaxRate < 100.0 then (requiredNetMonthly * 12.0) / (1.0 - effectiveTaxRate / 100.0)
    else 0.0
  }

  /** The loan-to-income estimate of the gross: the salary that the multiple
      `lti` turns into the loan; zero for a multiple that is not positive. */
  function GrossByLti(loan: real, lti: real): (gross: real)
    ensures lti > 0.0 ==> gross * lti == loan
    ensures lti <= 0.0 ==> gross == 0.0
  {
    if lti > 0.0 then loan / lti else 0.0
  }

  /** The loan-to-income cap on the mortgage: the multiple `lti` of the
      gross salary, never negative for a non-negative salary and multiple. */
  function MortgageByLti(gross: real, lti: real): (mortgage: real)
    ensures gross >= 0.0 && lti >= 0.0 ==> mortgage >= 0.0
    ensures lti > 0.0 ==> mortgage / lti == gross
  {
    gross * lti
  }

  /** The conservative mortgage: the smaller of the two caps. */
  function MortgageAffordable(byLti: real, byPayment: real): (mortgage: real)
    ensures mortgage <= byLti && mortgage <= byPayment
    ensures mortgage == byLti || mortgage == byPayment
  {
    Min(byLti, byPayment)
  }

  /** The conservative required salary: the larger of the two estimates. */
  function GrossNeeded(byLti: real, byAfford: real): (gross: real)
    ensures gross >= byLti && gross >= byAfford
    ensures gross == byLti || gross == byAfford
  {
    Max(byLti, byAfford)
  }

  /** The denominator the affordability projection computes before choosing
      a price formula: one minus the deposit share when no amount is given,
      otherwise the loan's share of the price. Only its sign in the first
      case decides anything: it is not positive exactly when the deposit
      share is 100% or more. */
  function PriceDenominator(price: real, depositPct: real, depositAmt: real, loan: real): (d: real)
    ensures depositAmt == 0.0 ==> (d <= 0.0 <==> depositPct >= 100.0)
    ensures depositAmt != 0.0 && price > 0.0 ==> d * price == loan
    ensures depositAmt != 0.0 && price > 0.0 && 0.0 <= loan <= price ==> 0.0 <= d <= 1.0
    ensures depositAmt != 0.0 && price <= 0.0 ==> d == 0.0
  {
    if depositAmt == 0.0 then 1.0 - depositPct / 100.0
    else if price > 0.0 then loan / price
    else 0.0
  }

  /** The affordable price for a mortgage. A negative deposit amount with a
      positive denominator and a 100% deposit share would divide by zero. */
  function PriceAffordable(mortgage: real, price: real, depositPct: real, depositAmt: real, loan: real): (p: real)
    requires depositAmt >= 0.0 || PriceDenominator(price, depositPct, depositAmt, loan) <= 0.0
             || depositPct != 100.0
    ensures depositAmt > 0.0 ==> p == mortgage + depositAmt
    ensures depositAmt == 0.0 && depositPct >= 100.0 ==> p == mortgage
    ensures depositAmt == 0.0 && depositPct < 100.0 ==> p * (1.0 - depositPct / 100.0) == mortgage
  {
    var denom := PriceDenominator(price, depositPct, depositAmt, loan);
    if depositAmt > 0.0 then mortgage + depositAmt
    else if denom <= 0.0 then mortgage
    else mortgage / (1.0 - depositPct / 100.0)
  }

  /** Round trip: buying at the affordable price, with the same deposit rule,
      needs a loan of exactly the affordable mortgage. */
  lemma PriceRoundTrip(mortgage: real, price: real, depositPct: real, depositAmt: real, loan: real)
    requires mortgage >= 0.0 && depositAmt >= 0.0 && depositPct < 100.0
    ensures var p := PriceAffordable(mortgage, price, depositPct, depositAmt, loan);
      Remainder(p, Deposit(p, depositPct, depositAmt)) == mortgage
  {
    var p := PriceAffordable(mortgage, price, depositPct, depositAmt, loan);
    if depositAmt == 0.0 {
      assert p - p * depositPct / 100.0 == p * (1.0 - depositPct / 100.0);
    }
  }

  /** `required_gross_for_affordability`: the PAYE gross for a required
      monthly take-home, by bisection over `[0, 2,000,000]`. A take-home
      that a salary in the range yields is met to within `HalfWidth`; one
      that is not positive gives the bottom of the range, and one beyond
      what 2,000,000 yields gives the top, each moved in by the final
      half-width. */
  method RequiredGrossForAffordability(netMonthlyRequired: real) returns (gross: real, p: Pay)
    ensures p == GrossToNet(gross)
    ensures Brackets(netMonthlyRequired * 12.0, 0.0, SearchCeiling,
                     gross - HalfWidth(0.0, SearchCeiling), gross + HalfWidth(0.0, SearchCeiling))
    ensures 0.0 < netMonthlyRequired * 12.0 <= NetAtCeiling ==>
      netMonthlyRequired * 12.0 - HalfWidth(0.0, SearchCeiling) <= p.net
      < netMonthlyRequired * 12.0 + HalfWidth(0.0, SearchCeiling)
    ensures netMonthlyRequired <= 0.0 ==> gross == HalfWidth(0.0, SearchCeiling)
    ensures netMonthlyRequired * 12.0 > NetAtCeiling ==> gross == SearchCeiling - HalfWidth(0.0, SearchCeiling)
  {
    gross, p := NetToGross(netMonthlyRequired * 12.0, 0.0, SearchCeiling);
    SearchOutcome(netMonthlyRequired * 12.0, gross, HalfWidth(0.0, SearchCeiling));
  }

  /** The upper guess of both projections' bisection. */
  const SearchCeiling: real := 2000000.0

  /** The take-home pay on `SearchCeiling`. */
  const NetAtCeiling: real := 1075306.4

  /** A positive target exceeds the take-home on a zero salary, which is
      nothing; any other target does not. */
  lemma FloorNet(targetNet: real)
    ensures 0.0 < targetNet ==> NetOf(0.0) < targetNet
    ensures targetNet <= 0.0 ==> NetOf(0.0) >= targetNet
  {
    // The two directions are proved apart: together they send the solver
    // through the whole tax schedule at 0.
    if 0.0 < targetNet {
      NetOfUntaxed(0.0);
    } else {
      NetOfUntaxed(0.0);
    }
  }

  /** The take-home on `SearchCeiling` is 2,000,000 less 881,175 income tax
      and 43,518.60 NIC. */
  lemma CeilingNet(targetNet: real)
    ensures targetNet <= NetAtCeiling ==> targetNet <= NetOf(SearchCeiling)
    ensures targetNet > NetAtCeiling ==> NetOf(SearchCeiling) < targetNet
  {
    IncomeTaxClosedForm(SearchCeiling);
    NicClosedForm(SearchCeiling);
  }

  /** What the bisection over `[0, SearchCeiling]` yields, in terms of the
      target annual take-home alone: a target of nothing or less gives the
      lowest midpoint, one above the take-home on `SearchCeiling` gives the
      highest, and any other is met to within `halfWidth`. */
  lemma SearchOutcome(targetNet: real, gross: real, halfWidth: real)
    requires NetOf(SearchCeiling) < targetNet ==> gross == SearchCeiling - halfWidth
    requires NetOf(0.0) >= targetNet ==> gross == 0.0 + halfWidth
    requires NetOf(0.0) < targetNet <= NetOf(SearchCeiling) ==>
      targetNet - halfWidth <= NetOf(gross) < targetNet + halfWidth
    ensures targetNet > NetAtCeiling ==> gross == SearchCeiling - halfWidth
    ensures targetNet <= 0.0 ==> gross == halfWidth
    ensures 0.0 < targetNet <= NetAtCeiling ==>
      targetNet - halfWidth <= NetOf(gross) < targetNet + halfWidth
  {
    FloorNet(targetNet);
    CeilingNet(targetNet);
  }

  /** What `salary_projection_methods` returns. */
  datatype SalaryProjection = SalaryProjection(
    grossByLti: real,
    grossByAfford: real,
    grossByAffordSimple: real,
    requiredNetMonthly: real,
    tax: real,
    nic: real)

  /** `salary_projection_methods`: the loan-to-income gross, the monthly
      take-home needed to pay the mortgage and the other costs, and the PAYE
      and flat-rate grosses that yield it. */
  method ProjectSalary(inp: Inputs) returns (sp: SalaryProjection)
    requires LoanOf(inp) <= 0.0 || inp.termYears <= 0 || inp.interestRate != -2400.0
    ensures sp.grossByLti == GrossByLti(LoanOf(inp), inp.lti)
    ensures sp.requiredNetMonthly
            == MonthlyPayment(LoanOf(inp), inp.interestRate, inp.termYears) + MonthlyCosts(inp)
    ensures sp.grossByAffordSimple == SimpleGrossForAfford(sp.requiredNetMonthly, inp.effectiveTaxRate)
    ensures sp.tax == IncomeTax(sp.grossByAfford) && sp.nic == Nic(sp.grossByAfford)
    ensures Brackets(sp.requiredNetMonthly * 12.0, 0.0, SearchCeiling,
                     sp.grossByAfford - HalfWidth(0.0, SearchCeiling),
                     sp.grossByAfford + HalfWidth(0.0, SearchCeiling))
    ensures 0.0 < sp.requiredNetMonthly * 12.0 <= NetAtCeiling ==>
      sp.requiredNetMonthly * 12.0 - HalfWidth(0.0, SearchCeiling) <= NetOf(sp.grossByAfford)
      < sp.requiredNetMonthly * 12.0 + HalfWidth(0.0, SearchCeiling)
  {
    var loan := LoanOf(inp);
    var required := MonthlyPayment(loan, inp.interestRate, inp.termYears) + MonthlyCosts(inp);
    var grossByAfford, pay := RequiredGrossForAffordability(required);
    var simple := SimpleGrossForAfford(required, inp.effectiveTaxRate);
    var grossByLti := GrossByLti(loan, inp.lti);
    sp := SalaryProjection(grossByLti, grossByAfford, simple, required, pay.tax, pay.nic);
  }

  /** With valid inputs the required take-home covers at least the mortgage
      payment, which is itself never negative. */
  lemma RequiredNetCoversPayment(inp: Inputs)
    requires InputsValid(inp)
    ensures var pay := MonthlyPayment(LoanOf(inp), inp.interestRate, inp.termYears);
      0.0 <= pay <= pay + MonthlyCosts(inp)
  {
    var loan := LoanOf(inp);
    if loan > 0.0 {
      PaymentPositive(loan, inp.interestRate, inp.termYears);
    }
  }

  /** What `affordability_projection_methods` returns. */
  datatype AffordabilityProjection = AffordabilityProjection(
    grossAnnual: real,
    netAnnual: real,
    mortgageByLti: real,
    mortgageByPayment: real,
    mortgageAffordable: real,
    priceAffordable: real,
    availableForMortgageMonthly: real,
    tax: real,
    nic: real)

  /** `affordability_projection_methods`: the PAYE gross behind the
      take-home pay, the loan-to-income cap on it, the largest loan the
      spare monthly income repays, the smaller of the two, and the price that
      mortgage and the deposit rule buy. */
  method ProjectAffordability(inp: Inputs) returns (ap: AffordabilityProjection)
    requires inp.termYears <= 0 || inp.interestRate != -1200.0
    requires inp.depositAmt >= 0.0 || inp.depositPct != 100.0
             || PriceDenominator(inp.price, inp.depositPct, inp.depositAmt, LoanOf(inp)) <= 0.0
    ensures ap.netAnnual == NetOf(ap.grossAnnual)
    ensures ap.tax == IncomeTax(ap.grossAnnual) && ap.nic == Nic(ap.grossAnnual)
    ensures Brackets(inp.netMonthlySalary * 12.0, 0.0, SearchCeiling,
                     ap.grossAnnual - HalfWidth(0.0, SearchCeiling),
                     ap.grossAnnual + HalfWidth(0.0, SearchCeiling))
    ensures 0.0 < inp.netMonthlySalary * 12.0 <= NetAtCeiling ==>
      inp.netMonthlySalary * 12.0 - HalfWidth(0.0, SearchCeiling) <= ap.netAnnual
      < inp.netMonthlySalary * 12.0 + HalfWidth(0.0, SearchCeiling)
    ensures ap.mortgageByLti == MortgageByLti(ap.grossAnnual, inp.lti)
    ensures ap.availableForMortgageMonthly == Remainder(inp.netMonthlySalary, MonthlyCosts(inp))
    ensures ap.mortgageByPayment
            == MaxPrincipal(ap.availableForMortgageMonthly, inp.interestRate, inp.termYears)
    ensures ap.mortgageAffordable <= ap.mortgageByLti && ap.mortgageAffordable <= ap.mortgageByPayment
    ensures ap.mortgageAffordable == MortgageAffordable(ap.mortgageByLti, ap.mortgageByPayment)
    ensures ap.priceAffordable
            == PriceAffordable(ap.mortgageAffordable, inp.price, inp.depositPct, inp.depositAmt, LoanOf(inp))
  {
    var gross, pay := NetToGross(inp.netMonthlySalary * 12.0, 0.0, SearchCeiling);
    SearchOutcome(inp.netMonthlySalary * 12.0, gross, HalfWidth(0.0, SearchCeiling));
    var byLti := MortgageByLti(gross, inp.lti);
    var available := Remainder(inp.netMonthlySalary, MonthlyCosts(inp));
    var byPayment := MaxPrincipal(available, inp.interestRate, inp.termYears);
    var mortgage := MortgageAffordable(byLti, byPayment);
    var price := PriceAffordable(mortgage, inp.price, inp.depositPct, inp.depositAmt, LoanOf(inp));
    ap := AffordabilityProjection(gross, pay.net, byLti, byPayment, mortgage, price, available, pay.tax, pay.nic);
  }

  /** With valid inputs both caps and the affordable mortgage are never
      negative, and the affordable mortgage's payment fits within what is
      left each month. */
  lemma AffordableLoanFitsBudget(inp: Inputs, grossAnnual: real)
    requires InputsValid(inp) && grossAnnual >= 0.0
    ensures var available := Remainder(inp.netMonthlySalary, MonthlyCosts(inp));
      var byPayment := MaxPrincipal(available, inp.interestRate, inp.termYears);
      var mortgage := MortgageAffordable(MortgageByLti(grossAnnual, inp.lti), byPayment);
      && byPayment >= 0.0
      && mortgage >= 0.0
      && MonthlyPayment(mortgage, inp.interestRate, inp.termYears) <= available
  {
    var available := Remainder(inp.netMonthlySalary, MonthlyCosts(inp));
    var byPayment := MaxPrincipal(available, inp.interestRate, inp.termYears);
    var mortgage := MortgageAffordable(MortgageByLti(grossAnnual, inp.lti), byPayment);
    if available > 0.0 {
      MaxPrincipalPositive(available, inp.interestRate, inp.termYears);
      PaymentRoundTrip(available, inp.interestRate, inp.termYears);
      PaymentMonotone(mortgage, byPayment, inp.interestRate, inp.termYears);
    } else {
      assert byPayment == 0.0;
    }
  }
}
