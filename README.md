# UK personal finance projection — verified model of the calculation core

This project models the arithmetic core of `finance_calculator.py`, a
calculator for a UK house or car purchase. It does two things:

- **Salary projection:** estimate the gross salary a given price needs.
- **Affordability:** estimate the price a given take-home pay affords.

Money is Dafny `real`, which is exact rational arithmetic. Identities that the
calculator only approximates in floating point are proved exactly here.

The modules:

- `RealOps` (`real_ops.dfy`): Python's `min`, `max` and `**` with an integer
  exponent, plus facts about powers.
- `BandedTax` (`banded_tax.dfy`): the slab-tax engine.
  - A schedule is an ascending list of `(low, high, rate)` bands. An open top
    band has the bound `Infinite`.
  - `SlabSum` is the closed form: the sum over all bands of
    `max(0, min(x, high) - low) * rate`.
  - The two loops the calculator runs are proved equal to it: the `break`
    loop of income tax and SDLT, and the `continue` loop of NIC.
- `UkTax` (`uk_tax.dfy`): the three 2025/26 schedules (income tax, employee
  Class 1 NIC, residential SDLT), the three `compute_*` functions, and the
  properties of each schedule.
- `SalaryConversion` (`salary_conversion.dfy`):
  - `gross_to_net` and its bounds;
  - the combined marginal rate (take-home keeps between 53% and 100% of every
    extra pound);
  - the 60-step `net_to_gross` bisection with its loop invariant and its
    clamping.
- `Loan` (`loan.dfy`): `monthly_payment`, its inverse at lines 232-238, and an
  amortisation schedule that the payment clears exactly at the end of the
  term.
- `Affordability` (`affordability.dfy`):
  - the deposit and loan derivation, the flat-rate gross estimates, and the
    two projections;
  - the form's inputs are an explicit `Inputs` record, because the calculator
    reads them from module-level variables.

Points where the code's own behaviour shapes the model:

- **NIC bands.** `NIC_RATES` (finance_calculator.py:27) has no 0% band below
  the primary threshold: its first band starts at the threshold. A 0% band
  there would not change NIC, and `UkTax.NicClosedForm` states the result.
- **Loan payment at −2400%.** `monthly_payment` (finance_calculator.py:108)
  divides by `(1 + r)^n - 1`. That is zero at an annual rate of −2400%,
  where `1 + r` is −1 and `n = 12·years` is even. `Loan.MonthlyPayment`
  excludes that rate, and only for a positive principal and term.
- **Maximum principal at −1200%.** The inverse at finance_calculator.py:238
  raises `1 + r` to the power `-n`, which fails when `1 + r` is 0, at
  −1200%. `Loan.MaxPrincipal` excludes that rate, and only for a positive
  term.
- **Price formula.** The denominator at finance_calculator.py:243 decides
  the price only when no deposit amount is given.
  `Affordability.PriceAffordable` keeps the branches at lines 245-252 as
  written. Its precondition excludes the one case that divides by zero: a
  negative deposit amount with a 100% deposit share. The form's widgets
  never allow a negative amount.

## Model

| member | source | states |
|---|---|---|
| BandedTax.SumBandsBreaking | finance_calculator.py:29-39 | the early-exit band loop (stop at the first band starting at or above `x`, and after the band containing `x`) equals the closed-form slab sum over all bands |
| BandedTax.SumBandsContinuing | finance_calculator.py:41-49 | the band loop that skips bands starting at or above `x` equals the closed-form slab sum |
| BandedTax.BandStep | finance_calculator.py:35-36 | adding `(min(x, high) - low) * rate` for a band that `x` exceeds the start of extends the slab sum by exactly that band |
| BandedTax.BandsAboveVanish | finance_calculator.py:32-33 | bands that start at or above the amount contribute nothing, which justifies the early `break` |
| BandedTax.ZeroBelowAllBands | finance_calculator.py:32-33 | an amount at or below every band's start pays nothing |
| BandedTax.BoundaryBelongsBelow | finance_calculator.py:37-38 | in a sorted schedule an amount no larger than band `i`'s upper bound is taxed only by band `i` and those below it |
| BandedTax.SlabSumNonNegative | finance_calculator.py:29-39 | with non-negative rates the slab sum is never negative |
| BandedTax.SlabSumMonotone | finance_calculator.py:29-39 | with non-negative rates the slab sum never decreases as the amount grows |
| UkTax.SchedulesWellFormed | finance_calculator.py:15-27 | the income-tax, NIC and SDLT schedules are ascending, non-overlapping, and have non-negative rates |
| UkTax.ComputeIncomeTax | finance_calculator.py:29-39 | `compute_income_tax` equals the slab sum over the income-tax bands (the final `max(0, ·)` never changes it) |
| UkTax.ComputeNic | finance_calculator.py:41-49 | `compute_nic` equals the slab sum over the NIC bands |
| UkTax.ComputeSdlt | finance_calculator.py:87-96 | `compute_sdlt` equals the slab sum over the SDLT slabs |
| UkTax.IncomeTaxClosedForm | finance_calculator.py:13-20 | income tax is 0 up to 12,570, then 20% of the excess to 50,270, then 7,540 + 40% to 125,140, then 37,488 + 45% above |
| UkTax.NicClosedForm | finance_calculator.py:24-27 | NIC is 0 up to 12,570, 12% of the excess up to 50,270, and 12%·37,700 + 2% of the excess above |
| UkTax.SdltClosedForm | finance_calculator.py:79-85 | SDLT is 0 up to 125,000, then 2%, 5%, 10% and 12% on the successive slabs |
| UkTax.IncomeTaxOn60000 | finance_calculator.py:15-20 | income tax on 60,000 is 11,432 |
| UkTax.IncomeTaxAtHigherRateThreshold | finance_calculator.py:33-38 | a salary of exactly 50,270 pays 7,540, only from the bands up to the basic rate |
| UkTax.SdltOn300000 | finance_calculator.py:79-85 | SDLT on 300,000 is 5,000 |
| UkTax.TaxesNonNegative | finance_calculator.py:29-49 | income tax, NIC and SDLT are never negative and are zero for amounts at or below zero |
| UkTax.TaxesMonotone | finance_calculator.py:29-49 | income tax, NIC and SDLT never decrease as the amount grows |
| SalaryConversion.GrossToNet | finance_calculator.py:51-56 | tax and NIC are the two schedules' sums and non-negative, net never exceeds gross, and a non-negative gross has a non-negative net |
| SalaryConversion.ComputeGrossToNet | finance_calculator.py:51-56 | running both band loops and subtracting gives `GrossToNet`, with net + tax + NIC = gross |
| SalaryConversion.NetMarginal | finance_calculator.py:51-56 | between any two salaries, net pay rises by at least 53% and at most 100% of the difference: the combined marginal rate lies in [0, 47%] |
| SalaryConversion.NetAtLeastShare | finance_calculator.py:51-56 | a non-negative gross keeps at least 53% of itself as net |
| SalaryConversion.NetIncreasing | finance_calculator.py:51-56 | net pay is strictly increasing in gross pay |
| SalaryConversion.NetOfUntaxed | finance_calculator.py:13-27 | up to the personal allowance, net equals gross |
| SalaryConversion.HalvedIsDivision | finance_calculator.py:63-71 | halving an interval `k` times divides its width by `2^k` |
| SalaryConversion.BisectionStep | finance_calculator.py:64-71 | one halving keeps the bisection state: the width halves, and each end either is still the initial guess or lies on its side of the target |
| SalaryConversion.OrderedStep | finance_calculator.py:66-71 | one halving keeps `low` below the target net (or at the lower guess) and `high` at or above it (or at the upper guess), and never moves an end the target cannot pass |
| SalaryConversion.FinalBracket | finance_calculator.py:72 | the returned midpoint lies `(guessHigh - guessLow) / 2^61` from each end of the final bracket |
| SalaryConversion.NetToGross | finance_calculator.py:58-74 | the returned gross lies in `[guessLow, guessHigh]`; the final bracket around it keeps the bisection invariant; the pay returned is `gross_to_net` of that gross; a target between the nets of the two guesses is met to within `(guessHigh - guessLow) / 2^61`; and an unreachable target clamps the result to within that tolerance of the nearer guess |
| SalaryConversion.NetNearTarget | finance_calculator.py:60 | when the target net lies between the nets of the two guesses, the final bracket straddles it, and the net at the returned gross is within the half-width of the target |
| SalaryConversion.BracketHoldsRoot | finance_calculator.py:58-74 | a gross in the initial bracket that yields exactly the target net lies inside every bracket the bisection keeps, so the answer is within the tolerance of it |
| Loan.MonthlyPayment | finance_calculator.py:101-108 | the payment is 0 when principal or term is not positive; it is defined for every rate except −2400% |
| Loan.ZeroRatePayment | finance_calculator.py:106-107 | at a zero rate, 12·years payments add up to the principal |
| Loan.ZeroRateExample | finance_calculator.py:101-108 | 1,200 over one year at 0% is 100 a month |
| Loan.PaymentPositive | finance_calculator.py:101-108 | at a non-negative rate, a positive principal and term cost a positive payment |
| Loan.PaymentIsFactor | finance_calculator.py:108 | the payment on a positive principal is the principal times the payment on one unit |
| Loan.PaymentLinear | finance_calculator.py:101-108 | scaling the principal by any `k >= 0` scales the payment by `k` |
| Loan.PaymentMonotone | finance_calculator.py:101-108 | at a non-negative rate the payment never falls as the principal rises |
| Loan.Annuity | finance_calculator.py:108 | with `b = (1+r)^n`, `pay = P·r·b/(b-1)` holds exactly when `P = pay·(1 - 1/b)/r` |
| Loan.MaxPrincipal | finance_calculator.py:232-238 | the inverse formula; it is defined at every rate except −1200% over a positive term, and gives 0 for a term of no years. Its sign is `Loan.MaxPrincipalPositive`, and its round trips with the payment are `Loan.PrincipalRoundTrip` and `Loan.PaymentRoundTrip` |
| Loan.PrincipalRoundTrip | finance_calculator.py:232-238 | the inverse formula applied to the payment on a positive principal gives back that principal |
| Loan.PaymentRoundTrip | finance_calculator.py:232-238 | the payment on the principal that the inverse formula gives is the payment it started from |
| Loan.MaxPrincipalPositive | finance_calculator.py:232-238 | at a non-negative rate, a positive payment over a positive term repays a positive principal |
| Loan.BalanceClosedForm | finance_calculator.py:101-108 | after `k` months the balance satisfies `B_k·r = P·(1+r)^k·r - pay·((1+r)^k - 1)` |
| Loan.BalanceZeroRate | finance_calculator.py:106-107 | at a zero rate the balance falls by one payment each month |
| Loan.FullyAmortises | finance_calculator.py:101-108 | paying `monthly_payment` every month for the whole term leaves a balance of exactly 0 |
| Affordability.Deposit | finance_calculator.py:172 | a positive deposit amount overrides the percentage of the price |
| Affordability.Remainder | finance_calculator.py:173 | what is left of an amount after a deduction is never negative: it is the difference, or 0. It is the loan here and the money left for a mortgage at line 229 |
| Affordability.LoanCoversPrice | finance_calculator.py:172-173 | deposit plus loan is the price when the deposit does not exceed it; otherwise the loan is 0; a non-negative deposit never makes the loan exceed a non-negative price |
| Affordability.MonthlyMaintenance | finance_calculator.py:183-184 | twelve months of maintenance are the yearly percentage of the price, and never negative for non-negative inputs |
| Affordability.SdltDue | finance_calculator.py:180 | SDLT is the slab tax on the price for a house when it is requested, 0 otherwise, and never negative |
| Affordability.SimpleGrossFromNet | finance_calculator.py:188-192 | for a rate strictly between 0% and 100%, the flat rate reduces the estimated gross to the annual take-home; otherwise the estimate is the annual take-home |
| Affordability.SimpleGrossForAfford | finance_calculator.py:211 | below a 100% rate, the flat rate reduces the estimated gross to the required annual take-home; otherwise the estimate is 0 |
| Affordability.GrossByLti | finance_calculator.py:204 | for a positive multiple, the gross times the multiple is the loan; otherwise the gross is 0 |
| Affordability.MortgageByLti | finance_calculator.py:227 | the loan-to-income cap divided by a positive multiple is the gross, and the cap is never negative for non-negative inputs |
| Affordability.MortgageAffordable | finance_calculator.py:240 | the affordable mortgage is one of the two caps and at most both |
| Affordability.GrossNeeded | finance_calculator.py:272 | the required gross is one of the two estimates and at least both |
| Affordability.PriceDenominator | finance_calculator.py:243 | with no deposit amount, the denominator is not positive exactly when the deposit share is 100% or more; with an amount and a positive price, it is the loan's share of the price, between 0 and 1 for a loan no larger than the price; with a price of 0 or less, it is 0 |
| Affordability.PriceAffordable | finance_calculator.py:243-252 | with a deposit amount, the price is mortgage + amount; with a deposit share below 100%, the price less that share is the mortgage; at 100% or more it falls back to the mortgage |
| Affordability.PriceRoundTrip | finance_calculator.py:243-252 | buying at the affordable price under the same deposit rule needs a loan of exactly the affordable mortgage |
| Affordability.RequiredGrossForAffordability | finance_calculator.py:195-199 | the PAYE gross for a required monthly take-home lies in a bisection bracket over `[0, 2,000,000]`, and its pay is `gross_to_net` of it; an annual take-home above 0 and up to 1,075,306.40 (the take-home on 2,000,000) is met to within `2,000,000 / 2^61`; a required take-home of 0 or less gives the lowest midpoint, and one above that ceiling gives the highest |
| Affordability.FloorNet | finance_calculator.py:58 | the take-home on the lower guess of 0 is 0, so a target exceeds it exactly when the target is positive |
| Affordability.CeilingNet | finance_calculator.py:198 | the take-home on the search ceiling of 2,000,000 is 1,075,306.40, so a target is reachable exactly when it is at most that |
| Affordability.SearchOutcome | finance_calculator.py:196-198 | the bisection's guarantees over `[0, 2,000,000]`, restated in terms of the target alone: clamped at either end, otherwise within the half-width |
| Affordability.ProjectSalary | finance_calculator.py:202-220 | the loan-to-income gross, the required take-home (mortgage payment plus monthly costs), and the PAYE and flat-rate grosses for it, with tax and NIC at the PAYE gross; a reachable required take-home is met to within the half-width |
| Affordability.RequiredNetCoversPayment | finance_calculator.py:207 | with valid inputs the mortgage payment is never negative and never exceeds the required take-home |
| Affordability.ProjectAffordability | finance_calculator.py:223-263 | the PAYE gross behind the take-home, whose net is within the half-width of a reachable take-home; the two caps, with the payment cap taken on what is left after costs; the affordable mortgage at most both caps; and the price that mortgage and the deposit rule buy |
| Affordability.AffordableLoanFitsBudget | finance_calculator.py:226-240 | with valid inputs both caps and the affordable mortgage are non-negative, and the affordable mortgage's payment fits within the money left each month |

## Left out

- The Streamlit page: widgets, columns, metrics and text output. `Affordability.InputsValid` records the widgets' ranges as a precondition for the lemmas that need them.
- The in-session scenario store and its comparison table, which are UI state.
- The matplotlib charts, including the "disposable income" values computed only for them.
- IEEE-754 rounding. Every quantity is an exact `real`, so the 60-step bisection and `**` are modelled without rounding error.
- The stress-test payment at line 177. It is `monthly_payment` at a shifted rate, which `Loan.MonthlyPayment` already covers.
- `arrangement_fee`, which is read from the form but never used in any calculation.
- The display-time call `monthly_payment(mortgage_affordable, …)`. It is covered by `Affordability.AffordableLoanFitsBudget` rather than modelled as a step.
