# COVID-19 small-business grant eligibility

A Dafny model of the NSW business rules for the COVID-19 small-business
grant (`nsw-business/variables/business_grant.py`). The file has two
formulas:

- `eligible_for_covid_19_business_grant` is the product of nine clauses
  about one organisation in one month. Four are flags: small business, holds
  an ABN, highly impacted, based in NSW. The others are numeric:
  0.5 < FTE count < 20, annual turnover > 75000, payroll below the external
  `payroll_threshold` parameter, and `turnover_calculations` > 0.75.
- `turnover_calculations` evaluates `current - last_year / last_year` on the
  two turnover inputs. Both inputs are declared boolean and default to True.

The model is one module, `BusinessGrant` (`business_grant.dfy`):

- `Organisation` is one organisation's input variables for one month.
- `payroll_threshold` is a `real` argument.
- The value of `turnover_calculations` is either passed in (`Eligible`) or
  computed by its formula (`EligibleWithFormula`).
- Booleans used as numbers are 0 and 1 (`BoolAsReal`).
- A zero divisor gives `Err(DivisionByZero)` instead of a value.

`Eligible` is defined the way the source computes it: a left-associated
product (`Product`) of the nine clauses in source order. Its contract states
the same rule as a plain nine-way conjunction. The FTE count is an integer
compared with 0.5, so the contract writes that clause as 1 <= FTE <= 19.

## Model

| member | source | states |
|---|---|---|
| `BusinessGrant.BoolAsReal` | nsw-business/variables/business_grant.py:107-109 | a boolean used as an operand is 0 or 1, and 1 exactly when it is True |
| `BusinessGrant.Clauses` | nsw-business/variables/business_grant.py:21-30 | there are nine factors; on an integer FTE count, `> 0.5` means at least 1 and `< 20` means at most 19 |
| `BusinessGrant.ProductIffAll` | nsw-business/variables/business_grant.py:21-30 | the product of boolean factors is true if and only if every factor is true |
| `BusinessGrant.FalseFactorFalsifiesProduct` | nsw-business/variables/business_grant.py:21-30 | one false factor makes the whole product false |
| `BusinessGrant.Eligible` | nsw-business/variables/business_grant.py:20-30 | an organisation is eligible if and only if it is a small business, has an ABN, is highly impacted, has 1 to 19 FTE, has annual turnover above 75000, is based in NSW, has payroll strictly below the threshold, and has turnover_calculations strictly above 0.75 |
| `BusinessGrant.AnyFalseClauseIneligible` | nsw-business/variables/business_grant.py:21-30 | falsifying any single one of the nine clauses makes the organisation ineligible |
| `BusinessGrant.FteBounds` | nsw-business/variables/business_grant.py:25-26 | eligibility implies 1 <= FTE <= 19; 0 FTE and 20 FTE are both ineligible |
| `BusinessGrant.AnnualTurnoverBoundary` | nsw-business/variables/business_grant.py:27 | annual turnover of exactly 75000 is ineligible; an eligible organisation stays eligible with 75001 |
| `BusinessGrant.PayrollBoundary` | nsw-business/variables/business_grant.py:29 | a payroll equal to the threshold is ineligible |
| `BusinessGrant.TurnoverBoundary` | nsw-business/variables/business_grant.py:30 | turnover_calculations of exactly 0.75 is ineligible |
| `BusinessGrant.ScenarioEligible` | nsw-business/variables/business_grant.py:20-30 | a small NSW business with an ABN, 10 FTE, turnover 100000, payroll 1000 under a threshold of 2000 and turnover_calculations 0.8 is eligible |
| `BusinessGrant.TurnoverDiff` | nsw-business/variables/business_grant.py:109 | for a non-zero baseline, `current - last_year / last_year` equals `current - 1`, because division binds tighter than subtraction |
| `BusinessGrant.TurnoverDiffExample` | nsw-business/variables/business_grant.py:109 | with current 0.9 and baseline 1 the formula gives -0.1 |
| `BusinessGrant.TurnoverCalculations` | nsw-business/variables/business_grant.py:106-110 | a False baseline is a division by zero; otherwise the value is -1 or 0, and it is 0 exactly when the current-turnover input is True |
| `BusinessGrant.DefaultTurnoverIsZero` | nsw-business/variables/business_grant.py:83-110 | with both turnover inputs at their default True, turnover_calculations is exactly 0 |
| `BusinessGrant.FormulaTurnoverNeverEligible` | nsw-business/variables/business_grant.py:109 | whenever turnover_calculations comes from its formula, the organisation is ineligible, whatever its other inputs |
| `BusinessGrant.EligibleWithFormula` | nsw-business/variables/business_grant.py:30 | eligibility with the formula's turnover value fails with a division error exactly when the baseline is False, and is never true otherwise |
| `BusinessGrant.TurnoverDecline` | nsw-business/variables/business_grant.py:104 | the decline fraction r of two turnover amounts satisfies current = last_year * (1 - r) |
| `BusinessGrant.DeclineClauseIff` | nsw-business/variables/business_grant.py:30 | with a positive baseline, the decline exceeds 0.75 if and only if current turnover is below a quarter of last year's |
| `BusinessGrant.EligibleWithDecline` | nsw-business/variables/business_grant.py:20-30 | with the decline fraction as the turnover clause: a zero baseline is a division error; with a positive baseline, eligible if and only if the other eight clauses hold and current turnover is below a quarter of last year's |
| `BusinessGrant.DeclineCanBeEligible` | nsw-business/variables/business_grant.py:104 | with the decline fraction, an organisation whose turnover fell from 100000 to 10000 is eligible |

## Left out

- The OpenFisca framework is not part of this model. That covers variable classes, the `Organisation` entity, monthly definition periods, variable lookup and caching, and vectorised evaluation over many organisations. The model takes one organisation's values for one month.
- How `payroll_threshold` is loaded from the parameter tree is not modelled. It is an argument.
- Line 30 reads `turnover_calculations` without a `period` argument. The model reads the same month's value.
- `default_value = True` on the float variable `turnover_calculations` (line 103) is not modelled. It only affects the framework's fallback when the variable is neither given nor computed.
- The framework's handling of missing inputs is not modelled. It falls back to default values, and every model input is always present.
- Floating point is not modelled; values are exact reals. A vectorised 0/0 in numpy yields NaN rather than an error. The model surfaces a zero divisor as `DivisionByZero` instead.
- Labels and reference strings are not modelled. The reference text of `is_small_business` has no formula, so the flag is an input and is not derived from FTE or ABN.

## Findings

| source | as written | input that shows it | evidently intended | confidence | as-written member | corrected member |
|---|---|---|---|---|---|---|
| nsw-business/variables/business_grant.py:109 | `current - last_year / last_year` on two boolean inputs, which is `current - 1` and never above 0 | both inputs at their default True give turnover_calculations 0, which is not above 0.75, so no organisation is eligible when the value is computed | the decline fraction `(last_year - current) / last_year` on turnover amounts, as the label on line 104 describes | medium, not executed | `BusinessGrant.FormulaTurnoverNeverEligible` | `BusinessGrant.DeclineClauseIff` |

`EligibleWithFormula` keeps the formula as written. `EligibleWithDecline` is
the same rule fed by the corrected decline fraction. `DeclineCanBeEligible`
shows that the corrected rule does admit eligible organisations.
