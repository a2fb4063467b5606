# Corporate tax, dividend gross-up and property-purchase options — a Dafny model

This project models the calculation layer of a small app that compares two
ways for the owner of a French company to buy a property:

- **Personal purchase**: the owner pays the price out of dividends, which
  are taxed at a flat personal rate. The model finds the gross dividends
  that leave exactly the price once that flat tax is paid.
- **Purchase through an SCI** (a property company taxed under corporate
  tax): the owner pays the SCI a monthly rent. The SCI is taxed at a flat
  corporate rate and pays the rest back as dividends, which are taxed in
  turn. The model gives the yearly net cost and the cost over a period.

Around these two options sit the two-bracket corporate income tax ("impôt
sur les sociétés", article 219 of the Code général des impôts: 15 % up to
42 500 €, 25 % above) and its inverse, which finds the revenue a company
must earn to keep a given amount after corporate tax. The cumulative-cost
series that the app plots for the SCI option is modelled too.

Money and rates are Dafny `real`s. Python raises `ZeroDivisionError` when
a rate of exactly 1 appears in a denominator. Here that is the
`DivisionByZero` failure of a `Result`, returned on exactly the inputs
where Python would raise.

Modules (one per source file, plus two shared ones):

- `Results`: the `Result` type and its single error, `DivisionByZero`.
- `Rates`: flat-rate helpers. `AfterFlatTax(x, rate)` is `x * (1 - rate)`.
  `GrossUp(x, rate)` is `x / (1 - rate)`, its inverse. The module also holds
  small order facts about real products used by the proofs.
- `CorporateTax`: `calculate_corporate_tax`.
- `DividendToRevenue`: `calculate_revenue_for_dividends`.
- `InvestmentOptions`: the two options as one datatype, with `Calculate`.
- `DataVisualization`: `years_range` and `cumulative_costs` from `plot_annual_costs`.

The Streamlit page `src/app/GUI/home.py` expects more of the two options
than `investment_options.py` provides. The model follows
`investment_options.py`:

- `PersonalPurchase.calculate` returns only `gross_dividends_needed` and
  `total_tax_paid`. `home.py` (lines 38, 42-43 and 72) also reads
  `flat_tax_paid`, `CA_required` and `IS_paid`, which no `calculate()`
  returns.
- `SCIInvestment` takes four arguments, one of them a flat
  `corporate_tax_rate`, and uses that rate rather than the bracket schedule
  of `calculate_corporate_tax`. `home.py` (lines 23-25) passes only three,
  and it reads `rent_cost_over_years` and `initial_cost_holding_sci`
  (lines 61-62), which `SCIInvestment.calculate` does not return.
  `total_cost_over_years` is the yearly net cost times the years.
- `FlatRateMatchesReducedBracket` states when the flat rate and the bracket
  schedule agree: the yearly rent stays within the reduced bracket and the flat rate is the
  reduced rate.

## Model

| member | source | states |
|---|---|---|
| CorporateTax.Tax | src/app/calculations/impot_societe_from_CA.py:20-29 | The tax is the reduced rate on the slice of profit up to the threshold plus the normal rate on the slice above it. This matches both branches: reduced rate times profit at or below the threshold, and threshold x reduced + excess x normal above it. |
| CorporateTax.TaxSlopeBounds | src/app/calculations/impot_societe_from_CA.py:20-27 | For p <= q, Tax(q) - Tax(p) lies between the smaller and the larger rate times q - p, for any rates. So the schedule has no jump at the threshold (it is Lipschitz continuous). |
| CorporateTax.TaxMonotone | src/app/calculations/impot_societe_from_CA.py:20-27 | With non-negative rates, p <= q implies Tax(p) <= Tax(q). |
| CorporateTax.TaxContinuousAtThreshold | src/app/calculations/impot_societe_from_CA.py:20-27 | The tax at the threshold is threshold x reduced rate, the value both branch formulas give there. |
| CorporateTax.TaxBounds | src/app/calculations/impot_societe_from_CA.py:20-27 | Take a non-negative profit p, a non-negative threshold and 0 <= reduced <= normal <= 1. Then 0 <= reduced x p <= tax <= normal x p <= p. |
| CorporateTax.AfterTaxStrictlyIncreasing | src/app/calculations/impot_societe_from_CA.py:20-27 | With both rates below 1, the profit left after tax is strictly increasing in the profit. |
| CorporateTax.DefaultScheduleExamples | src/app/calculations/impot_societe_from_CA.py:33-36 | With the default schedule, 42 500 € of profit is taxed 6 375 € and the module's example profit of 100 000 € is taxed 20 750 €. |
| Rates.GrossUp | src/app/calculations/investment_options.py:34 | The grossed-up amount, taxed at the rate, leaves exactly the amount asked for. It is defined only for a rate other than 1. |
| Rates.GrossUpAfterFlatTax | src/app/calculations/from_dividend_to_CA.py:20 | Grossing up inverts the flat tax: for any rate other than 1, the gross amount that leaves x times (1 - rate) after tax at that rate is x itself. |
| DividendToRevenue.ReducedCeiling | src/app/calculations/from_dividend_to_CA.py:18 | The branch limit threshold x (1 - reduced rate) is the after-tax profit of a company earning exactly the threshold. |
| DividendToRevenue.RevenueForDividends | src/app/calculations/from_dividend_to_CA.py:14-28 | Fails with DivisionByZero exactly when the branch taken divides by 1 - rate = 0. That is the reduced rate being 1 with the target at or below the limit, or the normal rate being 1 with the target above it. |
| DividendToRevenue.RoundTrip | src/app/calculations/from_dividend_to_CA.py:18-28 | For any target and both rates below 1, the revenue exists and revenue - Tax(revenue) equals the target, on both branches. |
| DividendToRevenue.ReverseRoundTrip | src/app/calculations/from_dividend_to_CA.py:18-24 | For any gross profit and both rates below 1, the revenue computed for gp - Tax(gp) is gp itself. |
| DividendToRevenue.RevenueAtBoundary | src/app/calculations/from_dividend_to_CA.py:18-20 | For any reduced rate other than 1, a target exactly at the branch limit needs exactly the threshold as revenue. |
| DividendToRevenue.DefaultRevenueAtBoundary | src/app/calculations/from_dividend_to_CA.py:1-20 | With the default arguments (42 500 €, 15 %, 25 %) the branch limit is 36 125 €, and that target needs 42 500 € of revenue. |
| DividendToRevenue.GrossUpNeverShrinks | src/app/calculations/from_dividend_to_CA.py:18-24 | Take a non-negative target, a non-negative threshold and both rates in [0, 1). Then the revenue is at least the target. |
| DividendToRevenue.RevenueStrictlyIncreasing | src/app/calculations/from_dividend_to_CA.py:18-24 | With both rates below 1, a larger target needs strictly more revenue. |
| InvestmentOptions.PersonalCalculate | src/app/calculations/investment_options.py:28-39 | Fails exactly when the dividend rate is 1. Otherwise it returns the two fields: the tax is the rate times the gross dividends, and gross dividends minus tax is exactly the property price. |
| InvestmentOptions.SciCalculate | src/app/calculations/investment_options.py:58-74 | Returns the four SCI fields. The yearly rent is 12 monthly rents and the total over the period is the yearly net cost times the years. The yearly net cost is the rent taxed at the combined rate of the two flat taxes, c + d - c x d. With rent >= 0 and both rates in [0, 1] it lies between 0 and the yearly rent. |
| InvestmentOptions.Calculate | src/app/calculations/investment_options.py:3-13 | Each option returns its own kind of record. Only the personal purchase can fail, and only at a dividend rate of 1. |
| InvestmentOptions.PersonalTaxNonNegative | src/app/calculations/investment_options.py:34-35 | With a price >= 0 and a rate in [0, 1), the flat tax is >= 0 and the gross dividends are at least the price. |
| InvestmentOptions.PersonalZeroRate | src/app/calculations/investment_options.py:34-35 | With a rate of 0, the gross dividends are the price and the tax is 0. |
| InvestmentOptions.PersonalScenario | src/app/calculations/investment_options.py:34-39 | A price of 300 000 € at 30 % needs 300 000 / 0.7 € of gross dividends and pays 90 000 / 0.7 € of tax. |
| InvestmentOptions.SciZeroRates | src/app/calculations/investment_options.py:64-68 | With both rates 0, the yearly and total net costs are 0. |
| InvestmentOptions.SciZeroYears | src/app/calculations/investment_options.py:68 | Over 0 years the total cost is 0: the total is the yearly net cost times the years and nothing else. |
| InvestmentOptions.SciScenario | src/app/calculations/investment_options.py:64-74 | Take 700 € a month, 15 % corporate tax, 30 % dividend tax and 20 years. Then the rent is 8 400 € a year, 4 998 € comes back as dividends, the net cost is 3 402 € a year and 68 040 € in total. |
| InvestmentOptions.FlatRateMatchesReducedBracket | src/app/calculations/investment_options.py:64-66 | Suppose the yearly rent is within the reduced bracket and the flat corporate rate is the reduced rate. Then the dividends are the schedule's after-tax profit less dividend tax. |
| DataVisualization.YearsRange | src/app/utils/data_visualization.py:45 | The range has max(years, 0) entries, strictly increasing. Its members are exactly the integers 1..years. |
| DataVisualization.CumulativeCosts | src/app/utils/data_visualization.py:46 | One entry per year of the range. The entry at index i is the net yearly cost times year i + 1. |
| DataVisualization.CumulativeLength | src/app/utils/data_visualization.py:45-46 | The series has length max(years, 0) and is empty exactly when years <= 0. |
| DataVisualization.CumulativeIsRunningTotal | src/app/utils/data_visualization.py:45-46 | The series equals the running total that adds one year's net cost per year. |
| DataVisualization.CumulativeStep | src/app/utils/data_visualization.py:46 | Consecutive entries differ by exactly the net yearly cost. |
| DataVisualization.CumulativeNonDecreasing | src/app/utils/data_visualization.py:46 | With a non-negative net yearly cost, the series never decreases. |
| DataVisualization.CumulativeEndsAtSciTotal | src/app/utils/data_visualization.py:45-46 | For years >= 1, the last entry is the SCI option's total cost over the years. |

## Left out

- Floating-point behaviour: the model computes in exact reals. IEEE-754 rounding and the `:.2f` display formatting are not modelled.
- Purity of the two `calculate()` methods: `Calculate` is a Dafny function over immutable values. It cannot change the option's fields, and equal inputs give equal records, so no separate lemma states this.
- The Streamlit interface (`src/app/GUI/home.py`, `sidebar.py`, `footer.py`, `src/app/app.py`): it only collects inputs and displays results. It also calls `SCIInvestment` with three arguments and reads keys no `calculate()` returns, so the composed version it implies is not modelled.
- Configuration (`src/app/config.py`): environment, `.env` and TOML loading, the password check and Firebase credentials are I/O.
- `plot_total_costs` and the Plotly figure built in `plot_annual_costs`: these are foreign library calls. Only the two lists that feed the chart are modelled.
- The example `print` at import time in `impot_societe_from_CA.py`: a side effect. Its value is stated as a lemma instead.
- Input validation: the Python code validates none of its inputs. The model takes any reals (and any integer for `years`), and each lemma states the conditions under which its property holds.
- DividendToRevenue.GrossUpNeverShrinks: also requires a non-negative threshold. With a negative threshold the revenue can fall below the target: threshold -100, rates 0.5 and 0, and target 0 give a revenue of -50.
