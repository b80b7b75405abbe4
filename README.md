# fin-calc calculators in Dafny

fin-calc is a single-page financial literacy tool. It has several form-driven calculators. This project models the
arithmetic and the input checks inside four of them:

- **Tax Savings** (`TaxSavings`): a walk over a fixed seven-tier federal table that keeps a running tax and a
  shrinking remaining income, and stops early. The net income is `income - tax`.
- **Compound Growth** (`CompoundGrowth`): a yearly contribution is paid in, and then the whole balance earns the
  rate. The model also covers the three-field guard.
- **Savings Rate** (`SavingsRate`): a share of the annual salary divided by 52, 26 and 12.
- **Inflation** (`Inflation`): the rule of 72 at a fixed 9.1% rate, half of the contribution, and the twelve most
  recent inflation records, oldest first.

Shared pieces:

- `Common`: the parse results, the outcome of a submission (what goes to `setResults`, and whether the handler goes
  on to request a series), and the results-panel toggle.
- `InputText`: the comma-stripping change handler.
- `MarketHistory`: `slice(0, 12).reverse()` and the month-over-month rate-of-return loop.

JavaScript numbers are modelled as exact `real`s. `parseFloat` and `parseInt` are parameters of type
`string -> Option<…>`, where `None` stands for `NaN`. `Infinity` as a tier maximum is `Bound.Unbounded`.

The tax loop is modelled as the code is written. The loop compares the shrinking remainder with each tier's
absolute maximum, and then subtracts the previous tier's maximum. The tax it computes is therefore
`Σ rate_i · clamp(income − 2·L_i, 0, max_i − L_i)`, where `L_i` is the previous tier's maximum (0 for the first
tier). That is not bracket taxation, under which each dollar pays the rate of the bracket it falls in and the tax
has no plateau. The code itself points to bracket taxation as the intent. The `taxTiers` table
(src/components/TaxSavingsCalculator.js:32-40) is the federal single-filer bracket table. Subtracting the previous
tier's `max` (line 48) computes a bracket's lower edge, which only makes sense when each tier taxes the income
between its lower edge and its maximum. The model follows the code, and the difference is recorded under
"## Findings". The submit handler `TaxSavings.CalculateTax` uses the loop as written, because that is what the
calculator does.

## Model

| member | source | states |
|---|---|---|
| `Common.ToggleCollapse` | src/components/CompoundGrowthCalculator.js:107 | `results ? null : results` always leaves the panel empty: a shown result is cleared and an empty one stays empty. The identical toggle is at src/components/SavingsRateCalculator.js:101. |
| `InputText.StripCommas` | src/components/InflationCalculator.js:20-23 | The result has no comma. It is no longer than the input. It keeps every other character with its multiplicity. The same handler is at src/components/CompoundGrowthCalculator.js:25-38 and src/components/SavingsRateCalculator.js:23-31. |
| `InputText.StripCommasAppend` | src/components/CompoundGrowthCalculator.js:25-38 | Stripping distributes over concatenation, so the kept characters stay in their order. |
| `InputText.StripCommasFree` | src/components/SavingsRateCalculator.js:23-31 | A value with no comma is left unchanged. |
| `InputText.StripCommasIdempotent` | src/components/InflationCalculator.js:21 | Stripping twice is the same as stripping once. |
| `MarketHistory.Recent` | src/components/CompoundGrowthCalculator.js:90 | `slice(0, 12).reverse()` has `min(12, n)` entries. Entry i is source entry `min(12, n) − 1 − i`. |
| `MarketHistory.RateOfReturn` | src/components/CompoundGrowthCalculator.js:93-95 | The result is defined exactly when the current close is not 0. When defined, it times the current close equals `(next − current) · 100`. |
| `MarketHistory.RateOfReturnWindow` | src/components/CompoundGrowthCalculator.js:90-97 | From the k = min(12, n) most recent months, the loop yields max(k − 1, 0) rows, oldest first. Row i carries month i's date and the rate of return from month i to month i + 1. The same loop is at src/components/SavingsRateCalculator.js:84-91. |
| `TaxSavings.Lower` | src/components/TaxSavingsCalculator.js:48 | The previous tier's maximum, or 0 for the first tier, is never negative. |
| `TaxSavings.LowerAscending` | src/components/TaxSavingsCalculator.js:32-40 | The previous maxima are strictly ascending from tier to tier. A later tier's lower edge is at or above an earlier tier's maximum. |
| `TaxSavings.Slice` | src/components/TaxSavingsCalculator.js:46-52 | The closed-form amount tier i taxes is non-negative. For finite tiers it is at most `max_i − L_i`. |
| `TaxSavings.TaxTailIsZero` | src/components/TaxSavingsCalculator.js:45 | When the remainder is exhausted, the tiers the early `break` skips would have added nothing. |
| `TaxSavings.ComputeTax` | src/components/TaxSavingsCalculator.js:41-53 | For any valid table, the loop's tax equals `Σ rate_i · clamp(income − 2·L_i, 0, max_i − L_i)`. The body runs for no tier when income ≤ 0, for the first tier only when the income fits in it, and otherwise for all tiers, never more than the table's length. |
| `TaxSavings.LoopExhausted` | src/components/TaxSavingsCalculator.js:45 | At the early `break`, the tiers not yet visited would have added nothing. The body has then run for no tier (income ≤ 0) or only for the first (the income fits in it). |
| `TaxSavings.LoopCompleted` | src/components/TaxSavingsCalculator.js:44-53 | A loop that visits every tier means the income is positive, and either it did not fit in the first tier or the table has one tier. |
| `TaxSavings.TierStep` | src/components/TaxSavingsCalculator.js:46-52 | One pass taxes exactly tier i's closed-form amount. While every earlier tier was filled, the remainder is `income − L_i`. Once a tier is not filled, the remainder is a previous maximum and every later amount is ≤ 0. |
| `TaxSavings.SlicesLipschitz` | src/components/TaxSavingsCalculator.js:44-53 | Summed over the first k tiers, the amounts never shrink as income rises. They grow by no more than the income does. |
| `TaxSavings.SliceMonotone` | src/components/TaxSavingsCalculator.js:46-52 | Each tier's amount grows with the income. |
| `TaxSavings.TaxUpToNonNegative` | src/components/TaxSavingsCalculator.js:49-51 | Only positive amounts are added, so the tax is never negative. |
| `TaxSavings.TaxTiersValid` | src/components/TaxSavingsCalculator.js:32-40 | The calculator's table has positive, strictly ascending maxima, an unbounded last tier, and ascending rates in (0, 1). |
| `TaxSavings.TaxTiersTax` | src/components/TaxSavingsCalculator.js:32-53 | For the calculator's table, the tax is the seven tier amounts weighted by 0.10, 0.12, 0.22, 0.24, 0.32, 0.35 and 0.37. |
| `TaxSavings.TaxFirstTier` | src/components/TaxSavingsCalculator.js:45-53 | An income in [0, 10276] owes exactly 10% of itself. |
| `TaxSavings.TaxPlateau` | src/components/TaxSavingsCalculator.js:46-52 | Every income in [10276, 20552] owes exactly 1027.6. |
| `TaxSavings.TaxMonotone` | src/components/TaxSavingsCalculator.js:44-53 | A larger income never owes less tax. |
| `TaxSavings.TaxGrowthBounded` | src/components/TaxSavingsCalculator.js:44-53 | Raising the income by d raises the tax by at most 0.37·d. |
| `TaxSavings.TaxBounds` | src/components/TaxSavingsCalculator.js:44-53 | For income ≥ 0, 0 ≤ tax ≤ 0.37·income. |
| `TaxSavings.NetIncomeBounds` | src/components/TaxSavingsCalculator.js:60 | `income − tax` is never negative for income ≥ 0, and it grows with the income. |
| `TaxSavings.TaxAt50000` | src/components/TaxSavingsCalculator.js:32-53 | An income of 50000 owes 4561.36: 1027.6 from the first tier and 12% of 29448 from the second. |
| `TaxSavings.MarginalSlice` | src/components/TaxSavingsCalculator.js:46-48 | The bracket-scheme amount of tier i, `clamp(income − L_i, 0, width_i)`, is never negative. |
| `TaxSavings.MarginalTailIsZero` | src/components/TaxSavingsCalculator.js:45 | Under the bracket scheme, tiers whose lower edge is at or above the income add nothing. |
| `TaxSavings.MarginalStep` | src/components/TaxSavingsCalculator.js:46-52 | One pass of the corrected loop taxes exactly tier i's bracket amount. The remainder is either `income − L_{i+1}` or used up. |
| `TaxSavings.ComputeMarginalTax` | src/components/TaxSavingsCalculator.js:41-53 | The loop, corrected to cap each tier at its width, computes `Σ rate_i · clamp(income − L_i, 0, max_i − L_i)`. |
| `TaxSavings.MarginalTaxTiers` | src/components/TaxSavingsCalculator.js:32-40 | For the calculator's table, the bracket tax is the seven bracket amounts weighted by their rates. |
| `TaxSavings.MarginalSecondTier` | src/components/TaxSavingsCalculator.js:32-53 | Under the bracket scheme, an income in [10276, 41776] owes 1027.6 plus 12% of the excess over 10276. |
| `TaxSavings.AsWrittenSkipsSecondTier` | src/components/TaxSavingsCalculator.js:46-48 | At an income of 10277, the loop as written gives 1027.6 and the bracket scheme gives 1027.72. |
| `TaxSavings.ValidateIncome` | src/components/TaxSavingsCalculator.js:22-30 | An empty field is refused as missing. A value that does not parse or is negative is refused as invalid. Everything else is accepted, 0 included, as the parsed number. |
| `TaxSavings.CalculateTax` | src/components/TaxSavingsCalculator.js:21-64 | A refused input yields its error and no result. Otherwise the result is the loop's tax on the calculator's table and `income − tax`: tax between 0 and 37% of the income, net income not negative, and tax 0 for income 0. |
| `CompoundGrowth.ValidateGrowth` | src/components/CompoundGrowthCalculator.js:41-58 | Any empty field is refused as missing. Otherwise an input is accepted exactly when all three fields parse, the length and the contribution are positive and the rate is not negative. The interest is the rate divided by 100. |
| `CompoundGrowth.Accumulate` | src/components/CompoundGrowthCalculator.js:60-66 | After the year loop, `totalUserStash` is length × contribution. Stash plus interest is the balance reached by contributing and then compounding each year. |
| `CompoundGrowth.YearStep` | src/components/CompoundGrowthCalculator.js:62-66 | One pass of the year loop takes the stash from (y − 1)·c to y·c, and stash plus interest from the balance after y − 1 years to the balance after y years. |
| `CompoundGrowth.ZeroRateEarnsNothing` | src/components/CompoundGrowthCalculator.js:64-65 | At rate 0 the interest is 0 for any length. |
| `CompoundGrowth.YearOverYear` | src/components/CompoundGrowthCalculator.js:62-66 | Each year the balance B becomes `B + c + (B + c)·r`, that is, contribute then compound. |
| `CompoundGrowth.BalanceCoversStash` | src/components/CompoundGrowthCalculator.js:62-66 | For a positive contribution and a rate that is not negative, the balance never falls below what was paid in, so the interest is ≥ 0. |
| `CompoundGrowth.YearlyGrowth` | src/components/CompoundGrowthCalculator.js:62-66 | From one year to the next the interest never decreases, and stash plus interest strictly increases. |
| `CompoundGrowth.InterestMonotone` | src/components/CompoundGrowthCalculator.js:62-66 | With a positive contribution and a rate that is not negative, a longer investment never ends with less total interest. |
| `CompoundGrowth.BalanceMonotone` | src/components/CompoundGrowthCalculator.js:62 | A longer investment never ends with a smaller total. |
| `CompoundGrowth.BalanceClosedForm` | src/components/CompoundGrowthCalculator.js:62-66 | The balance follows the annuity-due formula `r·B(n) = c·(1 + r)·((1 + r)^n − 1)`. |
| `CompoundGrowth.ThreeYearsAtTenPercent` | src/components/CompoundGrowthCalculator.js:60-66 | 3 years of 1000 at 10% give 641 of interest and 3641 in all. |
| `CompoundGrowth.CalculateCompoundGrowth` | src/components/CompoundGrowthCalculator.js:40-83 | A refused input yields its error, with no result and no fetch. Otherwise the result reports length × contribution, interest ≥ 0, and a total equal to their sum and to the compounded balance. The series is requested exactly when an investment is named. |
| `SavingsRate.ValidateSavings` | src/components/SavingsRateCalculator.js:34-51 | Either field empty is refused as missing. Otherwise an input is accepted exactly when both parse, the salary is positive and the percent lies in [0, 100]. The accepted share lies in [0, 1]. |
| `SavingsRate.Split` | src/components/SavingsRateCalculator.js:53-56 | weekly·52 = biWeekly·26 = monthly·12 = annual = salary·share, and biWeekly = 2·weekly. |
| `SavingsRate.SplitOrdered` | src/components/SavingsRateCalculator.js:53-56 | For a valid input, 0 ≤ weekly ≤ biWeekly ≤ monthly ≤ annual ≤ salary. |
| `SavingsRate.ShareOfSalary` | src/components/SavingsRateCalculator.js:56 | A share in [0, 1] of a positive salary lies between 0 and the salary. |
| `SavingsRate.SplitOfNothing` | src/components/SavingsRateCalculator.js:53-56 | A zero share makes all four amounts 0. |
| `SavingsRate.CalculateSavingsRate` | src/components/SavingsRateCalculator.js:33-77 | A refused input yields its error, with no result and no fetch. Otherwise the result is the split of the accepted input, its annual amount lies in [0, salary], and the series is requested exactly when an investment is named. |
| `Inflation.ValidateContribution` | src/components/InflationCalculator.js:26-34 | An empty field is refused as missing. Otherwise the input is accepted exactly when it parses to a positive number. |
| `Inflation.YearsUntilHalved` | src/components/InflationCalculator.js:36-38 | The result times 9.1 is 72, whatever the input, so it lies between 7.91 and 7.92. |
| `Inflation.HalvedValue` | src/components/InflationCalculator.js:42 | Twice the result is the contribution. For a positive contribution it lies strictly between 0 and the contribution. |
| `Inflation.CalculateInflationHalving` | src/components/InflationCalculator.js:25-48 | A refused input yields its error and no fetch. A valid one yields 72/9.1 years and half the contribution, and always requests the inflation series. |
| `Inflation.ToPoints` | src/components/InflationCalculator.js:54-58 | The map keeps the length and the order. Each entry keeps its date and carries its parsed value. |
| `Inflation.InflationHistory` | src/components/InflationCalculator.js:53-58 | The history has `min(12, n)` entries. Entry i is record `min(12, n) − 1 − i`, with its date kept and its value parsed. |
| `Inflation.HistoryFromParsedSeries` | src/components/InflationCalculator.js:53-58 | Parsing after `slice(0, 12).reverse()` gives the same history as parsing the whole series first. |

## Left out

- Rendering, `useState`, disabled buttons, CSS classes and `toggleHistorical` are UI and are not modelled. The model
  keeps only the values handed to `setResults` and the panel toggle.
- The HTTP requests are left out: `axios.get`, the API key from the environment, `async`/`await`, the loading
  flag, the `try`/`catch` around the fetch, and the toast notifications.
  - The series the provider returns are inputs to `MarketHistory.RateOfReturnWindow` and
    `Inflation.InflationHistory`.
  - A validation toast is modelled as the `InputError` it reports.
  - Whether a handler goes on to fetch is the `fetchHistory` flag.
- Number parsing is left out because its string semantics are library behaviour. `parseFloat` and `parseInt` are
  parameters, and the model proves nothing about which strings parse.
- Formatting is left out for the same reason: `formatInput`, `toLocaleString` and `toFixed(2)`, including the `%`
  suffix on rates of return. Results are modelled as unformatted reals.
- Infinite parsed values are not modelled: every parsed value is taken to be a finite real. `parseFloat` can
  return +Infinity (for example for "1e999"). That passes every guard except the savings percent's `percent > 1`
  (src/components/SavingsRateCalculator.js:45). The tax calculator would then report a tax of Infinity and a net
  income of NaN, and `Option<real>` cannot represent either. −Infinity is refused by every guard, because each one
  rejects negative values.
- IEEE-754 rounding is not modelled. All arithmetic is on exact reals, so no result is claimed to be bit-exact.
- `MarketHistory.RateOfReturn`: a zero close is modelled as `None`. JavaScript gives `Infinity` or `NaN` there,
  which `toFixed` renders as text. A close that does not parse is out of scope, because closes are taken as
  already-parsed reals.
- Object key order: the monthly series is taken as a sequence in the provider's order, newest first, which is what
  `Object.keys` returns for that response.
- src/App.js and src/components/HamburgerMenu.js are layout and navigation only and are not modelled. The
  retirement calculator's source is not part of this model.

## Findings

| source | as written | input that shows it | evidently intended | confidence | as-written member | corrected member |
|---|---|---|---|---|---|---|
| src/components/TaxSavingsCalculator.js:46-48 | The loop compares the shrinking remainder with each tier's absolute maximum. A tier beyond the first taxes nothing until the income passes twice the previous maximum. Every income from 10276 to 20552 owes 1027.6. | An income of 10277 gives a tax of 1027.6. | Bracket taxation, as the bracket table (lines 32-40) and the lower-edge subtraction (line 48) indicate: the dollar past 10276 pays 12%, for 1027.72. Each tier takes `min(remainingIncome, max_i − L_i)`. | not executed | `TaxSavings.AsWrittenSkipsSecondTier` (with `TaxSavings.TaxPlateau`, `TaxSavings.ComputeTax`) | `TaxSavings.ComputeMarginalTax` (with `TaxSavings.MarginalSecondTier`) |

`TaxSavings.CalculateTax` still uses the loop as written, because that is what the calculator reports. The
corrected loop and the bracket scheme are proved alongside it.
