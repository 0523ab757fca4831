# Financial dashboard core, modelled in Dafny

This project models the computational core of a household personal-finance
dashboard, a React application. Six of its screens hold the core logic, and each
has its own Dafny module:

- `Taxes` (`taxes.dfy`) covers the tax page. It models:
  - the 2023 married-filing-jointly federal brackets;
  - the sum of deductions, including the HSA switch and Katie's 401(k) percentage;
  - taxable income, the flat Kentucky state tax, and net and monthly income;
  - the "Optimize Tax Strategy" button;
  - the 401(k) comparison effect;
  - the Roth-versus-Traditional IRA chart and its recommendation text.
- `Insurance` (`insurance.dfy`) covers the insurance page. It models:
  - deductible savings;
  - the emergency-fund bar;
  - the umbrella and deductible-readiness effects;
  - the boat-premium heuristic;
  - the ordered list of recommendations;
  - the "Apply All Recommendations" button.
- `Calculator` (`calculator.dfy`) covers the compound-interest calculator. It
  runs a year-by-year simulation with 12, 4, 2 or 1 compounding periods a year.
- `BabyFund` (`baby_fund.dfy`) covers the Phase 2 baby-fund projection. It
  samples a monthly-compounding account every six months and draws a
  progress bar against a 12500 goal.
- `Budget` (`budget.dfy`) covers the Phase 1 monthly budget table. Rows carry
  whole-percent shares of the total, and rows can be added, changed and
  removed.
- `Milestones` (`milestone_tracker.dfy`) covers the milestone tracker, with its
  add form, field edits, removal and progress bars.
- `Lists` (`lists.dfy`) holds the filter by id that the budget table and the
  milestone tracker both use to remove an entry.
- `JsMath` (`js_math.dfy`) holds the JavaScript number behaviour the modules
  share.
  - Numbers are exact rationals (`real`).
  - `Math.round` rounds halves towards +infinity.
  - A division by zero gives `NaN` or a signed infinity.
  - `Math.min(100, ·)` and `x || 0` are modelled on those values.
  - Reading a field of a missing array element gives a `TypeError`.

**Component state.** Each component that keeps state is a Dafny `class`, with
one field per piece of state the logic uses. The Phase 2 page's only state is
the selected track tab, which only chooses what is shown. Its projection is
computed on every render, so `BabyFund` is a method and functions with no
class. Each effect or event handler is a method.
- A method's `modifies` clause names exactly the state fields that its
  setters change.
- Derived values that React recomputes on every render are functions that
  read the fields (`TotalAnnualSavings`, `TotalBudget`).
- The pure computations are functions, with lemmas about them.

**Loops.** Where the source loops, the model has a `while` loop proved
against a reference function:
- the calculator's nested year and period loops;
- the baby fund's monthly loop.

**The source as written.** The model follows the source even where it looks
accidental:
- `useState(3,247)`, `useState(3,564)` and `useState(2,850)` pass a second
  argument that React ignores, so those premiums start at 3, 3 and 2.
- `readyForHigherDeductibles` compares the fund with a fixed 10000, whatever
  the goal.
- The calculator throws when `years` is not a whole number of at least one.
- Reading the last sample of an empty baby-fund series throws.

**Parameters and clocks.** The milestone and budget ids come from `Date.now()`
and the budget colour from `Math.random()`. In the model they are method
parameters.

## Model

| member | source | states |
|---|---|---|
| JsMath.Round | src/components/TaxOptimization.tsx:94 | `Math.round` gives the integer within half of x, counting a half up. |
| JsMath.Pow | src/components/TaxOptimization.tsx:176 | `Math.pow` with a whole exponent; at least 1 for a base of at least 1, positive for a positive base. |
| JsMath.Divide | src/components/InsuranceOptimization.tsx:63 | A finite quotient exactly when the divisor is non-zero, and then quotient × divisor = dividend; NaN exactly for 0/0, +infinity exactly for a positive dividend over 0, and −infinity exactly for a negative one. |
| JsMath.Scale | src/components/InsuranceOptimization.tsx:63 | Multiplying by a positive constant keeps finiteness and passes NaN and the infinities through. |
| JsMath.RoundNumber | src/pages/Phase1.tsx:44 | `Math.round` on a number: finite values are rounded, non-finite ones pass. |
| JsMath.Min100 | src/components/InsuranceOptimization.tsx:63 | `Math.min(100, x)`: never +infinity, never above 100, NaN exactly when x is NaN, x itself when at most 100, 100 for larger x or +infinity. |
| JsMath.OrZero | src/components/MilestoneTracker.tsx:93 | `x \|\| 0` on a number: NaN becomes 0, and every other value is unchanged. |
| JsMath.RoundMonotone | src/components/TaxOptimization.tsx:94 | Rounding never reverses an order. |
| JsMath.RoundOfInt | src/components/TaxOptimization.tsx:94 | Rounding a whole number gives it back. |
| JsMath.GrowthStep | src/pages/Calculator.tsx:45 | One period of growth by a factor of at least 1 on a non-negative balance, plus a non-negative deposit, gives at least the balance plus the deposit (also the monthly step at src/pages/Phase2.tsx:17). |
| Lists.Without | src/pages/Phase1.tsx:74 | `filter(x => x.id !== id)`, also in removeMilestone (src/components/MilestoneTracker.tsx:54): it never lengthens the list. |
| Lists.WithoutMembers | src/pages/Phase1.tsx:74 | The elements left are exactly those whose id differs. |
| Lists.WithoutAppend | src/pages/Phase1.tsx:74 | Filtering a concatenation concatenates the filtered parts, so order is kept. |
| Lists.WithoutAbsent | src/pages/Phase1.tsx:74 | A list with no element for the id is unchanged. |
| Lists.WithoutIdempotent | src/components/MilestoneTracker.tsx:53-55 | Removing an id twice is the same as removing it once. |
| Taxes.Slice | src/components/TaxOptimization.tsx:55-91 | The share of an income inside one bracket: 0 below it, the bracket's width above it, the excess over its floor inside it. |
| Taxes.SliceAbove | src/components/TaxOptimization.tsx:85 | The share above the top threshold: never negative, 0 below it, the excess over it otherwise. |
| Taxes.UnroundedFederalTax | src/components/TaxOptimization.tsx:56-91 | The sum of rate × slice over the seven 2023 joint-filing brackets (10% to 22000, 12% to 89450, 22% to 190750, 24% to 364200, 32% to 462500, 35% to 693750, 37% above); its properties are `Taxes.BracketSlope`, `Taxes.ThresholdContinuity` and `Taxes.BaseValues`. |
| Taxes.FederalTax | src/components/TaxOptimization.tsx:56-94 | `Math.round` of the bracket sum; its bounds and monotonicity are `Taxes.FederalTaxBounds` and `Taxes.FederalTaxMonotone`. |
| Taxes.CalculateFederalTax | src/components/TaxOptimization.tsx:50-95 | The nested ifs compute the rounded sum of rate × slice over the seven brackets; 0 for a non-positive income. |
| Taxes.FederalTaxBounds | src/components/TaxOptimization.tsx:50-95 | No tax on a non-positive income; otherwise between 10% and 37% of the income; never negative. |
| Taxes.BracketSlope | src/components/TaxOptimization.tsx:55-91 | Inside each bracket the tax grows at exactly that bracket's rate. |
| Taxes.ThresholdContinuity | src/components/TaxOptimization.tsx:55-91 | At each threshold, the formula for the bracket below and the one for the bracket above give the same tax. |
| Taxes.BaseValues | src/components/TaxOptimization.tsx:55-91 | The tax owed at each of the six thresholds. |
| Taxes.FederalTaxMonotone | src/components/TaxOptimization.tsx:50-95 | A higher taxable income never owes less federal tax. |
| Taxes.FirstBracket | src/components/TaxOptimization.tsx:56-57 | Up to 22000 the tax is 10% of the income, rounded; 22000 owes 2200. |
| Taxes.TotalIncome | src/components/TaxOptimization.tsx:17 | Katie's salary plus Chad's; `Taxes.SummaryAccounts` states the balance it enters. |
| Taxes.TotalDeductions | src/components/TaxOptimization.tsx:100-107 | The standard deduction, the HSA amount while the switch is on, the student-loan interest, charity, educator expenses, other deductions and Katie's 401(k) dollars; `Taxes.HsaGate` states the switch. |
| Taxes.KatieContribAmount | src/components/TaxOptimization.tsx:22 | Katie's 401(k) dollar amount is never negative for a non-negative salary and percentage. |
| Taxes.KatieContribMonotone | src/components/TaxOptimization.tsx:22 | A higher percentage never gives a smaller dollar amount. |
| Taxes.HsaGate | src/components/TaxOptimization.tsx:100-107 | The HSA switch adds exactly the HSA amount to the deductions; while it is off, the HSA amount has no effect. |
| Taxes.TaxableIncome | src/components/TaxOptimization.tsx:109 | `Math.max(0, income - deductions)`: never negative, at least income − deductions, and equal to one of the two. |
| Taxes.StateTax | src/components/TaxOptimization.tsx:117 | The flat state tax is never negative for a non-negative income and rate. |
| Taxes.StateTaxMonotone | src/components/TaxOptimization.tsx:117 | A higher taxable income never owes less state tax. |
| Taxes.Summarize | src/components/TaxOptimization.tsx:98-143 | The six figures the recalculation stores; `Taxes.SummaryAccounts` states how they add up. |
| Taxes.SummaryAccounts | src/components/TaxOptimization.tsx:98-143 | The recalculation's results: taxable income is never negative and otherwise income − deductions; the two taxes and their total; net income + taxes + 401(k) + Roth = total income; the monthly figure is within half a dollar of a twelfth of net income. |
| Taxes.Optimized | src/components/TaxOptimization.tsx:145-160 | After "Optimize", the HSA is on, the 401(k) share is at least 12% and the Roth contribution at least 6500; each is raised only when it was lower; nothing else changes. |
| Taxes.OptimizeIdempotent | src/components/TaxOptimization.tsx:145-160 | Pressing the button a second time changes nothing. |
| Taxes.OptimizeNeverRaisesTax | src/components/TaxOptimization.tsx:98-160 | With a non-negative salary, HSA amount and state rate, optimizing never raises the household's total tax. |
| Taxes.MonthlyRate | src/components/TaxOptimization.tsx:172 | The annual percentage / 100 / 12. |
| Taxes.FutureValue | src/components/TaxOptimization.tsx:172-176 | A twelfth of the annual amount deposited monthly for `years` × 12 months; the factor's closed form is `Taxes.AnnuityClosedForm`. |
| Taxes.TraditionalAfterTax | src/components/TaxOptimization.tsx:220-228 | The future value of the full contribution, less the retirement-rate tax on all of it. |
| Taxes.RothFutureValue | src/components/TaxOptimization.tsx:220-232 | The future value of what is left of the contribution after today's tax; `Taxes.RothVersusTraditional` compares it with Traditional. |
| Taxes.AnnuityFactor | src/components/TaxOptimization.tsx:176 | The deposit-by-deposit future-value factor is at least the number of deposits at a non-negative rate, and at least 1 once there is a deposit. |
| Taxes.AnnuityClosedForm | src/components/TaxOptimization.tsx:176 | i × factor = (1 + i)^m − 1, the closed form the page divides by i. |
| Taxes.AnnuityStep | src/components/TaxOptimization.tsx:176 | One more monthly deposit keeps the closed-form identity. |
| Taxes.FutureValueFactorAsWritten | src/components/TaxOptimization.tsx:176 | The page's `(Math.pow(1 + i, m) - 1) / i` is finite exactly when i is non-zero. |
| Taxes.ZeroRateFactor | src/components/TaxOptimization.tsx:176 | At a 0% return the page's factor is NaN, while the true factor is the number of deposits; at any other rate the two agree. |
| Taxes.RothVersusTraditional | src/components/TaxOptimization.tsx:218-246 | Roth ends ahead exactly when today's tax rate is below the retirement rate, and level exactly when the rates are equal. |
| Taxes.CalculateRothVsTraditional | src/components/TaxOptimization.tsx:209-246 | The two bars are the rounded after-tax Traditional value and the rounded Roth value. For a positive contribution, at least one year and a return above −100% a year, the bars never contradict the advice: Roth's bar is at least Traditional's when Roth is advised, at most when Traditional is, and equal when either is fine. |
| Taxes.GetRecommendation | src/components/TaxOptimization.tsx:209-216 | Roth advice exactly when the current rate is below the retirement rate, Traditional exactly when above, and either exactly when equal. |
| Taxes.Compare401k | src/components/TaxOptimization.tsx:170-191 | The after-tax value and the withdrawal tax add up to the future value, within rounding; the two results equal the IRA comparison on Katie's contribution. |
| Taxes.TaxOptimization.constructor | src/components/TaxOptimization.tsx:15-167 | The page's initial state: the tax inputs, the IRA inputs and the 401(k) outputs. |
| Taxes.TaxOptimization.RecalculateTaxes | src/components/TaxOptimization.tsx:98-143 | The stored summary is the recalculation of the inputs. |
| Taxes.TaxOptimization.OptimizeTaxes | src/components/TaxOptimization.tsx:145-160 | The new inputs are `Optimized` of the old ones. |
| Taxes.TaxOptimization.Recalculate401k | src/components/TaxOptimization.tsx:170-191 | The three stored numbers are the 401(k) comparison for Katie's dollar contribution. |
| Insurance.DeductibleSavings | src/components/InsuranceOptimization.tsx:66-69 | The auto and the home savings: with a low deductible, savings + higher premium = current premium; otherwise no savings. |
| Insurance.EmergencyFundPercentage | src/components/InsuranceOptimization.tsx:63 | The bar's width is never above 100; it is fund / goal × 100 for a fund within a positive goal, and 100 at or above the goal; NaN exactly for 0/0. |
| Insurance.ReadyForHigherDeductibles | src/components/InsuranceOptimization.tsx:88-91 | Ready exactly when the fund is at least 10000. |
| Insurance.UmbrellaRecommended | src/components/InsuranceOptimization.tsx:80-85 | Recommended exactly when net worth exceeds 500000. |
| Insurance.BoatPremium | src/components/InsuranceOptimization.tsx:134 | The premium lies within half a dollar of 1.25% of the boat's value, and is never negative for a non-negative value. |
| Insurance.BoatPremiumExample | src/components/InsuranceOptimization.tsx:47 | The 80000 boat is quoted 1000. |
| Insurance.Rank | src/components/InsuranceOptimization.tsx:97-115 | The position of each kind of entry in the page's order: boat, life, deductible, umbrella, HSA. `Insurance.RankOfEntry` ties it to `Insurance.Entry`. |
| Insurance.Entry | src/components/InsuranceOptimization.tsx:98-114 | The entry the check of rank k pushes. The life entry quotes the current and the recommended cover, and the deductible entry quotes the total annual savings. |
| Insurance.BoatFires | src/components/InsuranceOptimization.tsx:97 | The boat check: no boat cover. |
| Insurance.LifeFires | src/components/InsuranceOptimization.tsx:101 | The life check: Katie's cover is below the recommendation. |
| Insurance.DeductibleFires | src/components/InsuranceOptimization.tsx:105 | The deductible check: ready for higher deductibles while still on the low one. |
| Insurance.UmbrellaFires | src/components/InsuranceOptimization.tsx:109 | The umbrella check: recommended and not held. |
| Insurance.HsaFires | src/components/InsuranceOptimization.tsx:113 | The HSA check: no HSA and a health deductible above 1500. |
| Insurance.Fires | src/components/InsuranceOptimization.tsx:97-115 | The condition of the check of rank k: no boat cover, life cover below the recommendation, ready with a low deductible, umbrella recommended and not held, no HSA with a deductible above 1500. |
| Insurance.PushIf | src/components/InsuranceOptimization.tsx:97-115 | `if (c) recommendations.push(x)`; `Insurance.PushedFacts` states what the pushes build. |
| Insurance.Pushed | src/components/InsuranceOptimization.tsx:95-115 | The list after the first n checks have pushed their entries; its properties are `Insurance.PushedFacts`. |
| Insurance.Recommendations | src/components/InsuranceOptimization.tsx:94-117 | All five checks in order; `Insurance.RecommendationsMembership` and `Insurance.RecommendationsEmpty` state its contents. |
| Insurance.RankOfEntry | src/components/InsuranceOptimization.tsx:94-117 | The entry of check k sits at position k of the fixed order. |
| Insurance.PushedFacts | src/components/InsuranceOptimization.tsx:94-117 | After the first n checks: at most n entries, in the fixed order; each comes from a check that fired and quotes the current amounts; every check that fired has an entry. |
| Insurance.RecommendationsMembership | src/components/InsuranceOptimization.tsx:94-117 | Each of the five entries is in the list exactly when its condition holds. |
| Insurance.RecommendationsEmpty | src/components/InsuranceOptimization.tsx:94-117 | The list is empty exactly when none of the five conditions holds. |
| Insurance.Optimized | src/components/InsuranceOptimization.tsx:145-171 | After "Apply All", the boat is insured, life cover is at least the recommendation, and an umbrella is held when recommended. The HSA is on when the deductible exceeds 1500, and the low deductible is off when the fund allows. Every other input is unchanged. |
| Insurance.OptimizedFields | src/components/InsuranceOptimization.tsx:145-171 | State that agrees with the old state except for the fields the button sets is `Optimized` of it. |
| Insurance.OptimizeClearsRecommendations | src/components/InsuranceOptimization.tsx:94-171 | After applying every recommendation the recomputed list is empty; when the list was already empty, the button changes nothing. |
| Insurance.InsuranceOptimization.TotalAnnualSavings | src/components/InsuranceOptimization.tsx:72 | The auto savings plus the home savings, each from `Insurance.DeductibleSavings`. |
| Insurance.InsuranceOptimization.Deps | src/components/InsuranceOptimization.tsx:118-129 | Without the low deductible, the savings in the dependency list is 0. |
| Insurance.InsuranceOptimization.constructor | src/components/InsuranceOptimization.tsx:16-60 | The initial state, with premiums 3, 3 and 2 from the two-argument `useState` calls. |
| Insurance.InsuranceOptimization.SetRecommendedLife | src/components/InsuranceOptimization.tsx:75-77 | Recommended life cover is five times 80000. |
| Insurance.InsuranceOptimization.UpdateUmbrella | src/components/InsuranceOptimization.tsx:80-85 | Sets the umbrella flag from net worth; quotes 400 when recommended and not yet held, otherwise keeps the old quote. |
| Insurance.InsuranceOptimization.UpdateDeductibleReadiness | src/components/InsuranceOptimization.tsx:88-91 | Sets readiness from the fund and stores the current total savings. |
| Insurance.InsuranceOptimization.UpdateRecommendations | src/components/InsuranceOptimization.tsx:94-129 | The five checks, pushed in order, produce `Recommendations` of the dependency list. |
| Insurance.InsuranceOptimization.CalculateBoatInsurance | src/components/InsuranceOptimization.tsx:132-137 | Quotes the boat premium and marks the boat insured. |
| Insurance.InsuranceOptimization.ChangeBoatValue | src/components/InsuranceOptimization.tsx:580-583 | Stores the new value and quotes the premium from it. |
| Insurance.InsuranceOptimization.ToggleBoatInsurance | src/components/InsuranceOptimization.tsx:561-568 | Switching on quotes the premium; switching off clears it. |
| Insurance.InsuranceOptimization.AddUmbrellaPolicy | src/components/InsuranceOptimization.tsx:140-142 | The umbrella policy is held. |
| Insurance.InsuranceOptimization.OptimizeInsurance | src/components/InsuranceOptimization.tsx:145-171 | The five fixes, field by field, each applied only where its check fires. |
| Calculator.PeriodsPerYear | src/pages/Calculator.tsx:27-29 | 12, 4, 2 or 1 periods; 12 exactly for "monthly". |
| Calculator.PeriodContribution | src/pages/Calculator.tsx:30-32 | Periods per year × contribution per period = twelve monthly contributions, whatever the frequency. |
| Calculator.PlanOf | src/pages/Calculator.tsx:24-32 | At least one period a year; twelve monthly contributions a year; no growth at 0%; growth of at least 1 at a non-negative rate. |
| Calculator.Grow | src/pages/Calculator.tsx:44-46 | k periods of growth, each followed by the period's contribution; `Calculator.GrowSplit`, `Calculator.GrowWithoutInterest` and `Calculator.GrowAtLeastPaidIn` state its properties. |
| Calculator.YearValue | src/pages/Calculator.tsx:39-46 | The value at the end of year y, each year compounding the previous year's end; `Calculator.YearValueIsFlat` relates it to one run of `Calculator.Grow`. |
| Calculator.Contributed | src/pages/Calculator.tsx:48 | The principal plus y years of contributions; `Calculator.ContributedStep` is its yearly step. |
| Calculator.Projected | src/pages/Calculator.tsx:58-61 | The value, contributions, interest and chart rows after t years; `Calculator.ReportIsLastPoint` ties them to the last row. |
| Calculator.ContributedStep | src/pages/Calculator.tsx:48 | Each year adds `pmt × n` to the running principal. |
| Calculator.PointAt | src/pages/Calculator.tsx:50-55 | The chart row for year y: the year, the value, the principal paid in, and their difference as the interest. |
| Calculator.Points | src/pages/Calculator.tsx:50-55 | One chart row per year, in order, row i being year i + 1. |
| Calculator.CompoundOneYear | src/pages/Calculator.tsx:44-46 | The inner loop compounds n periods, adding the contribution after each. |
| Calculator.WholeYears | src/pages/Calculator.tsx:39-58 | `yearlyData[years - 1]` exists after the loop exactly when `years` is a whole number of at least one. `Calculator.Simulate` succeeds exactly then. |
| Calculator.Simulate | src/pages/Calculator.tsx:23-61 | Succeeds exactly when `years` is a whole number of at least one. It then reports the value, contributions and interest after `years` years, with one chart row per year. |
| Calculator.ContributionsPerYear | src/pages/Calculator.tsx:30-48 | The total contributed is the principal plus twelve monthly contributions per year, for every frequency. |
| Calculator.ReportIsLastPoint | src/pages/Calculator.tsx:58-61 | The reported value, contributions and interest are the last chart row's; in every row, interest = value − principal. |
| Calculator.GrowSplit | src/pages/Calculator.tsx:44-46 | Compounding a + b periods is compounding a and then b. |
| Calculator.YearValueIsFlat | src/pages/Calculator.tsx:39-46 | The year-by-year simulation equals compounding y × n periods in one run. |
| Calculator.GrowWithoutInterest | src/pages/Calculator.tsx:44-46 | With no growth, each period just adds its contribution. |
| Calculator.ZeroRate | src/pages/Calculator.tsx:24-55 | At 0%, the value is what was paid in and no interest is earned. |
| Calculator.GrowAtLeastPaidIn | src/pages/Calculator.tsx:44-46 | With non-negative growth and contributions, compounding yields at least the start plus the contributions. |
| Calculator.ValueGrows | src/pages/Calculator.tsx:39-55 | With a non-negative rate, principal and contribution, the value never falls from one year to the next and interest is never negative. |
| Calculator.CompoundInterestCalculator.constructor | src/pages/Calculator.tsx:13-21 | The page's initial state. |
| Calculator.CompoundInterestCalculator.CalculateCompoundInterest | src/pages/Calculator.tsx:23-67 | On success it stores the simulation's four results. When the last row is missing the exception leaves them unchanged. |
| BabyFund.MonthlyGrowth | src/pages/Phase2.tsx:17 | No growth at 0%, and growth of at least 1 at a non-negative rate. |
| BabyFund.Balance | src/pages/Phase2.tsx:17 | The balance after m monthly deposits, each month growing the previous balance; `BabyFund.ZeroRateBalance` and `BabyFund.BalanceGrows` state its properties. |
| BabyFund.SampleAt | src/pages/Phase2.tsx:19-25 | The chart row for a month: the month, month / 12, the rounded balance and the 12500 goal. |
| BabyFund.Samples | src/pages/Phase2.tsx:19-25 | k samples, at months 6, 12, …, 6k in increasing order, each against the 12500 goal. |
| BabyFund.Months | src/pages/Phase2.tsx:16 | The loop's months are the whole months up to years × 12. |
| BabyFund.FundData | src/pages/Phase2.tsx:12-30 | One sample for every sixth month of the horizon; `BabyFund.WholeYearSamples` counts them. |
| BabyFund.GenerateBabyFundData | src/pages/Phase2.tsx:12-30 | The monthly loop returns one rounded sample for every sixth month of the horizon. |
| BabyFund.WholeYearSamples | src/pages/Phase2.tsx:12-30 | A whole number of years yields two samples a year, the last at month 12 × years. |
| BabyFund.ZeroRateBalance | src/pages/Phase2.tsx:17 | At 0%, the balance is the sum of the deposits. |
| BabyFund.BalanceGrows | src/pages/Phase2.tsx:17 | With a non-negative rate and deposit, the balance never falls and is at least the sum of the deposits. |
| BabyFund.Progress | src/pages/Phase2.tsx:36-37 | It throws exactly on an empty series. Otherwise it is never above 100, is 100 at or past the goal, and is balance / 125 below it. |
| BabyFund.ProgressDefined | src/pages/Phase2.tsx:12-37 | The progress bar has a value exactly when the horizon reaches month six. |
| BabyFund.TracksHaveProgress | src/pages/Phase2.tsx:32-37 | Both tracks the page shows have a progress value. |
| Budget.Total | src/pages/Phase1.tsx:38 | The sum of the rows' amounts; `Budget.TotalAppend`, `Budget.TotalOfAmounts` and `Budget.RowTotal` state its properties. |
| Budget.TotalAppend | src/pages/Phase1.tsx:38 | The total of two lists joined is the sum of their totals. |
| Budget.TotalOfAmounts | src/pages/Phase1.tsx:38 | The total depends only on the amounts. |
| Budget.Percent | src/pages/Phase1.tsx:44 | The whole-percent share against a non-zero total; NaN or a signed infinity against a zero total. |
| Budget.PercentInRange | src/pages/Phase1.tsx:44 | An amount within a positive total has a share between 0 and 100. |
| Budget.UpdatePercentages | src/pages/Phase1.tsx:40-46 | Every row keeps its fields, with its percentage recomputed against the list's own total. |
| Budget.UpdatePercentagesIdempotent | src/pages/Phase1.tsx:40-46 | Recomputing keeps the total, so doing it twice is the same as doing it once. |
| Budget.PercentagesInRange | src/pages/Phase1.tsx:40-46 | With a positive total and no negative amounts, every share is between 0 and 100. |
| Budget.AmountAtMostTotal | src/pages/Phase1.tsx:38 | With no negative amounts, each amount is at most the total, and the total is not negative. |
| Budget.WithAmount | src/pages/Phase1.tsx:66-69 | The rows with the id get the new amount; every other row, the length and the order stay. |
| Budget.RemoveUniqueRow | src/pages/Phase1.tsx:73-76 | Removing the only row with an id removes exactly that row and lowers the total by its amount. |
| Budget.RowTotal | src/pages/Phase1.tsx:38 | A row contributes exactly its amount to the total. |
| Budget.ChangeUniqueRow | src/pages/Phase1.tsx:66-71 | Changing the only row with an id changes that row alone and moves the total by the difference. |
| Budget.InitialItems | src/pages/Phase1.tsx:22-32 | The nine starting rows, with their ids, categories, amounts, colours and stated percentages. `Budget.InitialItemsConsistent` proves the percentages match the amounts. |
| Budget.InitialItemsConsistent | src/pages/Phase1.tsx:22-32 | The initial amounts total 10000, and the hard-coded percentages are exactly what `updatePercentages` computes. |
| Budget.BudgetTable.Consistent | src/pages/Phase1.tsx:40-46 | Every stored percentage is what `updatePercentages` would compute; each handler leaves the rows consistent. |
| Budget.BudgetTable.TotalBudget | src/pages/Phase1.tsx:38 | The total of the stored rows, recomputed on every render. |
| Budget.BudgetTable.constructor | src/pages/Phase1.tsx:22-36 | The initial rows, with consistent percentages and an empty form. |
| Budget.BudgetTable.AddBudgetItem | src/pages/Phase1.tsx:48-64 | Without a category or a positive amount, nothing changes. Otherwise the row is appended, the percentages are recomputed, the form is reset and the total rises by the amount. Consistent percentages stay consistent. |
| Budget.BudgetTable.UpdateBudgetItem | src/pages/Phase1.tsx:66-71 | The amounts change as `WithAmount` says, and the percentages become consistent. |
| Budget.BudgetTable.RemoveBudgetItem | src/pages/Phase1.tsx:73-76 | The rows are filtered as `Lists.Without` says, keyed on the row id, and the percentages become consistent. |
| Milestones.IsJsWhitespace | src/components/MilestoneTracker.tsx:28 | The characters `trim()` removes: the ECMAScript WhiteSpace and LineTerminator code points. |
| Milestones.TrimStart | src/components/MilestoneTracker.tsx:28 | Dropping leading whitespace leaves a suffix of the name, and every character dropped is whitespace. |
| Milestones.TrimEnd | src/components/MilestoneTracker.tsx:28 | Dropping trailing whitespace leaves a prefix of the name, and every character dropped is whitespace. |
| Milestones.Trim | src/components/MilestoneTracker.tsx:28 | `trim()` gives a slice of the name with only whitespace before and after it, and that slice is empty or starts and ends with a character that is not whitespace. These conditions fix the result uniquely. |
| Milestones.TrimStartBlank | src/components/MilestoneTracker.tsx:28 | Stripping leading whitespace leaves nothing exactly when every character is whitespace. |
| Milestones.TrimEndEmpty | src/components/MilestoneTracker.tsx:28 | The same for trailing whitespace. |
| Milestones.TrimStartShape | src/components/MilestoneTracker.tsx:28 | After stripping, the string is empty or starts with a non-whitespace character. |
| Milestones.TrimEndShape | src/components/MilestoneTracker.tsx:28 | After stripping trailing whitespace, the string is empty or ends with a non-whitespace character. |
| Milestones.TrimmedEmpty | src/components/MilestoneTracker.tsx:28 | `trim()` gives the empty string exactly when the name is all whitespace. |
| Milestones.CanAdd | src/components/MilestoneTracker.tsx:28 | The guard of addMilestone: a name that is not all whitespace (`Milestones.TrimmedEmpty`) and a non-zero target. |
| Milestones.Edited | src/components/MilestoneTracker.tsx:45-51 | The edit sets exactly the named field; the id and the other fields stay. |
| Milestones.ApplyEdit | src/components/MilestoneTracker.tsx:45-51 | The milestones with the id get the edit; the others, the length and the order stay. |
| Milestones.EditTwice | src/components/MilestoneTracker.tsx:45-51 | Editing the same field twice keeps only the second value. |
| Milestones.Progress | src/components/MilestoneTracker.tsx:93 | The bar is never NaN, +infinity or above 100. With a positive target it is the percentage, capped at 100. A zero target gives 0 when nothing is saved, 100 when something is, and −infinity when the amount is negative. |
| Milestones.MilestoneTracker.constructor | src/components/MilestoneTracker.tsx:21-25 | The given list and an empty form, with year 1. |
| Milestones.MilestoneTracker.AddMilestone | src/components/MilestoneTracker.tsx:27-43 | A blank name or a zero target changes nothing. Otherwise the form's milestone is appended and the form is reset. |
| Milestones.MilestoneTracker.UpdateMilestone | src/components/MilestoneTracker.tsx:45-51 | The list becomes `ApplyEdit` of the old list. |
| Milestones.MilestoneTracker.RemoveMilestone | src/components/MilestoneTracker.tsx:53-55 | The list becomes `Lists.Without` of the old list, keyed on the milestone id. |

## Left out

- Rendering is not modelled: JSX, the charts, `toLocaleString` and
  `toFixed`, the pie-chart labels and the tab state.
  A baby-fund sample's `year` is the exact month / 12, not the one-decimal
  string that `toFixed(1)` produces.
- IEEE-754 doubles are not modelled. The model computes with exact rationals,
  except where a division by zero would produce NaN or an infinity;
  rounding error and overflow are left out.
- `Number(e.target.value)` parsing is left out. Entered numbers arrive
  already converted, so an entered NaN is not modelled.
- Milestones.Edit has no `id` case. The page never edits a milestone's id
  through `updateMilestone`.
- React's effect scheduling and batching are left out. Each effect is a
  method that the caller runs once its dependencies have changed.
- The calculator's toast and the page's other display-only state are not
  modelled: insurance types, deductible amounts, the health premium, Chad's
  life insurance, and the Phase 2 descriptions and category figures.
- Clock and random values are method parameters: `Date.now()` ids and the
  random budget colour.
- Insurance.InsuranceOptimization.OptimizeInsurance states the new value of
  each field it sets. It does not state that the new dependency list equals
  `Insurance.Optimized` of the old one. That link is
  `Insurance.OptimizedFields`, whose requires are exactly those field values,
  and `Insurance.OptimizeClearsRecommendations` states what follows from it.
- Taxes.CalculateRothVsTraditional and Taxes.Compare401k use the
  deposit-by-deposit factor, which agrees with the page's closed form at every
  non-zero rate (`Taxes.ZeroRateFactor`). At a 0% return the page shows NaN
  instead (see Findings).
- Taxes.FutureValue counts the horizon in whole years (`years: nat`), and so do
  Taxes.TraditionalAfterTax, Taxes.RothFutureValue and the page's
  `yearsToRetirement` field. The input field also accepts fractional and
  negative years, which `Math.pow` takes as a non-integer or negative
  exponent. Those entries are not modelled, because a non-integer power of a
  rational has no exact rational value.
- Calculator.Simulate takes `years` as a real number, as the input field
  produces it. A value that is not a whole number, or is below one, makes the
  read of the last row throw, which the model reports as `TypeError`.

## Findings

| source | as written | input that shows it | evidently intended | confidence | as-written member | corrected member |
|---|---|---|---|---|---|---|
| src/components/TaxOptimization.tsx:176,186,224,232 | The future value is `monthlyContribution * (Math.pow(1 + monthlyRate, totalMonths) - 1) / monthlyRate`. It divides by the monthly rate. | An expected return of 0%: `monthlyRate` is 0, the factor is 0 / 0, and both bars and all three 401(k) figures are NaN. | With no return, the future value is the sum of the deposits: `monthlyContribution * totalMonths`. | not executed | Taxes.ZeroRateFactor (on Taxes.FutureValueFactorAsWritten) | Taxes.AnnuityClosedForm (on Taxes.AnnuityFactor) |
