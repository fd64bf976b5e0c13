# PRIME retirement calculator — Dafny model of the projection core

The PRIME calculator projects a household's retirement income year by year on two
paths:

- the **current** path, on the household's own accounts;
- the **PRIME** path, where annuity premiums are taken out of the referenced accounts
  and the annuities pay a flat annual amount.

This project models the calculation engine:

- the aggregation of accounts by category and by owner, with balance-weighted growth and
  distribution rates;
- the annuity-premium deductions;
- the future values at retirement;
- the yearly rows of `runProjection`: earned income, Social Security, pensions,
  annuities, rentals, PRIME payouts, per-owner account draws, totals, the income goal
  and the guaranteed share;
- the payout and validity rules of a PRIME option;
- survivor income after the client's death;
- the Monte Carlo success rate, with the random source passed in as a parameter;
- the post-tax view and the current-balance totals of the income summary table.

Money is `real` and ages are `int`. Each imperative loop of the source is a `method` with
a `while` or `for` loop, proved equal to a specification function. The
properties the calculator promises are lemmas about those functions.

Modules follow the source:

- `Money`: the `COLA` helper, powers and `Math.max`.
- `Types`: the data of `lib/types.ts` and `lib/projection-types.ts`.
- `PrimeUtils`: `lib/prime-utils.ts`.
- `Accounts`: lines 23-174 of `lib/projection.ts`.
- `Income`: the income streams of the year loop.
- `Projection`: `runProjection`.
- `Survivor`: `lib/survivor-income.ts`.
- `MonteCarlo`: `lib/monte-carlo.ts`.
- `IncomeSummary`: `components/CurrentIncomeSummary.tsx`.

Where the code and its comments disagree, the model follows the code:

- The comment at `lib/projection-types.ts:44` says the future values at retirement come
  "before any PRIME premium deduction". `futureValuesAtRetirement`
  (`lib/projection.ts:164-165`) deducts the premiums on the PRIME path, and so does the
  model (`Projection.PathsAndPremiums`).
- `isPrimeOptionValid` is never called by the engine. The projection counts an option's
  payout whenever it is positive (`lib/projection.ts:293`), even when the premium is
  not positive (`Income.PrimePaysWithoutPremium`). A premium is deducted whenever it is
  positive (`lib/projection.ts:93`, `109`).
- `getSurvivorPensionAnnuityRental` reads the plan COLA (`lib/survivor-income.ts:23`)
  and never uses it. Each stream compounds with its own COLA.
- The spouse's account buckets compound for the client's years to retirement
  (`lib/projection.ts:124`), not the spouse's (`Projection.SpouseBucketsUseClientYears`).

## Model

| member | source | states |
|---|---|---|
| Money.Cola | lib/projection.ts:20-21 | `value × (1 + colaPct/100)^years`: the amount itself in year 0, and never less than the amount for a non-negative amount at a non-negative rate |
| Money.PowAtLeastOne | lib/projection.ts:20-21 | a factor of at least 1 compounds to at least 1 |
| Money.ColaNonNegative | lib/projection.ts:20-21 | a non-negative amount stays non-negative under any COLA of at least -100% |
| Money.ColaFlatAtZeroRate | lib/projection.ts:20-21 | with a 0% COLA the amount never changes |
| Money.ColaNextYear | lib/projection.ts:20-21 | one more year multiplies the amount by exactly one COLA factor |
| Money.PowNonNegative | lib/projection.ts:20-21 | a power of a non-negative base is non-negative |
| Money.PowOne | lib/projection.ts:20-21 | every power of 1 is 1 |
| Money.PowSucc | lib/projection.ts:20-21 | raising the exponent by one multiplies by the base |
| PrimeUtils.AnnualPayout | lib/prime-utils.ts:8-13 | a MYGA option with a positive rate pays premium × rate / 100; every other option pays its payout amount, or 0 without one |
| PrimeUtils.IsValid | lib/prime-utils.ts:16-19 | an option is valid exactly when its premium is positive and it either earns a positive MYGA rate on it or has a positive flat payout |
| PrimeUtils.ValidIffPositivePremiumAndPayout | lib/prime-utils.ts:16-19 | an option is valid exactly when its premium and its effective payout are both positive |
| PrimeUtils.ValidityConsequences | lib/prime-utils.ts:16-19 | a valid option pays something; an option without a positive premium is never valid |
| PrimeUtils.MygaWithoutRateUsesFlatPayout | lib/prime-utils.ts:9-12 | a MYGA option with no rate, or a non-positive one, falls back to its flat payout |
| PrimeUtils.PayoutIndependentOfTimingAndOwner | lib/prime-utils.ts:8-13 | the payout does not depend on the start age, the owner or the referenced account |
| PrimeUtils.MygaPayoutBoundedByPremium | lib/prime-utils.ts:9-10 | a MYGA payout at a rate of at most 100% lies between 0 and the premium |
| PrimeUtils.ValidityExamples | lib/prime-utils.ts:8-19 | a zero-premium option is invalid; a 10000 MYGA at 5% pays 500 and is valid |
| Accounts.AddToTypeBucket | lib/projection.ts:35-40 | adding to an account's category changes that category's cell by the value and no other |
| Accounts.SumByType | lib/projection.ts:32-40 | the first pass yields, per category, the totals of balances, contributions and balance × rate |
| Accounts.AggregateAccountsByType | lib/projection.ts:24-50 | every category holds its total balance, total contributions and weighted growth and distribution rates; the rates are 0 without a positive balance |
| Accounts.AddToOwnerBucket | lib/projection.ts:68-74 | adding to an account's (category, owner) cell changes that cell by the value and no other; an owner other than the spouse counts as the client |
| Accounts.SumByTypeAndOwner | lib/projection.ts:67-74 | the first pass yields, per (category, owner), the totals of balances, contributions and weighted numerators |
| Accounts.AggregateByTypeAndOwner | lib/projection.ts:53-85 | every (category, owner) cell holds that owner's totals and weighted rates, 0 rates without a positive balance |
| Accounts.TotalSplitsByOwner | lib/projection.ts:53-85 | each category total is its client part plus its spouse part |
| Accounts.CategoryIsSumOfOwners | lib/projection.ts:24-85 | the per-category balance and contributions are the sums of the two owners' |
| Accounts.TotalWithoutMatches | lib/projection.ts:24-50 | a category with no accounts totals 0 |
| Accounts.SpreadIdentity | lib/projection.ts:38-46 | the weighted numerator is c × total balance plus the spread of the rates about c |
| Accounts.SpreadAboveLow | lib/projection.ts:38-46 | with non-negative balances and every rate at least lo, the spread about lo is non-negative |
| Accounts.SpreadBelowHigh | lib/projection.ts:38-46 | with non-negative balances and every rate at most hi, the spread about hi is not positive |
| Accounts.WeightedTotalWithin | lib/projection.ts:38-46 | the weighted numerator lies between lo and hi times the total balance |
| Accounts.WeightedRateWithin | lib/projection.ts:44-47 | a weighted rate lies between the smallest and the largest rate of its accounts, and is 0 without a positive balance |
| Accounts.WeightedRateExample | lib/projection.ts:10-11 | 100 at 4% and 300 at 8% aggregate to 7% |
| Accounts.PremiumTotalWithoutMatches | lib/projection.ts:88-115 | with no deducting option the premium total of a key is 0 |
| Accounts.PremiumTotalNonNegative | lib/projection.ts:93 | only positive premiums are added, so every total is non-negative |
| Accounts.PremiumTotalSplitsByOwner | lib/projection.ts:88-115 | the per-category deduction is the client deduction plus the spouse deduction |
| Accounts.JointPremiumChargedToClient | lib/projection.ts:94-95 | a joint option's premium is charged to the client's bucket and not to the spouse's |
| Accounts.PrimeDeductionsByType | lib/projection.ts:105-115 | no entries off the PRIME path; a category has an entry exactly when some option deducts from it, holding the sum of those premiums |
| Accounts.PrimeDeductionsByTypeAndOwner | lib/projection.ts:88-102 | the same per (category, owner) key, with joint options charged to the client |
| Accounts.Accumulate | lib/projection.ts:168-170 | `years` steps of (balance + contribution) × (1 + growth) |
| Accounts.FutureValuesAtRetirement | lib/projection.ts:146-174 | each category's balance, less its deduction when positive and floored at 0, compounded for max(0, retirement - current age) years |
| Accounts.FutureValuesByTypeAndOwner | lib/projection.ts:117-144 | the same per (category, owner), on the client's ages |
| Accounts.CompoundWithoutContribution | lib/projection.ts:168-170 | without contributions compounding is balance × (1 + g)^years |
| Accounts.CompoundNonNegative | lib/projection.ts:168-170 | non-negative money at a growth of at least -100% stays non-negative |
| Accounts.CompoundOneMoreYear | lib/projection.ts:168-170 | one more year is one more growth step |
| Accounts.FutureValueStart | lib/projection.ts:163-165 | with no years to go the value is the floored balance less a positive deduction, or the balance |
| Income.CollectStreams | lib/projection.ts:247-287 | a pension, annuity or rental loop returns the sum of every paying stream's COLA amount, with separate client and spouse sums |
| Income.StreamsSplitByOwner | lib/projection.ts:255-259 | every paying stream goes to exactly one of the client and spouse sums |
| Income.StreamsNonNegative | lib/projection.ts:247-287 | non-negative streams give non-negative totals |
| Income.StreamGating | lib/projection.ts:250-261 | a stream pays nothing before its start age or after its end age; it pays amount × 12 in its first year and grows by its COLA each year after |
| Income.SocialSecurityIncome | lib/projection.ts:229-236 | a benefit pays nothing before its start age, and from it on at least twelve monthly benefits when the benefit and its COLA are non-negative |
| Income.SocialSecurityRules | lib/projection.ts:229-236 | Social Security is 0 before the start age, monthly × 12 at it, and grows by its COLA each year |
| Income.SumSideIncome | lib/projection.ts:223-226 | the side-income loop adds the COLA amount of every entry whose age range contains the client's age |
| Income.SideIncomeOutsideRanges | lib/projection.ts:223-226 | outside every entry's range there is no side income |
| Income.SideAmountAtStart | lib/projection.ts:225 | an entry starting this plan year pays its uncompounded amount |
| Income.EarnedAfterStopping | lib/projection.ts:217-226 | once the client stops working, only side income remains; a stopped or absent spouse earns 0 |
| Income.PrimeIncome | lib/projection.ts:289-295 | the sum of the payouts of the options whose owner has reached the start age; only positive payouts count, so it is never negative |
| Income.PrimeIncomeMonotone | lib/projection.ts:289-295 | PRIME income never falls as the ages rise |
| Income.PrimeIncomeFlatOnceStarted | lib/projection.ts:289-295 | once every option has started, the PRIME income stays the same flat amount |
| Income.PrimePaysWithoutPremium | lib/projection.ts:289-295 | an option without a positive premium is invalid, yet its positive payout is counted |
| Income.JointOptionUsesClientAge | lib/projection.ts:292 | a joint option pays from the client's age on |
| Projection.OwnerSums | lib/projection.ts:376-380 | each category total is its client plus its spouse entry |
| Projection.YearRow | lib/projection.ts:213-445 | one loop body yields that year's row and the next year's balances |
| Projection.PrepareEngine | lib/projection.ts:185-191 | the deductions, the future values and the per-owner aggregates computed before the loop, on the chosen path |
| Projection.ProjectRows | lib/projection.ts:193-445 | the loop yields one row per plan year, each opened with the previous year's closing balances |
| Projection.AppendYear | lib/projection.ts:213-445 | one pass of the loop keeps the loop state: the rows of the years so far, and the balances that open the next year |
| Projection.RowsStep | lib/projection.ts:213-445 | pushing a year's row and carrying its closing balances extends the rows and balances of the years so far by that one year |
| Projection.RunProjection | lib/projection.ts:177-452 | the result is the rows, the future values at retirement and the retirement age of the path |
| Projection.RowsShape | lib/projection.ts:213-445 | there are n rows and row i is plan year i with that year's balances; this holds by the definition of the rows |
| Projection.RowFields | lib/projection.ts:213-215 | a row carries its year index, the client's age that year and the spouse's age, or 0 without a spouse |
| Projection.ProjectionRowsAndAges | lib/projection.ts:213-215 | one row per age from the current age through the plan age, none when the plan age is earlier; row i has client age current + i and spouse age spouse + i, or 0 without a spouse |
| Projection.DrawRules | lib/projection.ts:332-362 | no draws before retirement; each category's draw is the client plus the spouse draw; a bucket draws balance × its owner's distribution rate |
| Projection.ProjectionDraws | lib/projection.ts:347-362 | in every row before retirement all draws are 0, and every category draw sums its two owners' |
| Projection.NextBalancesFloor | lib/projection.ts:364-381 | after a retired year every bucket is at least 0 and the totals are the owner sums; before retirement nothing changes |
| Projection.BalancesStayNonNegative | lib/projection.ts:364-374 | the owner buckets never go negative when they start non-negative |
| Projection.TotalsAreOwnerSumsAfterRetirement | lib/projection.ts:376-380 | after a retired year the category balances are the owner sums |
| Projection.BalancesBeforeRetirement | lib/projection.ts:194-209 | until retirement the balances are the future values at retirement |
| Projection.RowTotals | lib/projection.ts:401-419 | the annual total is the sum of all streams and draws, the monthly total is a twelfth of it, guaranteed dollars exclude earned income and draws, and the owner splits add up |
| Projection.GuaranteedPctBounds | lib/projection.ts:419 | guaranteed % is 0 without a positive total, and lies in [0, 100] for non-negative streams |
| Projection.TargetGoalGrowth | lib/projection.ts:415-416 | the goal starts at monthly goal × 12 and grows by the inflation rate each year |
| Projection.PathsAndPremiums | lib/projection.ts:185-211 | the current path has no PRIME income and undeducted future values; the PRIME path deducts each category's premiums |
| Projection.SpouseBucketsUseClientYears | lib/projection.ts:117-124 | the spouse buckets do not depend on the spouse's data and compound for the client's years |
| Projection.FirstRowPortfolio | lib/projection.ts:194-198 | the first row's opening portfolio is the sum of the future values at retirement |
| Survivor.AddSurvivorShares | lib/survivor-income.ts:30-62 | the pension and annuity loops add every paying source in full, or at its survivor % for a non-spouse source after the death |
| Survivor.AddRentals | lib/survivor-income.ts:64-73 | the rental loop adds every paying rental in full |
| Survivor.GetSurvivorPensionAnnuityRental | lib/survivor-income.ts:16-76 | the total is the survivor-adjusted pensions and annuities plus the rentals, with a missing spouse age taken as the client's |
| Survivor.SurvivorSumBeforeDeath | lib/survivor-income.ts:30-62 | before the death every source pays its projection amount |
| Survivor.BeforeDeathMatchesProjection | lib/survivor-income.ts:16-76 | before the death the survivor total of a row's ages equals the row's pension + other annuities + rental |
| Survivor.SurvivorShareBounds | lib/survivor-income.ts:40-44 | with survivor % in [0, 100] a source pays between 0 and its pre-death amount |
| Survivor.SurvivorSumBounds | lib/survivor-income.ts:30-62 | the post-death sum is at most the pre-death sum |
| Survivor.PostDeathAtMostPreDeath | lib/survivor-income.ts:26-76 | at the same ages, income after the death never exceeds income before it |
| Survivor.SpouseShareUnaffected | lib/survivor-income.ts:37-39 | a spouse-owned source pays its full amount, at the spouse's age, whether or not the client has died |
| Survivor.SurvivorSumSplitsByOwner | lib/survivor-income.ts:30-62 | in any household the survivor sum is the spouse-owned sources in full plus the other sources, scaled only after the death |
| Survivor.NoOtherSources | lib/survivor-income.ts:30-62 | with only spouse-owned sources the survivor-scaled part is 0 |
| Survivor.SpouseOwnedUnaffected | lib/survivor-income.ts:38-39 | a list of spouse-owned sources sums to the same total before and after the client's death |
| Survivor.MissingSpouseAgeIsClientAge | lib/survivor-income.ts:28 | for every input, leaving out the spouse age is the same as passing the client's age |
| Survivor.DeathOnlyReducesClientSources | lib/survivor-income.ts:23-28 | with only spouse-owned pensions and annuities, neither the death age nor the plan COLA changes the total |
| Survivor.MixedHouseholdExample | lib/survivor-income.ts:30-45 | a 1000/month client pension at 50% and a 500/month spouse pension pay 12000 after the death and 18000 before; the spouse's 6000 is unchanged |
| Survivor.HalfSurvivorExample | lib/survivor-income.ts:40-41 | a 1000/month pension at 50% survivor pays 6000 after the death and 12000 before |
| MonteCarlo.Need | lib/monte-carlo.ts:27-31 | a year's need is max(0, goal - guaranteed) |
| MonteCarlo.ReturnIndex | lib/monte-carlo.ts:51 | floor(u × n) is a valid index for u in [0, 1) |
| MonteCarlo.FilterRetirementRows | lib/monte-carlo.ts:14-16 | keeps the rows at or after the retirement age, in order |
| MonteCarlo.SimulatePath | lib/monte-carlo.ts:42-58 | a path succeeds exactly when every year's balance covers the need and stays non-negative after the drawn return |
| MonteCarlo.RunMonteCarlo | lib/monte-carlo.ts:9-64 | the result counts the successful paths over `numSimulations` paths, 1000 by default; with no retirement rows or no returns it is 0% with every path failed |
| MonteCarlo.DefaultThousandPaths | lib/monte-carlo.ts:12 | without a simulation count, successes and failures add up to 1000 and the rate is a percentage |
| MonteCarlo.RetirementRowsMembership | lib/monte-carlo.ts:14-16 | a row is kept exactly when it is in the projection at or after the retirement age |
| MonteCarlo.NeedsNonNegative | lib/monte-carlo.ts:27-31 | one need per retirement row, each non-negative and at least goal - guaranteed |
| MonteCarlo.CountSuccessesBounded | lib/monte-carlo.ts:41-59 | at most k of k paths succeed |
| MonteCarlo.ResultCounts | lib/monte-carlo.ts:9-64 | successes plus failures are the simulation count; the rate is in [0, 100] for a positive count; the early returns give 0% |
| MonteCarlo.BalanceStaysNonNegative | lib/monte-carlo.ts:44-57 | with no needs and returns of at least -100% the balance never goes negative |
| MonteCarlo.NoNeedsAlwaysSucceeds | lib/monte-carlo.ts:44-57 | such a path always succeeds |
| MonteCarlo.AllSucceedCount | lib/monte-carlo.ts:41-59 | then every one of k paths succeeds |
| MonteCarlo.NoNeedsFullSuccess | lib/monte-carlo.ts:9-64 | when guaranteed income meets every goal and returns cannot ruin, the success rate is 100% |
| MonteCarlo.FirstFailureUpTo | lib/monte-carlo.ts:44-57 | a failing year implies a first failing year no later |
| MonteCarlo.FirstFailingYear | lib/monte-carlo.ts:41-59 | a failed path starts from the total future value and has a first year whose checks fail |
| IncomeSummary.ApplyTax | components/CurrentIncomeSummary.tsx:10-53 | the post-tax total is the sum of the four taxed groups, guaranteed dollars are the taxed Social Security plus the taxed pension/other group, the monthly total is a twelfth, and guaranteed % is their ratio, or 0 without a positive total |
| IncomeSummary.ZeroTaxIsIdentity | components/CurrentIncomeSummary.tsx:10-53 | at 0% tax the post-tax view repeats the row's totals, guaranteed dollars and guaranteed % |
| IncomeSummary.UniformRateScalesTotals | components/CurrentIncomeSummary.tsx:27-41 | one rate for every stream takes exactly that share off the annual total and the guaranteed dollars |
| IncomeSummary.UniformRateScalesRow | components/CurrentIncomeSummary.tsx:27-41 | the same for any row whose annual total and guaranteed dollars are the sums of its streams |
| IncomeSummary.TaxNeverRaisesTotal | components/CurrentIncomeSummary.tsx:27-42 | with rates in [0, 100] the post-tax total lies between 0 and the pre-tax total, and guaranteed dollars do not exceed it |
| IncomeSummary.SelectTaxRates | components/CurrentIncomeSummary.tsx:86-100 | the pension/other rate is 0 or the rate of the first pension, the first annuity or the first rental |
| IncomeSummary.TaxRateSelection | components/CurrentIncomeSummary.tsx:86-100 | the SS rate is the mean of the two SS rates; the pension/other rate is the first present among the first pension's, annuity's and rental's, else 0 |
| IncomeSummary.AccountsCurrentByType | components/CurrentIncomeSummary.tsx:137-152 | each category's current total is the sum of its accounts' balances |
| IncomeSummary.CurrentByType | components/CurrentIncomeSummary.tsx:137-152 | the summary's category balances, linked to the engine's aggregate balance; the link holds by definition, and the loop contract of AccountsCurrentByType carries the content |
| IncomeSummary.AccountsCurrentTotal | components/CurrentIncomeSummary.tsx:154-159 | the five category totals added up; with non-negative categories, each one lies between 0 and the total |
| IncomeSummary.CurrentTotalIsAllBalances | components/CurrentIncomeSummary.tsx:154-159 | the current total is the sum of all account balances |

## Left out

- The React components, `CalculatorContext`, `useProjection` and every display-only value
  of the summary table: formatting, display modes, shortfall and surplus columns, the
  annuity add-back at `components/CurrentIncomeSummary.tsx:116-135`. They render values
  and compute nothing the engine relies on.
- IEEE-754 floating point. Money is exact `real`, so rounding, `NaN` from bad input and
  overflow are not modelled. The one `NaN` the code produces on valid input, a success
  rate of 0/0 with zero simulations, is modelled as `MonteCarlo.Percent.NaN`.
- `Math.random` is a parameter `draw(sim, year)` assumed to lie in [0, 1). The model
  proves nothing about the distribution of the success rate.
- The per-category rates `agg` computed at `lib/projection.ts:189` and `300-309` are
  never read by the engine, so the model does not compute them.
- `acc.balance || 0` and `row.guaranteedFromPrime ?? 0` guard against missing numbers.
  In the model every amount is present, so these guards are the identity.
- Field values arrive already parsed. The TypeScript types' optional fields become
  `Option`s where the code reads them with `??`.
- There is no survivor Social Security rule: `lib/survivor-income.ts` adds pensions,
  annuities and rentals only, so it has no rule keeping the larger of two benefits.
- There is no survivor Monte Carlo and no reduced survivor goal: `lib/monte-carlo.ts`
  takes each year's goal as it is from the projection rows and has only the one
  simulation.
