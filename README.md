# UBI + tax policy sandbox: the calculation model

This project models the calculation core of a small policy sandbox in Dafny.
The sandbox is a toy economy of four income groups (Low, Lower-Middle,
Upper-Middle, High), each with a population share, an average annual income
and a marginal propensity to consume. The user sets five levers:

- a VAT rate on all consumption;
- a luxury-tax rate on luxury consumption;
- a flat income-tax rate;
- a monthly UBI amount;
- a target: Everyone, the bottom 50% or the bottom 20% by income.

The sandbox then works out:

- a population table (head count and basic and luxury consumption per group);
- per-person and per-group taxes, and the total revenue;
- the groups ordered by income, with the running population share;
- the groups eligible under the target, and the number of recipients;
- the annual cost of the UBI, and the budget surplus;
- each group's disposable income;
- a top/bottom inequality ratio.

Modules follow the script's sections:

- `Economy`: the income groups, the total adult population and the basic/luxury split of consumption.
- `Levers`: the policy levers, their defaults and their slider ranges.
- `Population`: the population table. It is built by the loop method `BuildTable` and specified by the function `PopulationTable`.
- `Taxes`: the tax columns and the revenue.
- `Ranking`: the sort by average income.
- `Ubi`: the cumulative share, the targeting rules, the recipients and the cost.
- `Outcomes`: disposable income, the inequality ratio and the whole run `Simulate`.
- `Scenarios`: the reference economy under the default levers and under some other settings, computed out exactly.

Representation choices:

- Money, rates and shares are `real`, so every figure is the exact value the formulas give.
- Head counts and the monthly UBI are `int`.
- `int(...)` on the head count is truncation toward zero (`Population.Trunc`).
- The undefined inequality ratio (not-a-number in the source) is `None`.

The code validates nothing: it computes with whatever the levers hold,
and the model does the same. Its functions take any policy, and only the
lemmas that need sign facts require them (`NonNegativeRates`,
`InSliderRange`). The target is a three-valued datatype, so an unknown
target cannot occur.

## Model

| member | source | states |
|---|---|---|
| Economy.ReferenceTable | app.py:16-23 | the reference economy has four well formed groups, their population shares add up to exactly 1, and average income rises strictly from Low to High |
| Economy.ConsumptionShares | app.py:61-70 | for every group the basic and luxury shares of consumption are between 0 and 1, the luxury share is no larger than the basic share, and the two add up to 1 |
| Economy.LuxuryShareRises | app.py:62-70 | a richer group spends a strictly larger share on luxury and a strictly smaller share on basics |
| Population.Trunc | app.py:52 | `int()` truncates toward zero: for non-negative x the result is the largest integer not above x, and for negative x the smallest not below it |
| Population.GroupPopBounds | app.py:52 | a group's head count is non-negative and at most TOTAL_POP × share, and it falls short of that by less than one adult |
| Population.BuildRow | app.py:52-82 | a row keeps the group's name, income and MPC, has the truncated head count, and its basic and luxury consumption add up to income × MPC |
| Population.BuildRowWellFormed | app.py:55-73 | a well formed group gives a row with non-negative head count, income and consumption |
| Population.PopulationTable | app.py:48-82 | the table has one row per group, in the groups' order, each the row built from that group |
| Population.BuildTable | app.py:48-82 | the loop that appends one row per group returns exactly the specified population table |
| Population.TableWellFormed | app.py:48-82 | well formed groups give a table of well formed rows |
| Population.PopTotalBounds | app.py:51-53 | the head counts add up to a number that is non-negative, at most TOTAL_POP × (sum of shares), and less than the number of groups below it |
| Population.ReferenceCounts | app.py:16-52 | the reference groups have 30000, 40000, 20000 and 10000 adults, 100000 in all, which is TOTAL_POP |
| Taxes.TaxColumns | app.py:90-100 | every row of the taxed table is `TaxRow` of that row: VAT = vat rate × (basic + luxury consumption), luxury tax = luxury rate × luxury consumption, income tax = income rate × income, their sum per person, and that sum × head count per group |
| Taxes.TaxComponentsNonNegative | app.py:90-100 | with non-negative rates, each tax on a well formed row is non-negative, the per-person total is the sum of the three taxes, and the group total is non-negative |
| Taxes.RevenueOfLastRow | app.py:102 | revenue is the revenue of all rows but the last plus the last row's group total |
| Taxes.ZeroRatesNoRevenue | app.py:90-102 | with all three rates at zero the revenue is zero, whatever the table |
| Taxes.GroupTaxMonotone | app.py:90-100 | raising any rate (the others raised or unchanged) never lowers what a well formed group pays |
| Taxes.RevenueMonotone | app.py:90-102 | raising any rate never lowers the revenue of a well formed table |
| Taxes.RevenueNonNegative | app.py:90-102 | with non-negative rates a well formed table raises non-negative revenue |
| Taxes.TaxColumnsReadRatesOnly | app.py:90-100 | the tax columns depend only on the three rates, not on the UBI amount or the target |
| Ranking.Insert | app.py:108 | inserting into a sorted table gives a sorted table one longer, with the same rows plus the new one, headed by the poorer of the new row and the old head |
| Ranking.SortByIncome | app.py:108 | the sorted table is in ascending order of average income and is a permutation of the input |
| Ranking.SortSortedIsIdentity | app.py:108 | a table already in ascending order of income is left unchanged |
| Ranking.RevenueOfConcat | app.py:102 | revenue adds up over concatenated tables |
| Ranking.RevenueSortInvariant | app.py:102-108 | sorting the table does not change its revenue |
| Ranking.SortMembers | app.py:108 | every row of the sorted table is a row of the input table |
| Ranking.SortSameRows | app.py:108 | the order the sort produces depends only on the population rows, not on the tax columns |
| Ubi.Rank | app.py:109-117 | row i of the ranked table is row i of the sorted table, with the head count of rows 0..i as its cumulative count, that count over TOTAL_POP as its share, and eligibility given by the target's rule `Eligible` on that share (always, share ≤ 0.50, share ≤ 0.20) |
| Ubi.PopSumPrefixMonotone | app.py:109 | with non-negative head counts a longer prefix never has a smaller running count |
| Ubi.CumShareNonDecreasing | app.py:109-110 | the cumulative population share never decreases down the sorted table |
| Ubi.EligiblePrefix | app.py:112-117 | if a group is eligible, so is every group before it: the eligible rows form a prefix |
| Ubi.TargetNesting | app.py:112-117 | bottom-20% eligible rows ⊆ bottom-50% eligible rows ⊆ Everyone's, and under Everyone every row is eligible |
| Ubi.RecipientsMonotone | app.py:119 | on equal head counts, making more rows eligible never lowers the recipient count, and that count is non-negative |
| Ubi.RecipientsNesting | app.py:112-119 | 0 ≤ recipients(bottom 20%) ≤ recipients(bottom 50%) ≤ recipients(Everyone) |
| Ubi.RecipientsAllEligible | app.py:119 | when every row is eligible the recipients are the whole table's head count |
| Ubi.RecipientsEveryone | app.py:113-119 | under Everyone the recipients are the whole table's head count |
| Ubi.RecipientsBelowThreshold | app.py:114-119 | the bottom-50% rule pays at most half of TOTAL_POP and the bottom-20% rule at most a fifth |
| Ubi.UbiCostMonotone | app.py:120-122 | for any non-negative recipient count, a higher monthly amount never costs less |
| Ubi.PopSumSortInvariant | app.py:108-109 | sorting does not change the total head count |
| Ubi.PopSumOfTaxColumns | app.py:90-100 | adding tax columns does not change the total head count |
| Ubi.RankSameRows | app.py:109-117 | the ranking columns depend only on the population rows |
| Outcomes.DisposableColumns | app.py:129-137 | row i is `Disburse` of ranked row i: the annual UBI if it is eligible and 0 otherwise, and disposable income = income − income tax − VAT − luxury tax + that UBI |
| Outcomes.InequalityRatio | app.py:139-142 | the ratio exists exactly when the poorest row's disposable income is positive, and then it times that income is the richest row's disposable income |
| Outcomes.Simulate | app.py:102-142 | one run: revenue is `Revenue` (the sum of the group totals), recipients is `Recipients` (the head counts of the eligible rows), annual UBI (`UbiAnnual`) is 12 × the monthly amount, cost (`TotalUbiCost`) is recipients × annual UBI, surplus is revenue − cost, and the ratio is taken over the outcome table |
| Outcomes.SimulateTable | app.py:102-119 | the outcome table is the taxed table sorted by income with the ranking columns; revenue is the sum over the taxed table and recipients the sum over the ranked table |
| Outcomes.SimulateSorted | app.py:102-108 | the outcome table is in ascending order of income, holds each taxed group exactly once, and the revenue is the sum of its group totals |
| Outcomes.SimulateDisposable | app.py:129-137 | each row receives 12 × monthly UBI exactly when eligible, carries its own tax columns, and its disposable income is income − per-person tax + UBI |
| Outcomes.SimulateWithTarget | app.py:108-119 | changing only the target re-ranks the same sorted table under the new target |
| Outcomes.SimulateRevenueMonotone | app.py:90-102 | raising rates never lowers the revenue of a run |
| Outcomes.SimulateRevenueNonNegative | app.py:90-102 | with non-negative rates a run raises non-negative revenue |
| Outcomes.SimulateRecipientsIgnoreRates | app.py:90-119 | the number of recipients depends only on the target, not on the rates or the UBI amount |
| Outcomes.SimulateCostMonotone | app.py:120-122 | with the same target, a higher monthly amount never costs less |
| Outcomes.SimulateEligibilityNesting | app.py:112-117 | a group eligible under the bottom-20% rule is eligible under the bottom-50% rule, and every group is eligible under Everyone |
| Outcomes.SimulateRecipientsNesting | app.py:112-119 | recipients under the bottom-20% rule ≤ under the bottom-50% rule ≤ under Everyone, all non-negative |
| Outcomes.SimulateEveryonePaid | app.py:113-119 | under Everyone the recipients are every adult of the population table |
| Outcomes.SimulateRecipientsCap | app.py:114-119 | recipients are non-negative; bottom 50% pays at most half of TOTAL_POP, bottom 20% at most a fifth |
| Outcomes.SimulateRecipientsBounds | app.py:112-119 | whatever the target, recipients are between 0 and the population table's head count |
| Outcomes.SimulateCostBounds | app.py:120-122 | with levers in the slider ranges and shares summing to at most 1, the UBI cost is between 0 and TOTAL_POP × 12 × 2000 |
| Outcomes.SimulatePoorestFirst | app.py:108-117 | a group strictly poorer than an eligible group is eligible too |
| Outcomes.SimulateZeroPolicy | app.py:90-142 | with no taxes and no UBI: revenue, cost and surplus are 0, and every group's disposable income equals its income |
| Scenarios.ReferencePopulation | app.py:48-82 | the reference population table row by row: head counts 30000/40000/20000/10000 with basic and luxury consumption 18620/380, 32300/1700, 54000/6000, 96000/24000 |
| Scenarios.ReferenceSorted | app.py:108 | the reference taxed table is already in ascending order, so the sort leaves it as it is |
| Scenarios.ReferencePrefixPops | app.py:109 | the running head counts of the reference table are 30000, 70000, 90000 and 100000 |
| Scenarios.RankedRecipients | app.py:112-119 | on the reference table, Everyone pays 100000 adults, bottom 50% pays the Low group only (30000), and bottom 20% pays nobody |
| Scenarios.ReferenceRecipients | app.py:112-119 | the same recipient counts for a full run, under any rates and UBI amount |
| Scenarios.DefaultTaxes | app.py:90-102 | under the default levers the per-person taxes are 4938, 9570, 18600 and 44400, and revenue is 1346940000 |
| Scenarios.DefaultSummary | app.py:102-124 | default run: revenue 1346940000, 100000 recipients, 9600 a year each, cost 960000000, surplus 386940000 |
| Scenarios.DefaultDisposable | app.py:129-137 | default run: disposable incomes 24662, 40030, 71000 and 165200 |
| Scenarios.DefaultRatio | app.py:139-142 | default run: inequality ratio 165200 / 24662 |
| Scenarios.BottomHalfSummary | app.py:114-124 | default rates with the bottom-50% target: only Low is eligible, 30000 recipients, cost 288000000, surplus 1058940000 |
| Scenarios.BottomFifthSummary | app.py:116-124 | default rates with the bottom-20% target: nobody is eligible, cost 0, surplus equals revenue 1346940000 |
| Scenarios.MaximumUbiDeficit | app.py:120-124 | default levers with the largest UBI (2000 a month): cost 2400000000, deficit 1053060000 |
| Scenarios.NoRatioWhenPoorestHaveNothing | app.py:140-142 | with a 100% income tax and no UBI the poorest group keeps nothing and the ratio is unavailable |

## Left out

- The Streamlit user interface is not modelled: the page set-up and titles (app.py:1-11), the sidebar widgets (app.py:28-42) and the results display (app.py:144 onwards). The levers are plain inputs of `Simulate`. Their slider ranges appear only as the `InSliderRange` predicate.
- The display's percentage delta for the surplus (app.py:151-152, guarded by revenue > 0) is presentation only and is not modelled.
- pandas and numpy are not modelled as libraries. Each column operation becomes the row-by-row function it computes.
- IEEE floating point is not modelled: every real figure is exact. Rounding in the source's float arithmetic is not captured. This matters where a share times TOTAL_POP would land just below an integer before `int()` truncates it. For the reference shares the float products are exact.
- The running total `cumulative_pop` (app.py:49-53) is never read, so it is not modelled.
- Invalid input is not rejected, because the code does not reject it (see above).
- Ranking.SortByIncome: the source's `sort_values` uses an unstable quicksort by default. The model is an insertion sort, so among groups of equal income the model fixes one order where the source leaves it open. No contract speaks about the order of equal-income rows. The reference data has no ties.
- Outcomes.Simulate: requires at least one group. With no groups the source raises: the DataFrame built at app.py:84 has no columns, so `df["basic_cons"]` at app.py:90 raises a KeyError, before the `iloc[0]` at app.py:140 is reached. The model does not represent that failure.
- Outcomes.SimulateCostBounds: assumes the levers lie in the slider ranges and the shares add up to at most 1, which the reference economy meets. The source promises no bound outside them.
