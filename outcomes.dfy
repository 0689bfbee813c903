/** Disposable income, the top/bottom inequality ratio and the whole
    policy simulation from levers to outcome table and summary figures. */
module Outcomes {
  import opened Economy
  import opened Levers
  import opened Population
  import opened Taxes
  import opened Ranking
  import opened Ubi

  datatype Option<T> = None | Some(value: T)

  /** A ranked row with the UBI each member receives and what each member
      has left after taxes and UBI. */
  datatype OutcomeRow = OutcomeRow(ranked: RankedRow, ubiPerPerson: real, disposableIncome: real)

  function TaxedOf(o: OutcomeRow): TaxedRow {
    o.ranked.taxed
  }

  /** The UBI and disposable income columns of one ranked row. */
  function Disburse(ubiAnnual: int, r: RankedRow): OutcomeRow {
    var ubi := if r.eligible then ubiAnnual as real else 0.0;
    var t := r.taxed;
    OutcomeRow(r, ubi, t.row.avgIncome - t.incomeTax - t.vatTax - t.luxTax + ubi)
  }

  /** The UBI and disposable income columns of a ranked table, row by row. */
  function DisposableColumns(ubiAnnual: int, rs: seq<RankedRow>): (o: seq<OutcomeRow>)
    ensures |o| == |rs|
    ensures forall i :: 0 <= i < |rs| ==> o[i] == Disburse(ubiAnnual, rs[i])
  {
    if rs == [] then [] else DisposableColumns(ubiAnnual, rs[..|rs| - 1]) + [Disburse(ubiAnnual, rs[|rs| - 1])]
  }

  /** Disposable income of the last row over that of the first, available
      only when the first row's disposable income is positive. */
  function InequalityRatio(rows: seq<OutcomeRow>): (ratio: Option<real>)
    requires |rows| > 0
    ensures ratio.Some? <==> 0.0 < rows[0].disposableIncome
    ensures ratio.Some? ==> ratio.value * rows[0].disposableIncome == rows[|rows| - 1].disposableIncome
  {
    var low := rows[0].disposableIncome;
    var high := rows[|rows| - 1].disposableIncome;
    if 0.0 < low then Some(high / low) else None
  }

  /** The result of one simulation: the income-ordered outcome table and the
      summary figures. */
  datatype Outcome = Outcome(
    rows: seq<OutcomeRow>,
    totalTaxRevenue: real,
    ubiRecipients: int,
    ubiAnnualPerPerson: int,
    totalUbiCost: int,
    budgetSurplus: real,
    inequalityRatio: Option<real>)

  /** The taxed rows of an outcome table, in its order. */
  function TaxedRows(rows: seq<OutcomeRow>): (t: seq<TaxedRow>)
    ensures |t| == |rows|
    ensures forall i :: 0 <= i < |rows| ==> t[i] == TaxedOf(rows[i])
  {
    if rows == [] then [] else TaxedRows(rows[..|rows| - 1]) + [TaxedOf(rows[|rows| - 1])]
  }

  /** The ranked rows of an outcome table, in its order. */
  function RankedRows(rows: seq<OutcomeRow>): (r: seq<RankedRow>)
    ensures |r| == |rows|
    ensures forall i :: 0 <= i < |rows| ==> r[i] == rows[i].ranked
  {
    if rows == [] then [] else RankedRows(rows[..|rows| - 1]) + [rows[|rows| - 1].ranked]
  }

  /** The taxed table of a policy: population rows and tax columns, in the
      groups' order. */
  function TaxedTable(p: Policy, groups: seq<IncomeGroup>): (t: seq<TaxedRow>)
    ensures |t| == |groups|
  {
    TaxColumns(p, PopulationTable(groups))
  }

  /** The ranked table of a policy, in ascending order of income. */
  function RankedTable(p: Policy, groups: seq<IncomeGroup>): (r: seq<RankedRow>)
    ensures |r| == |groups|
  {
    Rank(p.target, SortByIncome(TaxedTable(p, groups)))
  }

  /** One run of the simulation. */
  function Simulate(p: Policy, groups: seq<IncomeGroup>): (o: Outcome)
    requires |groups| > 0
    ensures |o.rows| == |groups|
    ensures o.ubiAnnualPerPerson == 12 * p.ubiMonthly
    ensures o.totalUbiCost == o.ubiRecipients * o.ubiAnnualPerPerson
    ensures o.budgetSurplus == o.totalTaxRevenue - o.totalUbiCost as real
    ensures o.inequalityRatio == InequalityRatio(o.rows)
  {
    var taxed := TaxedTable(p, groups);
    var revenue := Revenue(taxed);
    var ranked := RankedTable(p, groups);
    var recipients := Recipients(ranked);
    var annual := UbiAnnual(p);
    var cost := TotalUbiCost(recipients, p);
    var rows := DisposableColumns(annual, ranked);
    Outcome(rows, revenue, recipients, annual, cost, revenue - cost as real, InequalityRatio(rows))
  }

  /** The outcome table is the taxed table sorted by income, with its ranking
      columns; revenue and recipients are sums over it. */
  lemma SimulateTable(p: Policy, groups: seq<IncomeGroup>)
    requires |groups| > 0
    ensures var o := Simulate(p, groups);
      TaxedRows(o.rows) == SortByIncome(TaxedTable(p, groups))
      && RankedRows(o.rows) == RankedTable(p, groups)
      && o.totalTaxRevenue == Revenue(TaxedTable(p, groups))
      && o.ubiRecipients == Recipients(RankedTable(p, groups))
  {
    var o := Simulate(p, groups);
    var sorted := SortByIncome(TaxedTable(p, groups));
    assert o.rows == DisposableColumns(UbiAnnual(p), Rank(p.target, sorted));
    ColumnsKeepRanked(UbiAnnual(p), Rank(p.target, sorted));
    ColumnsKeepTaxed(UbiAnnual(p), p.target, sorted);
  }

  /** The summary figures of a run: revenue and recipients before any
      cost is computed from them. */
  lemma SimulateFigures(p: Policy, groups: seq<IncomeGroup>)
    requires |groups| > 0
    ensures Simulate(p, groups).totalTaxRevenue == Revenue(TaxedTable(p, groups))
    ensures Simulate(p, groups).ubiRecipients == Recipients(RankedTable(p, groups))
  {
  }

  lemma ColumnsKeepRanked(annual: int, rs: seq<RankedRow>)
    ensures RankedRows(DisposableColumns(annual, rs)) == rs
  {
    var o := DisposableColumns(annual, rs);
    forall i | 0 <= i < |rs| ensures RankedRows(o)[i] == rs[i] {
      assert o[i] == Disburse(annual, rs[i]);
    }
  }

  lemma ColumnsKeepTaxed(annual: int, target: Target, s: seq<TaxedRow>)
    ensures TaxedRows(DisposableColumns(annual, Rank(target, s))) == s
  {
    var rs := Rank(target, s);
    var o := DisposableColumns(annual, rs);
    forall i | 0 <= i < |s| ensures TaxedRows(o)[i] == s[i] {
      assert o[i] == Disburse(annual, rs[i]);
      assert rs[i].taxed == s[i];
    }
  }

  /** The outcome table lists every group once, with its own tax columns, in
      ascending order of income, and revenue is the sum of its group
      totals. */
  lemma SimulateSorted(p: Policy, groups: seq<IncomeGroup>)
    requires |groups| > 0
    ensures var o := Simulate(p, groups);
      SortedByIncome(TaxedRows(o.rows))
      && multiset(TaxedRows(o.rows)) == multiset(TaxedTable(p, groups))
      && o.totalTaxRevenue == Revenue(TaxedRows(o.rows))
  {
    SimulateTable(p, groups);
    RevenueSortInvariant(TaxedTable(p, groups));
  }

  /** Each group's members receive the annual UBI exactly when the group is
      eligible, and keep their income minus the taxes they pay plus that
      UBI. */
  lemma SimulateDisposable(p: Policy, groups: seq<IncomeGroup>, i: int)
    requires |groups| > 0 && 0 <= i < |groups|
    ensures var o := Simulate(p, groups); var t := o.rows[i].ranked.taxed;
      o.rows[i].ubiPerPerson == (if o.rows[i].ranked.eligible then (12 * p.ubiMonthly) as real else 0.0)
      && t == TaxRow(p, t.row)
      && o.rows[i].disposableIncome == t.row.avgIncome - t.totalTaxPerPerson + o.rows[i].ubiPerPerson
  {
    var o := Simulate(p, groups);
    var taxed := TaxedTable(p, groups);
    var sorted := SortByIncome(taxed);
    var ranked := Rank(p.target, sorted);
    assert o.rows == DisposableColumns(UbiAnnual(p), ranked);
    assert o.rows[i] == Disburse(UbiAnnual(p), ranked[i]);
    var t := sorted[i];
    assert ranked[i].taxed == t;
    SortMembers(taxed);
    assert t in taxed;
    TaxColumnsMember(p, PopulationTable(groups), t);
    TaxComponentsSum(p, t.row);
  }

  lemma TaxColumnsMember(p: Policy, rows: seq<Row>, t: TaxedRow)
    requires t in TaxColumns(p, rows)
    ensures t == TaxRow(p, t.row)
  {
    var k :| 0 <= k < |TaxColumns(p, rows)| && TaxColumns(p, rows)[k] == t;
  }

  lemma TaxComponentsSum(p: Policy, r: Row)
    ensures TaxRow(p, r).totalTaxPerPerson == TaxRow(p, r).vatTax + TaxRow(p, r).luxTax + TaxRow(p, r).incomeTax
  {
  }

  /** The tax columns read only the rates, never the target. */
  lemma TaxedTableIgnoresTarget(p: Policy, q: Policy, groups: seq<IncomeGroup>)
    requires p.vatRate == q.vatRate && p.luxuryTaxRate == q.luxuryTaxRate && p.incomeTaxRate == q.incomeTaxRate
    ensures TaxedTable(p, groups) == TaxedTable(q, groups)
  {
    TaxColumnsReadRatesOnly(p, q, PopulationTable(groups));
  }

  /** Running a policy with another target ranks the same sorted table under
      that target. */
  lemma SimulateWithTarget(p: Policy, target: Target, groups: seq<IncomeGroup>)
    requires |groups| > 0
    ensures var o, sorted := Simulate(p.(target := target), groups), SortByIncome(TaxedTable(p, groups));
      RankedRows(o.rows) == Rank(target, sorted) && o.ubiRecipients == Recipients(Rank(target, sorted))
  {
    TaxedTableIgnoresTarget(p, p.(target := target), groups);
    SimulateTable(p.(target := target), groups);
  }

  /** Whatever the rates, the taxed table sits on the same population rows. */
  lemma TaxedTableSameRows(p: Policy, q: Policy, groups: seq<IncomeGroup>)
    ensures SameRows(TaxedTable(p, groups), TaxedTable(q, groups))
  {
  }

  /** The sorted table of well formed groups has no negative head count. */
  lemma SortedPopsNonNegative(p: Policy, groups: seq<IncomeGroup>)
    requires AllWellFormed(groups)
    ensures NonNegativePops(SortByIncome(TaxedTable(p, groups)))
  {
    var rows := PopulationTable(groups);
    var taxed := TaxedTable(p, groups);
    TableWellFormed(groups);
    SortMembers(taxed);
    var sorted := SortByIncome(taxed);
    forall i | 0 <= i < |sorted| ensures 0 <= sorted[i].row.groupPop {
      assert sorted[i] in taxed;
    }
  }

  /** Raising tax rates never lowers total tax revenue. */
  lemma SimulateRevenueMonotone(p: Policy, q: Policy, groups: seq<IncomeGroup>)
    requires |groups| > 0 && AllWellFormed(groups) && RatesAtMost(p, q)
    ensures Simulate(p, groups).totalTaxRevenue <= Simulate(q, groups).totalTaxRevenue
  {
    SimulateTable(p, groups);
    SimulateTable(q, groups);
    TableWellFormed(groups);
    RevenueMonotone(p, q, PopulationTable(groups));
  }

  /** Non-negative rates never raise negative revenue. */
  lemma SimulateRevenueNonNegative(p: Policy, groups: seq<IncomeGroup>)
    requires |groups| > 0 && AllWellFormed(groups) && NonNegativeRates(p)
    ensures 0.0 <= Simulate(p, groups).totalTaxRevenue
  {
    SimulateTable(p, groups);
    TableWellFormed(groups);
    RevenueNonNegative(p, PopulationTable(groups));
  }

  /** Who receives UBI depends on the target alone, never on the tax rates
      or the UBI amount. */
  lemma SimulateRecipientsIgnoreRates(p: Policy, q: Policy, groups: seq<IncomeGroup>)
    requires |groups| > 0 && p.target == q.target
    ensures Simulate(p, groups).ubiRecipients == Simulate(q, groups).ubiRecipients
  {
    SimulateTable(p, groups);
    SimulateTable(q, groups);
    TaxedTableSameRows(p, q, groups);
    var sp, sq := SortByIncome(TaxedTable(p, groups)), SortByIncome(TaxedTable(q, groups));
    SortSameRows(TaxedTable(p, groups), TaxedTable(q, groups));
    RankSameRows(p.target, sp, sq);
    RecipientsSame(Rank(p.target, sp), Rank(q.target, sq));
  }

  /** A higher monthly UBI never costs less. */
  lemma SimulateCostMonotone(p: Policy, q: Policy, groups: seq<IncomeGroup>)
    requires |groups| > 0 && AllWellFormed(groups)
    requires p.target == q.target && p.ubiMonthly <= q.ubiMonthly
    ensures Simulate(p, groups).totalUbiCost <= Simulate(q, groups).totalUbiCost
  {
    SimulateRecipientsIgnoreRates(p, q, groups);
    SimulateRecipientsCap(p, groups);
    var n := Simulate(p, groups).ubiRecipients;
    assert Simulate(p, groups).totalUbiCost == TotalUbiCost(n, p);
    assert Simulate(q, groups).totalUbiCost == TotalUbiCost(n, q);
    UbiCostMonotone(n, p, q);
  }

  /** Changing only the target leaves the order of the outcome table alone:
      both runs list the same taxed rows at the same positions. */
  lemma SimulateSameOrder(p: Policy, target: Target, groups: seq<IncomeGroup>, i: int)
    requires |groups| > 0 && 0 <= i < |groups|
    ensures Simulate(p.(target := target), groups).rows[i].ranked.taxed == Simulate(p, groups).rows[i].ranked.taxed
  {
    SimulateRanked(p, groups, i);
    SimulateRankedWith(p, target, groups, i);
  }

  /** A row of the outcome table carries the ranking columns of the sorted
      taxed table at the same position. */
  lemma SimulateRanked(p: Policy, groups: seq<IncomeGroup>, i: int)
    requires |groups| > 0 && 0 <= i < |groups|
    ensures Simulate(p, groups).rows[i].ranked == Rank(p.target, SortByIncome(TaxedTable(p, groups)))[i]
  {
    SimulateTable(p, groups);
    assert RankedRows(Simulate(p, groups).rows)[i] == Simulate(p, groups).rows[i].ranked;
  }

  /** A group the bottom-fifth rule admits is admitted by the bottom-half
      rule, and "Everyone" admits every group. */
  lemma SimulateEligibilityNesting(p: Policy, groups: seq<IncomeGroup>, i: int)
    requires |groups| > 0 && 0 <= i < |groups|
    ensures Simulate(p.(target := Bottom20), groups).rows[i].ranked.eligible
      ==> Simulate(p.(target := Bottom50), groups).rows[i].ranked.eligible
    ensures Simulate(p.(target := Everyone), groups).rows[i].ranked.eligible
  {
    var sorted := SortByIncome(TaxedTable(p, groups));
    SimulateRankedWith(p, Bottom20, groups, i);
    SimulateRankedWith(p, Bottom50, groups, i);
    SimulateRankedWith(p, Everyone, groups, i);
    assert Rank(Bottom20, sorted)[i].cumPopShare == Rank(Bottom50, sorted)[i].cumPopShare;
  }

  lemma SimulateRankedWith(p: Policy, target: Target, groups: seq<IncomeGroup>, i: int)
    requires |groups| > 0 && 0 <= i < |groups|
    ensures Simulate(p.(target := target), groups).rows[i].ranked == Rank(target, SortByIncome(TaxedTable(p, groups)))[i]
  {
    SimulateRanked(p.(target := target), groups, i);
    TaxedTableIgnoresTarget(p, p.(target := target), groups);
  }

  /** Widening the target never lowers the number of recipients. */
  lemma SimulateRecipientsNesting(p: Policy, groups: seq<IncomeGroup>)
    requires |groups| > 0 && AllWellFormed(groups)
    ensures 0 <= Simulate(p.(target := Bottom20), groups).ubiRecipients
    ensures Simulate(p.(target := Bottom20), groups).ubiRecipients <= Simulate(p.(target := Bottom50), groups).ubiRecipients
    ensures Simulate(p.(target := Bottom50), groups).ubiRecipients <= Simulate(p.(target := Everyone), groups).ubiRecipients
  {
    SimulateWithTarget(p, Bottom20, groups);
    SimulateWithTarget(p, Bottom50, groups);
    SimulateWithTarget(p, Everyone, groups);
    SortedPopsNonNegative(p, groups);
    RecipientsNesting(SortByIncome(TaxedTable(p, groups)));
  }

  /** Under "Everyone" the whole population table is paid. */
  lemma SimulateEveryonePaid(p: Policy, groups: seq<IncomeGroup>)
    requires |groups| > 0 && p.target == Everyone
    ensures Simulate(p, groups).ubiRecipients == PopTotal(PopulationTable(groups))
  {
    var taxed := TaxedTable(p, groups);
    SimulateTable(p, groups);
    RecipientsEveryone(SortByIncome(taxed));
    PopSumSortInvariant(taxed);
    PopSumOfTaxColumns(p, PopulationTable(groups));
  }

  /** The bottom-half rule never pays more than half the population and the
      bottom-fifth rule never more than a fifth. */
  lemma SimulateRecipientsCap(p: Policy, groups: seq<IncomeGroup>)
    requires |groups| > 0 && AllWellFormed(groups)
    ensures 0 <= Simulate(p, groups).ubiRecipients
    ensures p.target == Bottom50 ==> 2 * Simulate(p, groups).ubiRecipients <= TotalPop
    ensures p.target == Bottom20 ==> 5 * Simulate(p, groups).ubiRecipients <= TotalPop
  {
    SimulateTable(p, groups);
    SortedPopsNonNegative(p, groups);
    RecipientsBelowThreshold(p.target, SortByIncome(TaxedTable(p, groups)));
  }

  /** However the target is set, the recipients are between nobody and the
      whole population table. */
  lemma SimulateRecipientsBounds(p: Policy, groups: seq<IncomeGroup>)
    requires |groups| > 0 && AllWellFormed(groups)
    ensures 0 <= Simulate(p, groups).ubiRecipients <= PopTotal(PopulationTable(groups))
  {
    SimulateRecipientsCap(p, groups);
    SimulateRecipientsNesting(p, groups);
    SimulateEveryonePaid(p.(target := Everyone), groups);
    assert p == p.(target := p.target);
  }

  /** With levers inside the slider ranges and shares that do not exceed the
      whole population, the UBI never costs more than paying the largest
      amount to every adult. */
  lemma SimulateCostBounds(p: Policy, groups: seq<IncomeGroup>)
    requires |groups| > 0 && AllWellFormed(groups) && ShareTotal(groups) <= 1.0 && InSliderRange(p)
    ensures 0 <= Simulate(p, groups).totalUbiCost <= TotalPop * 24000
  {
    SimulateRecipientsBounds(p, groups);
    PopTotalBounds(groups);
    var n := Simulate(p, groups).ubiRecipients;
    assert n <= TotalPop;
    CostBound(n, p.ubiMonthly, Simulate(p, groups).totalUbiCost);
  }

  lemma CostBound(n: int, m: int, c: int)
    requires 0 <= n <= TotalPop && 0 <= m <= 2000 && c == n * (12 * m)
    ensures 0 <= c <= TotalPop * 24000
  {
    assert n * (12 * m) <= TotalPop * (12 * m) <= TotalPop * 24000;
  }

  /** The bottom targets never pass over a poorer group: a group poorer than
      an eligible group is eligible too. */
  lemma SimulatePoorestFirst(p: Policy, groups: seq<IncomeGroup>, i: int, j: int)
    requires |groups| > 0 && AllWellFormed(groups) && 0 <= i < |groups| && 0 <= j < |groups|
    requires Simulate(p, groups).rows[j].ranked.eligible
    requires Simulate(p, groups).rows[i].ranked.taxed.row.avgIncome < Simulate(p, groups).rows[j].ranked.taxed.row.avgIncome
    ensures Simulate(p, groups).rows[i].ranked.eligible
  {
    var sorted := SortByIncome(TaxedTable(p, groups));
    SimulateRanked(p, groups, i);
    SimulateRanked(p, groups, j);
    assert Income(sorted[i]) < Income(sorted[j]);
    SortedPopsNonNegative(p, groups);
    EligiblePrefix(p.target, sorted, i, j);
  }

  /** With every rate and the UBI at zero nobody pays or receives anything:
      revenue, cost and surplus are zero and every group keeps its income. */
  lemma SimulateZeroPolicy(target: Target, groups: seq<IncomeGroup>)
    requires |groups| > 0
    ensures var o := Simulate(Policy(0.0, 0.0, 0.0, 0, target), groups);
      o.totalTaxRevenue == 0.0 && o.totalUbiCost == 0 && o.budgetSurplus == 0.0
      && forall i :: 0 <= i < |groups| ==> o.rows[i].disposableIncome == o.rows[i].ranked.taxed.row.avgIncome
  {
    var p := Policy(0.0, 0.0, 0.0, 0, target);
    var o := Simulate(p, groups);
    SimulateTable(p, groups);
    ZeroRatesNoRevenue(p, PopulationTable(groups));
    assert o.totalTaxRevenue == 0.0;
    assert o.ubiAnnualPerPerson == 0;
    forall i | 0 <= i < |groups| ensures o.rows[i].disposableIncome == o.rows[i].ranked.taxed.row.avgIncome {
      SimulateDisposable(p, groups, i);
      ZeroTaxRow(target, o.rows[i].ranked.taxed.row);
    }
  }

  lemma ZeroTaxRow(target: Target, r: Row)
    ensures TaxRow(Policy(0.0, 0.0, 0.0, 0, target), r).totalTaxPerPerson == 0.0
  {
  }
}
