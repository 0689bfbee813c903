/** The reference economy run under concrete policies: the figures the page
    shows for its initial levers, for the two bottom targets and for a
    policy that leaves the poorest group nothing. */
module Scenarios {
  import opened Economy
  import opened Levers
  import opened Population
  import opened Taxes
  import opened Ranking
  import opened Ubi
  import opened Outcomes

  /** The population table of the reference groups. */
  const ReferenceRows: seq<Row> := [
    Row(Low, 30000, 20000.0, 0.95, 18620.0, 380.0),
    Row(LowerMiddle, 40000, 40000.0, 0.85, 32300.0, 1700.0),
    Row(UpperMiddle, 20000, 80000.0, 0.75, 54000.0, 6000.0),
    Row(High, 10000, 200000.0, 0.60, 96000.0, 24000.0)
  ]

  /** Each reference group's consumption splits into the listed basic and
      luxury parts, and its head count is its exact share of the population. */
  lemma ReferencePopulation()
    ensures PopulationTable(IncomeGroups) == ReferenceRows
  {
    ReferenceCounts();
    var rows := PopulationTable(IncomeGroups);
    forall i | 0 <= i < 4 ensures rows[i] == ReferenceRows[i] {
      assert rows[i] == BuildRow(IncomeGroups[i]);
    }
  }

  /** The reference table is already in ascending order of income, so the
      sort leaves its taxed table as it is, whatever the policy. */
  lemma ReferenceSorted(p: Policy)
    ensures SortByIncome(TaxedTable(p, IncomeGroups)) == TaxedTable(p, IncomeGroups)
  {
    ReferencePopulation();
    var t := TaxedTable(p, IncomeGroups);
    assert forall i :: 0 <= i < 4 ==> t[i].row == ReferenceRows[i];
    assert SortedByIncome(t);
    SortSortedIsIdentity(t);
  }

  /** The head counts accumulate to 30000, 70000, 90000 and 100000 adults. */
  lemma ReferencePrefixPops(p: Policy)
    ensures var t := TaxedTable(p, IncomeGroups);
      PopSum(t[..1]) == 30000 && PopSum(t[..2]) == 70000 && PopSum(t[..3]) == 90000 && PopSum(t[..4]) == 100000
  {
    ReferencePopulation();
    var t := TaxedTable(p, IncomeGroups);
    assert t[..4][..3] == t[..3] && t[..3][..2] == t[..2] && t[..2][..1] == t[..1] && t[..1][..0] == [];
    assert t[0].row.groupPop == 30000 && t[1].row.groupPop == 40000;
    assert t[2].row.groupPop == 20000 && t[3].row.groupPop == 10000;
  }

  /** The ranking columns of the reference table: the cumulative shares are
      0.30, 0.70, 0.90 and 1.00, and each row is eligible as the target's
      rule says of its share. */
  lemma ReferenceRanking(p: Policy, target: Target)
    ensures var t, r := TaxedTable(p, IncomeGroups), Rank(target, TaxedTable(p, IncomeGroups));
      |r| == 4
      && r[0] == RankedRow(t[0], 30000, 0.30, Eligible(target, 0.30))
      && r[1] == RankedRow(t[1], 70000, 0.70, Eligible(target, 0.70))
      && r[2] == RankedRow(t[2], 90000, 0.90, Eligible(target, 0.90))
      && r[3] == RankedRow(t[3], 100000, 1.0, Eligible(target, 1.0))
  {
    ReferencePrefixPops(p);
  }

  /** Number of recipients of a four-row ranking. */
  lemma RecipientsOfFour(r: seq<RankedRow>)
    requires |r| == 4
    ensures Recipients(r) == (if r[0].eligible then Pop(r[0]) else 0) + (if r[1].eligible then Pop(r[1]) else 0)
      + (if r[2].eligible then Pop(r[2]) else 0) + (if r[3].eligible then Pop(r[3]) else 0)
  {
    var r3, r2, r1 := r[..3], r[..2], r[..1];
    assert r3[..2] == r2 && r2[..1] == r1 && r1[..0] == [];
    assert Recipients(r1) == (if r[0].eligible then Pop(r[0]) else 0);
    assert Recipients(r2) == Recipients(r1) + (if r[1].eligible then Pop(r[1]) else 0);
    assert Recipients(r3) == Recipients(r2) + (if r[2].eligible then Pop(r[2]) else 0);
    assert Recipients(r) == Recipients(r3) + (if r[3].eligible then Pop(r[3]) else 0);
  }

  /** Recipients of the ranked reference table under each target. */
  lemma RankedRecipients(p: Policy, target: Target)
    ensures Recipients(Rank(target, TaxedTable(p, IncomeGroups)))
      == match target case Everyone => 100000 case Bottom50 => 30000 case Bottom20 => 0
  {
    ReferencePopulation();
    var t := TaxedTable(p, IncomeGroups);
    assert t[0].row.groupPop == 30000 && t[1].row.groupPop == 40000;
    assert t[2].row.groupPop == 20000 && t[3].row.groupPop == 10000;
    ReferenceRanking(p, target);
    RecipientsOfFour(Rank(target, t));
  }

  /** Recipients under each target: everybody, only the Low group (30000
      adults) under the bottom-half rule, and nobody under the bottom-fifth
      rule, since the Low group alone is already 30% of the population. */
  lemma ReferenceRecipients(p: Policy)
    ensures Simulate(p.(target := Everyone), IncomeGroups).ubiRecipients == 100000
    ensures Simulate(p.(target := Bottom50), IncomeGroups).ubiRecipients == 30000
    ensures Simulate(p.(target := Bottom20), IncomeGroups).ubiRecipients == 0
  {
    ReferenceTable();
    ReferenceSorted(p);
    SimulateWithTarget(p, Everyone, IncomeGroups);
    SimulateWithTarget(p, Bottom50, IncomeGroups);
    SimulateWithTarget(p, Bottom20, IncomeGroups);
    RankedRecipients(p, Everyone);
    RankedRecipients(p, Bottom50);
    RankedRecipients(p, Bottom20);
  }

  /** The tax columns of the reference table under the initial levers: each
      Low, Lower-Middle, Upper-Middle and High adult pays 4938, 9570, 18600
      and 44400 a year. */
  lemma DefaultTaxes()
    ensures var t := TaxedTable(DefaultPolicy, IncomeGroups);
      t[0].totalTaxPerPerson == 4938.0 && t[1].totalTaxPerPerson == 9570.0
      && t[2].totalTaxPerPerson == 18600.0 && t[3].totalTaxPerPerson == 44400.0
      && Revenue(t) == 1346940000.0
  {
    ReferencePopulation();
    var t := TaxedTable(DefaultPolicy, IncomeGroups);
    assert forall i :: 0 <= i < 4 ==> t[i] == TaxRow(DefaultPolicy, ReferenceRows[i]);
    assert t[..4][..3] == t[..3] && t[..3][..2] == t[..2] && t[..2][..1] == t[..1] && t[..1][..0] == [];
    assert t[..4] == t;
    assert Revenue(t[..1]) == 148140000.0;
    assert Revenue(t[..2]) == 530940000.0;
    assert Revenue(t[..3]) == 902940000.0;
  }

  /** The summary figures the page shows for its initial levers. */
  lemma DefaultSummary()
    ensures var o := Simulate(DefaultPolicy, IncomeGroups);
      o.totalTaxRevenue == 1346940000.0 && o.ubiRecipients == 100000 && o.ubiAnnualPerPerson == 9600
      && o.totalUbiCost == 960000000 && o.budgetSurplus == 386940000.0
  {
    DefaultTaxes();
    SimulateFigures(DefaultPolicy, IncomeGroups);
    ReferenceRecipients(DefaultPolicy);
    assert DefaultPolicy.(target := Everyone) == DefaultPolicy;
  }

  /** Under the initial levers every group receives 9600 a year, and the
      disposable incomes are 24662, 40030, 71000 and 165200. */
  lemma DefaultDisposable()
    ensures |Simulate(DefaultPolicy, IncomeGroups).rows| == 4
    ensures Simulate(DefaultPolicy, IncomeGroups).rows[0].disposableIncome == 24662.0
    ensures Simulate(DefaultPolicy, IncomeGroups).rows[1].disposableIncome == 40030.0
    ensures Simulate(DefaultPolicy, IncomeGroups).rows[2].disposableIncome == 71000.0
    ensures Simulate(DefaultPolicy, IncomeGroups).rows[3].disposableIncome == 165200.0
  {
    ReferenceTable();
    DefaultTaxes();
    ReferencePopulation();
    var t := TaxedTable(DefaultPolicy, IncomeGroups);
    assert t[0].row.avgIncome == 20000.0 && t[1].row.avgIncome == 40000.0;
    assert t[2].row.avgIncome == 80000.0 && t[3].row.avgIncome == 200000.0;
    DefaultRow(0);
    DefaultRow(1);
    DefaultRow(2);
    DefaultRow(3);
  }

  /** The inequality ratio under the initial levers is 165200 / 24662. */
  lemma DefaultRatio()
    ensures Simulate(DefaultPolicy, IncomeGroups).inequalityRatio == Some(165200.0 / 24662.0)
  {
    DefaultDisposable();
  }

  /** Under the initial levers a group keeps its income less its taxes plus
      the 9600 a year everybody receives. */
  lemma DefaultRow(i: int)
    requires 0 <= i < 4
    ensures var t := TaxedTable(DefaultPolicy, IncomeGroups);
      Simulate(DefaultPolicy, IncomeGroups).rows[i].disposableIncome == t[i].row.avgIncome - t[i].totalTaxPerPerson + 9600.0
  {
    var p := DefaultPolicy;
    ReferenceSorted(p);
    ReferenceRanking(p, Everyone);
    SimulateRanked(p, IncomeGroups, i);
    SimulateDisposable(p, IncomeGroups, i);
  }

  /** Under the bottom-half rule with the initial rates and UBI only the Low
      group is paid: the UBI costs 288000000 and the surplus is
      1058940000. */
  lemma BottomHalfSummary()
    ensures var o := Simulate(DefaultPolicy.(target := Bottom50), IncomeGroups);
      o.ubiRecipients == 30000 && o.totalUbiCost == 288000000 && o.budgetSurplus == 1058940000.0
      && o.rows[0].ranked.eligible && !o.rows[1].ranked.eligible
      && !o.rows[2].ranked.eligible && !o.rows[3].ranked.eligible
  {
    var p := DefaultPolicy.(target := Bottom50);
    DefaultTaxes();
    TaxedTableIgnoresTarget(DefaultPolicy, p, IncomeGroups);
    SimulateFigures(p, IncomeGroups);
    ReferenceRecipients(DefaultPolicy);
    ReferenceSorted(DefaultPolicy);
    ReferenceRanking(DefaultPolicy, Bottom50);
    forall i | 0 <= i < 4
      ensures Simulate(p, IncomeGroups).rows[i].ranked == Rank(Bottom50, TaxedTable(DefaultPolicy, IncomeGroups))[i]
    {
      SimulateRankedWith(DefaultPolicy, Bottom50, IncomeGroups, i);
    }
  }

  /** Under the bottom-fifth rule nobody is paid: the UBI costs nothing and
      the whole revenue is surplus. */
  lemma BottomFifthSummary()
    ensures var o := Simulate(DefaultPolicy.(target := Bottom20), IncomeGroups);
      o.ubiRecipients == 0 && o.totalUbiCost == 0 && o.budgetSurplus == 1346940000.0
  {
    var p := DefaultPolicy.(target := Bottom20);
    DefaultTaxes();
    TaxedTableIgnoresTarget(DefaultPolicy, p, IncomeGroups);
    SimulateFigures(p, IncomeGroups);
    ReferenceRecipients(DefaultPolicy);
  }

  /** The largest UBI the sliders allow, paid to everybody under the initial
      rates, costs 2400000000 and runs a deficit of 1053060000. */
  lemma MaximumUbiDeficit()
    ensures var o := Simulate(DefaultPolicy.(ubiMonthly := 2000), IncomeGroups);
      o.totalUbiCost == 2400000000 && o.budgetSurplus == -1053060000.0
  {
    var p := DefaultPolicy.(ubiMonthly := 2000);
    DefaultTaxes();
    TaxedTableIgnoresTarget(DefaultPolicy, p, IncomeGroups);
    SimulateFigures(p, IncomeGroups);
    ReferenceRecipients(p);
    assert p.(target := Everyone) == p;
  }

  /** A 100% income tax with no VAT, no luxury tax and no UBI leaves the Low
      group exactly nothing, so the inequality ratio is unavailable. */
  lemma NoRatioWhenPoorestHaveNothing()
    ensures Simulate(Policy(0.0, 0.0, 1.0, 0, Everyone), IncomeGroups).inequalityRatio == None
  {
    var p := Policy(0.0, 0.0, 1.0, 0, Everyone);
    ReferenceSorted(p);
    ReferencePopulation();
    SimulateRanked(p, IncomeGroups, 0);
    SimulateDisposable(p, IncomeGroups, 0);
    ReferenceRanking(p, Everyone);
  }
}
