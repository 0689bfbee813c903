/** Building the population table: one row per income group with its head
    count and its consumption split into basic and luxury spending. */
module Population {
  import opened Economy

  /** One row of the population table. */
  datatype Row = Row(group: GroupName, groupPop: int, avgIncome: real, mpc: real, basicCons: real, luxuryCons: real)

  /** Conversion of a number to an integer by dropping its fractional part,
      so that the result lies between zero and the number. */
  function Trunc(x: real): (n: int)
    ensures 0.0 <= x ==> 0 <= n && n as real <= x < n as real + 1.0
    ensures x < 0.0 ==> n <= 0 && n as real - 1.0 < x <= n as real
  {
    if 0.0 <= x then x.Floor else -((-x).Floor)
  }

  /** Head count of a group: the total population times its share, truncated. */
  function GroupPop(g: IncomeGroup): int {
    Trunc(TotalPop as real * g.popShare)
  }

  /** A group's head count never exceeds its exact share of the population
      and falls short of it by less than one person. */
  lemma GroupPopBounds(g: IncomeGroup)
    requires 0.0 <= g.popShare
    ensures 0 <= GroupPop(g)
    ensures GroupPop(g) as real <= TotalPop as real * g.popShare < GroupPop(g) as real + 1.0
  {
  }

  /** The row of one group. */
  function BuildRow(g: IncomeGroup): (r: Row)
    ensures r.group == g.name && r.groupPop == GroupPop(g) && r.avgIncome == g.avgIncome && r.mpc == g.mpc
    ensures r.basicCons + r.luxuryCons == g.avgIncome * g.mpc
  {
    var consumption := g.avgIncome * g.mpc;
    var shares := ConsumptionShares(g.name);
    Row(g.name, GroupPop(g), g.avgIncome, g.mpc, consumption * shares.0, consumption * shares.1)
  }

  /** A row with no negative head count, income or spending. */
  predicate RowWellFormed(r: Row) {
    0 <= r.groupPop && 0.0 <= r.avgIncome && 0.0 <= r.basicCons && 0.0 <= r.luxuryCons
  }

  predicate AllRowsWellFormed(rows: seq<Row>) {
    forall i :: 0 <= i < |rows| ==> RowWellFormed(rows[i])
  }

  lemma NonNegativeProduct(a: real, b: real)
    requires 0.0 <= a && 0.0 <= b
    ensures 0.0 <= a * b
  {
  }

  /** A well formed group yields a well formed row. */
  lemma BuildRowWellFormed(g: IncomeGroup)
    requires WellFormed(g)
    ensures RowWellFormed(BuildRow(g))
  {
    var shares := ConsumptionShares(g.name);
    NonNegativeProduct(g.avgIncome, g.mpc);
    NonNegativeProduct(g.avgIncome * g.mpc, shares.0);
    NonNegativeProduct(g.avgIncome * g.mpc, shares.1);
  }

  /** The population table: the rows of the groups, in the groups' order. */
  function PopulationTable(groups: seq<IncomeGroup>): (rows: seq<Row>)
    ensures |rows| == |groups|
    ensures forall i :: 0 <= i < |groups| ==> rows[i] == BuildRow(groups[i])
  {
    if groups == [] then [] else PopulationTable(groups[..|groups| - 1]) + [BuildRow(groups[|groups| - 1])]
  }

  /** The loop that builds the table, appending one row per group. */
  method BuildTable(groups: seq<IncomeGroup>) returns (rows: seq<Row>)
    ensures |rows| == |groups|
    ensures forall i :: 0 <= i < |groups| ==> rows[i] == BuildRow(groups[i])
    ensures rows == PopulationTable(groups)
  {
    rows := [];
    var k := 0;
    while k < |groups|
      invariant 0 <= k <= |groups|
      invariant |rows| == k
      invariant forall i :: 0 <= i < k ==> rows[i] == BuildRow(groups[i])
    {
      var g := groups[k];
      var consumption := g.avgIncome * g.mpc;
      var basicShare, luxuryShare := 0.0, 0.0;
      match g.name {
        case Low => basicShare, luxuryShare := 0.98, 0.02;
        case LowerMiddle => basicShare, luxuryShare := 0.95, 0.05;
        case UpperMiddle => basicShare, luxuryShare := 0.90, 0.10;
        case High => basicShare, luxuryShare := 0.80, 0.20;
      }
      assert (basicShare, luxuryShare) == ConsumptionShares(g.name);
      var groupPop := Trunc(TotalPop as real * g.popShare);
      rows := rows + [Row(g.name, groupPop, g.avgIncome, g.mpc, consumption * basicShare, consumption * luxuryShare)];
      assert rows[k] == BuildRow(g);
      k := k + 1;
    }
    assert |rows| == |PopulationTable(groups)|;
  }

  /** A table built from well formed groups is well formed. */
  lemma TableWellFormed(groups: seq<IncomeGroup>)
    requires AllWellFormed(groups)
    ensures AllRowsWellFormed(PopulationTable(groups))
  {
    forall i | 0 <= i < |groups| ensures RowWellFormed(PopulationTable(groups)[i]) {
      BuildRowWellFormed(groups[i]);
    }
  }

  /** Sum of the head counts of a population table. The ranking sums the
      same counts over taxed rows (`Ubi.PopSum`); `Ubi.PopSumOfTaxColumns`
      proves the two agree. */
  function PopTotal(rows: seq<Row>): int {
    if rows == [] then 0 else PopTotal(rows[..|rows| - 1]) + rows[|rows| - 1].groupPop
  }

  /** Truncation loses less than one person per group: the table's head count
      lies between the exact share total minus the number of groups and the
      exact share total. */
  lemma {:induction false} PopTotalBounds(groups: seq<IncomeGroup>)
    requires AllWellFormed(groups)
    ensures 0 <= PopTotal(PopulationTable(groups))
    ensures PopTotal(PopulationTable(groups)) as real <= TotalPop as real * ShareTotal(groups)
    ensures TotalPop as real * ShareTotal(groups) - |groups| as real < PopTotal(PopulationTable(groups)) as real
      || groups == []
  {
    if groups != [] {
      var n := |groups|;
      var front := groups[..n - 1];
      assert AllWellFormed(front) by {
        forall i | 0 <= i < |front| ensures WellFormed(front[i]) {
          assert front[i] == groups[i];
        }
      }
      PopTotalBounds(front);
      GroupPopBounds(groups[n - 1]);
      var rows := PopulationTable(groups);
      assert rows[..n - 1] == PopulationTable(front);
      assert PopTotal(rows) == PopTotal(PopulationTable(front)) + GroupPop(groups[n - 1]);
    }
  }

  /** The reference groups have 30000, 40000, 20000 and 10000 adults, which
      add up to the whole population. */
  lemma ReferenceCounts()
    ensures |PopulationTable(IncomeGroups)| == 4
    ensures PopulationTable(IncomeGroups)[0].groupPop == 30000
    ensures PopulationTable(IncomeGroups)[1].groupPop == 40000
    ensures PopulationTable(IncomeGroups)[2].groupPop == 20000
    ensures PopulationTable(IncomeGroups)[3].groupPop == 10000
    ensures PopTotal(PopulationTable(IncomeGroups)) == TotalPop
  {
    var rows := PopulationTable(IncomeGroups);
    assert rows[..3][..2][..1][..0] == [];
    assert rows[..3][..2][..1] == [rows[0]];
    assert rows[..3][..2] == [rows[0], rows[1]];
    assert rows[..3] == [rows[0], rows[1], rows[2]];
    assert PopTotal(rows[..3][..2][..1]) == 30000;
    assert PopTotal(rows[..3][..2]) == 70000;
    assert PopTotal(rows[..3]) == 90000;
  }
}
