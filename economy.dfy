/** The toy economy: four fixed income groups and the size of the adult
    population they partition. */
module Economy {

  /** The four income groups, poorest first. */
  datatype GroupName = Low | LowerMiddle | UpperMiddle | High

  /** One income group of the reference economy: the fraction of the
      population in it, its average pre-tax annual income and its marginal
      propensity to consume. */
  datatype IncomeGroup = IncomeGroup(name: GroupName, popShare: real, avgIncome: real, mpc: real)

  /** Number of adults in the modelled country. */
  const TotalPop: int := 100000

  /** The reference table of income groups, in ascending order of income. */
  const IncomeGroups: seq<IncomeGroup> := [
    IncomeGroup(Low, 0.30, 20000.0, 0.95),
    IncomeGroup(LowerMiddle, 0.40, 40000.0, 0.85),
    IncomeGroup(UpperMiddle, 0.20, 80000.0, 0.75),
    IncomeGroup(High, 0.10, 200000.0, 0.60)
  ]

  /** A group whose share, income and propensity to consume are not negative. */
  predicate WellFormed(g: IncomeGroup) {
    0.0 <= g.popShare && 0.0 <= g.avgIncome && 0.0 <= g.mpc
  }

  predicate AllWellFormed(groups: seq<IncomeGroup>) {
    forall i :: 0 <= i < |groups| ==> WellFormed(groups[i])
  }

  /** Sum of the population shares of a table of groups. */
  function ShareTotal(groups: seq<IncomeGroup>): real {
    if groups == [] then 0.0 else ShareTotal(groups[..|groups| - 1]) + groups[|groups| - 1].popShare
  }

  /** Position of a group in the income ladder, poorest first. */
  function Ordinal(name: GroupName): nat {
    match name
    case Low => 0
    case LowerMiddle => 1
    case UpperMiddle => 2
    case High => 3
  }

  /** The fixed (basic, luxury) split of a group's consumption. Every split
      divides all of consumption into two non-negative parts, with the basic
      part the larger. */
  function ConsumptionShares(name: GroupName): (shares: (real, real))
    ensures shares.0 + shares.1 == 1.0
    ensures 0.0 <= shares.1 <= shares.0 <= 1.0
  {
    match name
    case Low => (0.98, 0.02)
    case LowerMiddle => (0.95, 0.05)
    case UpperMiddle => (0.90, 0.10)
    case High => (0.80, 0.20)
  }

  /** Richer groups spend a strictly larger fraction on luxury goods. */
  lemma LuxuryShareRises(a: GroupName, b: GroupName)
    requires Ordinal(a) < Ordinal(b)
    ensures ConsumptionShares(a).1 < ConsumptionShares(b).1
    ensures ConsumptionShares(b).0 < ConsumptionShares(a).0
  {
  }

  /** The reference table is well formed, its shares partition the
      population exactly, and it lists the groups by strictly rising income. */
  lemma ReferenceTable()
    ensures |IncomeGroups| == 4
    ensures AllWellFormed(IncomeGroups)
    ensures ShareTotal(IncomeGroups) == 1.0
    ensures forall i, j :: 0 <= i < j < |IncomeGroups| ==>
      IncomeGroups[i].avgIncome < IncomeGroups[j].avgIncome && Ordinal(IncomeGroups[i].name) < Ordinal(IncomeGroups[j].name)
  {
    var g := IncomeGroups;
    assert g[..3][..2][..1][..0] == [];
    assert ShareTotal(g[..3][..2][..1]) == 0.30;
    assert ShareTotal(g[..3][..2]) == 0.70;
    assert ShareTotal(g[..3]) == 0.90;
  }
}
