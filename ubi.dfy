/** UBI allocation: the cumulative population share of the income-ordered
    table, the targeting rules that read it, the number of recipients and
    what paying them costs. */
module Ubi {
  import opened Economy
  import opened Levers
  import opened Population
  import opened Taxes
  import opened Ranking

  /** A taxed row with its running head count, the share of the population
      that count is, and whether the row's group receives UBI. */
  datatype RankedRow = RankedRow(taxed: TaxedRow, cumPop: int, cumPopShare: real, eligible: bool)

  function Pop(r: RankedRow): int {
    r.taxed.row.groupPop
  }

  /** Sum of the head counts of a taxed table: `Population.PopTotal` over the
      rows the tax columns were added to (`PopSumOfTaxColumns`). */
  function PopSum(s: seq<TaxedRow>): int {
    if s == [] then 0 else PopSum(s[..|s| - 1]) + s[|s| - 1].row.groupPop
  }

  predicate NonNegativePops(s: seq<TaxedRow>) {
    forall i :: 0 <= i < |s| ==> 0 <= s[i].row.groupPop
  }

  /** The fraction of the whole population a head count stands for. */
  function CumPopShare(cumPop: int): real {
    cumPop as real / TotalPop as real
  }

  /** The targeting rule, applied to the share of the population accumulated
      through and including a group. */
  function Eligible(target: Target, share: real): bool {
    match target
    case Everyone => true
    case Bottom50 => share <= 0.50
    case Bottom20 => share <= 0.20
  }

  /** The ranking columns of a table, in its own order: row i carries the
      head count of rows 0 to i. */
  function Rank(target: Target, s: seq<TaxedRow>): (r: seq<RankedRow>)
    ensures |r| == |s|
    ensures forall i :: 0 <= i < |s| ==>
      r[i].taxed == s[i] && r[i].cumPop == PopSum(s[..i + 1])
      && r[i].cumPopShare == CumPopShare(r[i].cumPop) && r[i].eligible == Eligible(target, r[i].cumPopShare)
  {
    if s == [] then []
    else
      var n := |s|;
      var front := s[..n - 1];
      var c := PopSum(s);
      assert s[..n] == s;
      assert forall k :: 0 <= k < n ==> front[..k] == s[..k];
      Rank(target, front) + [RankedRow(s[n - 1], c, CumPopShare(c), Eligible(target, CumPopShare(c)))]
  }

  lemma RankFront(target: Target, s: seq<TaxedRow>)
    requires s != []
    ensures Rank(target, s)[..|s| - 1] == Rank(target, s[..|s| - 1])
  {
  }

  /** Number of UBI recipients: the head counts of the eligible rows. */
  function Recipients(r: seq<RankedRow>): int {
    if r == [] then 0
    else Recipients(r[..|r| - 1]) + (if r[|r| - 1].eligible then Pop(r[|r| - 1]) else 0)
  }

  /** The positions of the eligible rows. */
  function EligibleRows(r: seq<RankedRow>): set<int> {
    set i | 0 <= i < |r| && r[i].eligible
  }

  /** With no negative head count, a longer prefix never holds fewer people. */
  lemma {:induction false} PopSumPrefixMonotone(s: seq<TaxedRow>, i: nat, j: nat)
    requires NonNegativePops(s) && i <= j <= |s|
    ensures PopSum(s[..i]) <= PopSum(s[..j])
    decreases j
  {
    if i < j {
      var front := s[..j - 1];
      assert s[..j][..j - 1] == front;
      assert s[..j][j - 1] == s[j - 1];
      PopSumPrefixMonotone(s, i, j - 1);
    }
  }

  /** Down the table the cumulative population share never falls. */
  lemma CumShareNonDecreasing(target: Target, s: seq<TaxedRow>, i: int, j: int)
    requires NonNegativePops(s) && 0 <= i <= j < |s|
    ensures Rank(target, s)[i].cumPopShare <= Rank(target, s)[j].cumPopShare
  {
    PopSumPrefixMonotone(s, i + 1, j + 1);
  }

  /** The eligible rows form a prefix of the table: a row above an eligible
      row is eligible too. */
  lemma EligiblePrefix(target: Target, s: seq<TaxedRow>, i: int, j: int)
    requires NonNegativePops(s) && 0 <= i <= j < |s|
    requires Rank(target, s)[j].eligible
    ensures Rank(target, s)[i].eligible
  {
    CumShareNonDecreasing(target, s, i, j);
  }

  /** The targets nest: whoever the bottom fifth rule admits, the bottom half
      rule admits, and "Everyone" admits every row. */
  lemma TargetNesting(s: seq<TaxedRow>)
    ensures EligibleRows(Rank(Bottom20, s)) <= EligibleRows(Rank(Bottom50, s))
    ensures EligibleRows(Rank(Bottom50, s)) <= EligibleRows(Rank(Everyone, s))
    ensures forall i :: 0 <= i < |s| ==> i in EligibleRows(Rank(Everyone, s))
  {
  }

  /** Pointwise wider eligibility over the same head counts never means
      fewer recipients. */
  lemma {:induction false} RecipientsMonotone(a: seq<RankedRow>, b: seq<RankedRow>)
    requires |a| == |b|
    requires forall i :: 0 <= i < |a| ==> Pop(a[i]) == Pop(b[i]) && 0 <= Pop(a[i])
    requires forall i :: 0 <= i < |a| ==> a[i].eligible ==> b[i].eligible
    ensures 0 <= Recipients(a) <= Recipients(b)
  {
    if a != [] {
      var n := |a|;
      RecipientsMonotone(a[..n - 1], b[..n - 1]);
    }
  }

  /** Widening the target never lowers the number of recipients. */
  lemma RecipientsNesting(s: seq<TaxedRow>)
    requires NonNegativePops(s)
    ensures 0 <= Recipients(Rank(Bottom20, s)) <= Recipients(Rank(Bottom50, s)) <= Recipients(Rank(Everyone, s))
  {
    RecipientsMonotone(Rank(Bottom20, s), Rank(Bottom50, s));
    RecipientsMonotone(Rank(Bottom50, s), Rank(Everyone, s));
  }

  /** When every row is eligible, everybody in the table is a recipient. */
  lemma {:induction false} RecipientsAllEligible(target: Target, s: seq<TaxedRow>)
    requires forall i :: 0 <= i < |s| ==> Rank(target, s)[i].eligible
    ensures Recipients(Rank(target, s)) == PopSum(s)
  {
    if s != [] {
      var n := |s|;
      var r, front := Rank(target, s), s[..n - 1];
      RankFront(target, s);
      assert forall i :: 0 <= i < n - 1 ==> Rank(target, front)[i] == r[i];
      RecipientsAllEligible(target, front);
      assert Recipients(r) == Recipients(Rank(target, front)) + Pop(r[n - 1]);
      assert Pop(r[n - 1]) == s[n - 1].row.groupPop;
    }
  }

  /** Under "Everyone" the recipients are the whole table. */
  lemma RecipientsEveryone(s: seq<TaxedRow>)
    ensures Recipients(Rank(Everyone, s)) == PopSum(s)
  {
    RecipientsAllEligible(Everyone, s);
  }

  /** The number of recipients that share through the last eligible row. */
  lemma {:induction false} RecipientsBelowThreshold(target: Target, s: seq<TaxedRow>)
    requires NonNegativePops(s)
    ensures 0 <= Recipients(Rank(target, s))
    ensures target == Bottom50 ==> CumPopShare(Recipients(Rank(target, s))) <= 0.50
    ensures target == Bottom20 ==> CumPopShare(Recipients(Rank(target, s))) <= 0.20
  {
    if s != [] {
      var n := |s|;
      RankFront(target, s);
      if Rank(target, s)[n - 1].eligible {
        LastEligibleAllPaid(target, s);
      } else {
        assert NonNegativePops(s[..n - 1]);
        RecipientsBelowThreshold(target, s[..n - 1]);
      }
    }
  }

  /** When the last row is eligible every row is, and the recipients are the
      whole table, whose share the rule admitted. */
  lemma LastEligibleAllPaid(target: Target, s: seq<TaxedRow>)
    requires NonNegativePops(s) && s != [] && Rank(target, s)[|s| - 1].eligible
    ensures 0 <= Recipients(Rank(target, s)) == PopSum(s)
    ensures Eligible(target, CumPopShare(PopSum(s)))
  {
    var n := |s|;
    forall i | 0 <= i < n ensures Rank(target, s)[i].eligible {
      EligiblePrefix(target, s, i, n - 1);
    }
    RecipientsAllEligible(target, s);
    assert s[..n] == s;
    PopSumPrefixMonotone(s, 0, n);
  }

  /** UBI paid to each recipient per year. */
  function UbiAnnual(p: Policy): int {
    12 * p.ubiMonthly
  }

  /** What paying every recipient costs per year. */
  function TotalUbiCost(recipients: int, p: Policy): int {
    recipients * UbiAnnual(p)
  }

  /** A higher monthly amount never costs less, for any head count of
      recipients. */
  lemma UbiCostMonotone(recipients: int, p: Policy, q: Policy)
    requires 0 <= recipients && p.ubiMonthly <= q.ubiMonthly
    ensures TotalUbiCost(recipients, p) <= TotalUbiCost(recipients, q)
  {
    assert recipients * (12 * (q.ubiMonthly - p.ubiMonthly)) >= 0;
  }

  lemma {:induction false} PopSumOfConcat(a: seq<TaxedRow>, b: seq<TaxedRow>)
    ensures PopSum(a + b) == PopSum(a) + PopSum(b)
  {
    if b != [] {
      var n := |b|;
      assert (a + b)[..|a + b| - 1] == a + b[..n - 1];
      PopSumOfConcat(a, b[..n - 1]);
    } else {
      assert a + b == a;
    }
  }

  lemma PopSumOfCons(x: TaxedRow, s: seq<TaxedRow>)
    ensures PopSum([x] + s) == x.row.groupPop + PopSum(s)
  {
    PopSumOfConcat([x], s);
    assert [x][..0] == [];
  }

  lemma {:induction false} PopSumOfInsert(x: TaxedRow, s: seq<TaxedRow>)
    requires SortedByIncome(s)
    ensures PopSum(Insert(x, s)) == x.row.groupPop + PopSum(s)
  {
    if s == [] || Income(x) <= Income(s[0]) {
      PopSumOfCons(x, s);
    } else {
      PopSumOfInsert(x, s[1..]);
      PopSumOfCons(s[0], Insert(x, s[1..]));
      PopSumOfCons(s[0], s[1..]);
      assert s == [s[0]] + s[1..];
    }
  }

  /** Sorting the table does not change how many people it holds. */
  lemma {:induction false} PopSumSortInvariant(s: seq<TaxedRow>)
    ensures PopSum(SortByIncome(s)) == PopSum(s)
  {
    if s != [] {
      var rest := SortByIncome(s[1..]);
      PopSumSortInvariant(s[1..]);
      PopSumOfInsert(s[0], rest);
      PopSumOfCons(s[0], s[1..]);
      assert s == [s[0]] + s[1..];
    }
  }

  /** Adding tax columns keeps the head count of the population table. */
  lemma {:induction false} PopSumOfTaxColumns(p: Policy, rows: seq<Row>)
    ensures PopSum(TaxColumns(p, rows)) == PopTotal(rows)
  {
    if rows != [] {
      var n := |rows|;
      assert TaxColumns(p, rows)[..n - 1] == TaxColumns(p, rows[..n - 1]);
      PopSumOfTaxColumns(p, rows[..n - 1]);
    }
  }

  lemma {:induction false} PopSumSameRows(s: seq<TaxedRow>, t: seq<TaxedRow>)
    requires SameRows(s, t)
    ensures PopSum(s) == PopSum(t)
  {
    if s != [] {
      var n := |s|;
      PopSumSameRows(s[..n - 1], t[..n - 1]);
    }
  }

  /** Ranking two tables over the same population rows gives the same head
      counts and the same eligibility, row for row. */
  lemma RankSameRows(target: Target, s: seq<TaxedRow>, t: seq<TaxedRow>)
    requires SameRows(s, t)
    ensures forall i :: 0 <= i < |s| ==>
      Pop(Rank(target, s)[i]) == Pop(Rank(target, t)[i]) && Rank(target, s)[i].eligible == Rank(target, t)[i].eligible
  {
    forall i | 0 <= i < |s|
      ensures Pop(Rank(target, s)[i]) == Pop(Rank(target, t)[i]) && Rank(target, s)[i].eligible == Rank(target, t)[i].eligible
    {
      PopSumSameRows(s[..i + 1], t[..i + 1]);
    }
  }

  /** Equal head counts and equal eligibility give as many recipients. */
  lemma {:induction false} RecipientsSame(a: seq<RankedRow>, b: seq<RankedRow>)
    requires |a| == |b|
    requires forall i :: 0 <= i < |a| ==> Pop(a[i]) == Pop(b[i]) && a[i].eligible == b[i].eligible
    ensures Recipients(a) == Recipients(b)
  {
    if a != [] {
      var n := |a|;
      RecipientsSame(a[..n - 1], b[..n - 1]);
    }
  }
}
