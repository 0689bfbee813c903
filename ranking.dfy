/** Ordering the taxed table by average income, poorest group first, as the
    UBI targeting and the inequality ratio require. */
module Ranking {
  import opened Population
  import opened Taxes

  function Income(t: TaxedRow): real {
    t.row.avgIncome
  }

  predicate SortedByIncome(s: seq<TaxedRow>) {
    forall i, j :: 0 <= i < j < |s| ==> Income(s[i]) <= Income(s[j])
  }

  /** Places x before the first row of s whose income is not below its own,
      so that the result starts with the poorer of x and the head of s. */
  function Insert(x: TaxedRow, s: seq<TaxedRow>): (r: seq<TaxedRow>)
    requires SortedByIncome(s)
    ensures |r| == |s| + 1
    ensures r[0] == (if s == [] || Income(x) <= Income(s[0]) then x else s[0])
    ensures SortedByIncome(r)
    ensures multiset(r) == multiset(s) + multiset{x}
  {
    if s == [] || Income(x) <= Income(s[0]) then
      ConsSorted(x, s);
      [x] + s
    else
      var rest := Insert(x, s[1..]);
      ConsSorted(s[0], rest);
      ConsMultiset(s);
      [s[0]] + rest
  }

  /** A row no richer than the head of a sorted table can go in front of it. */
  lemma ConsSorted(a: TaxedRow, s: seq<TaxedRow>)
    requires SortedByIncome(s) && (s == [] || Income(a) <= Income(s[0]))
    ensures SortedByIncome([a] + s)
  {
    var r := [a] + s;
    forall i, j | 0 <= i < j < |r| ensures Income(r[i]) <= Income(r[j]) {
      assert r[j] == s[j - 1];
      if 0 < i {
        assert r[i] == s[i - 1];
      }
    }
  }

  lemma ConsMultiset(s: seq<TaxedRow>)
    requires s != []
    ensures multiset(s) == multiset{s[0]} + multiset(s[1..])
  {
    assert s == [s[0]] + s[1..];
  }

  /** The table ordered by ascending income, by insertion. */
  function SortByIncome(s: seq<TaxedRow>): (r: seq<TaxedRow>)
    ensures |r| == |s|
    ensures SortedByIncome(r)
    ensures multiset(r) == multiset(s)
  {
    if s == [] then []
    else
      assert s == [s[0]] + s[1..];
      Insert(s[0], SortByIncome(s[1..]))
  }

  /** A table that is already in ascending order of income is left as it is. */
  lemma {:induction false} SortSortedIsIdentity(s: seq<TaxedRow>)
    requires SortedByIncome(s)
    ensures SortByIncome(s) == s
  {
    if s != [] {
      assert SortedByIncome(s[1..]);
      SortSortedIsIdentity(s[1..]);
      assert s == [s[0]] + s[1..];
    }
  }

  lemma {:induction false} RevenueOfConcat(a: seq<TaxedRow>, b: seq<TaxedRow>)
    ensures Revenue(a + b) == Revenue(a) + Revenue(b)
  {
    if b != [] {
      var n := |b|;
      assert (a + b)[..|a + b| - 1] == a + b[..n - 1];
      RevenueOfConcat(a, b[..n - 1]);
    } else {
      assert a + b == a;
    }
  }

  lemma RevenueOfCons(x: TaxedRow, s: seq<TaxedRow>)
    ensures Revenue([x] + s) == x.totalTaxGroup + Revenue(s)
  {
    RevenueOfConcat([x], s);
    assert [x][..0] == [];
  }

  lemma {:induction false} RevenueOfInsert(x: TaxedRow, s: seq<TaxedRow>)
    requires SortedByIncome(s)
    ensures Revenue(Insert(x, s)) == x.totalTaxGroup + Revenue(s)
  {
    if s == [] || Income(x) <= Income(s[0]) {
      RevenueOfCons(x, s);
    } else {
      RevenueOfInsert(x, s[1..]);
      RevenueOfCons(s[0], Insert(x, s[1..]));
      RevenueOfCons(s[0], s[1..]);
      assert s == [s[0]] + s[1..];
    }
  }

  /** Sorting the table does not change the revenue it adds up to. */
  lemma {:induction false} RevenueSortInvariant(s: seq<TaxedRow>)
    ensures Revenue(SortByIncome(s)) == Revenue(s)
  {
    if s != [] {
      var rest := SortByIncome(s[1..]);
      RevenueSortInvariant(s[1..]);
      RevenueOfInsert(s[0], rest);
      RevenueOfCons(s[0], s[1..]);
      assert s == [s[0]] + s[1..];
    }
  }

  /** Every row of the sorted table comes from the input table. */
  lemma SortMembers(s: seq<TaxedRow>)
    ensures forall k :: 0 <= k < |SortByIncome(s)| ==> SortByIncome(s)[k] in s
  {
    var r := SortByIncome(s);
    forall k | 0 <= k < |r| ensures r[k] in s {
      assert r[k] in multiset(r);
    }
  }

  /** Two taxed tables over the same population rows, row for row. */
  predicate SameRows(a: seq<TaxedRow>, b: seq<TaxedRow>) {
    |a| == |b| && forall i :: 0 <= i < |a| ==> a[i].row == b[i].row
  }

  lemma ConsSameRows(x: TaxedRow, a: seq<TaxedRow>, y: TaxedRow, b: seq<TaxedRow>)
    requires x.row == y.row && SameRows(a, b)
    ensures SameRows([x] + a, [y] + b)
  {
    forall i | 0 <= i < |a| + 1 ensures ([x] + a)[i].row == ([y] + b)[i].row {
      if 0 < i {
        assert ([x] + a)[i] == a[i - 1] && ([y] + b)[i] == b[i - 1];
      }
    }
  }

  lemma TailSameRows(s: seq<TaxedRow>, t: seq<TaxedRow>)
    requires SameRows(s, t) && s != []
    ensures SameRows(s[1..], t[1..])
  {
    forall i | 0 <= i < |s| - 1 ensures s[1..][i].row == t[1..][i].row {
      assert s[1..][i] == s[i + 1] && t[1..][i] == t[i + 1];
    }
  }

  lemma {:induction false} InsertSameRows(x: TaxedRow, s: seq<TaxedRow>, y: TaxedRow, t: seq<TaxedRow>)
    requires SortedByIncome(s) && SortedByIncome(t)
    requires x.row == y.row && SameRows(s, t)
    ensures SameRows(Insert(x, s), Insert(y, t))
  {
    if s == [] || Income(x) <= Income(s[0]) {
      ConsSameRows(x, s, y, t);
    } else {
      TailSameRows(s, t);
      InsertSameRows(x, s[1..], y, t[1..]);
      ConsSameRows(s[0], Insert(x, s[1..]), t[0], Insert(y, t[1..]));
    }
  }

  /** The order the sort produces depends only on the population rows, not on
      the tax columns beside them. */
  lemma {:induction false} SortSameRows(s: seq<TaxedRow>, t: seq<TaxedRow>)
    requires SameRows(s, t)
    ensures SameRows(SortByIncome(s), SortByIncome(t))
  {
    if s != [] {
      SortSameRows(s[1..], t[1..]);
      InsertSameRows(s[0], SortByIncome(s[1..]), t[0], SortByIncome(t[1..]));
    }
  }
}
