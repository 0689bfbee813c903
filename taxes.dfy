/** The tax columns: VAT on all consumption, luxury tax on luxury
    consumption and a flat income tax, per person and per group, and the
    total revenue they raise. */
module Taxes {
  import opened Levers
  import opened Population

  /** A population-table row with its tax columns. */
  datatype TaxedRow = TaxedRow(row: Row, vatTax: real, luxTax: real, incomeTax: real, totalTaxPerPerson: real, totalTaxGroup: real)

  /** The tax columns of one row under a policy. */
  function TaxRow(p: Policy, r: Row): TaxedRow {
    var vat := p.vatRate * (r.basicCons + r.luxuryCons);
    var lux := p.luxuryTaxRate * r.luxuryCons;
    var income := p.incomeTaxRate * r.avgIncome;
    var perPerson := vat + lux + income;
    TaxedRow(r, vat, lux, income, perPerson, perPerson * r.groupPop as real)
  }

  /** The tax columns of a whole table, row by row. */
  function TaxColumns(p: Policy, rows: seq<Row>): (t: seq<TaxedRow>)
    ensures |t| == |rows|
    ensures forall i :: 0 <= i < |rows| ==> t[i] == TaxRow(p, rows[i])
  {
    if rows == [] then [] else TaxColumns(p, rows[..|rows| - 1]) + [TaxRow(p, rows[|rows| - 1])]
  }

  /** Total tax revenue: the sum of the groups' tax totals. */
  function Revenue(t: seq<TaxedRow>): real {
    if t == [] then 0.0 else Revenue(t[..|t| - 1]) + t[|t| - 1].totalTaxGroup
  }

  /** Each person of a row with non-negative rates pays non-negative VAT,
      luxury tax and income tax, and the per-person total is their sum. */
  lemma TaxComponentsNonNegative(p: Policy, r: Row)
    requires NonNegativeRates(p) && RowWellFormed(r)
    ensures var t := TaxRow(p, r);
      0.0 <= t.vatTax && 0.0 <= t.luxTax && 0.0 <= t.incomeTax
      && t.totalTaxPerPerson == t.vatTax + t.luxTax + t.incomeTax
      && 0.0 <= t.totalTaxGroup
  {
    var t := TaxRow(p, r);
    NonNegativeProduct(p.vatRate, r.basicCons + r.luxuryCons);
    NonNegativeProduct(p.luxuryTaxRate, r.luxuryCons);
    NonNegativeProduct(p.incomeTaxRate, r.avgIncome);
    NonNegativeProduct(t.totalTaxPerPerson, r.groupPop as real);
  }

  /** The revenue of a table is that of all its rows but the last plus the
      last row's group total. */
  lemma RevenueOfLastRow(p: Policy, rows: seq<Row>)
    requires rows != []
    ensures Revenue(TaxColumns(p, rows)) == Revenue(TaxColumns(p, rows[..|rows| - 1])) + TaxRow(p, rows[|rows| - 1]).totalTaxGroup
  {
    var t := TaxColumns(p, rows);
    assert t[..|rows| - 1] == TaxColumns(p, rows[..|rows| - 1]);
  }

  lemma FrontWellFormed(rows: seq<Row>)
    requires AllRowsWellFormed(rows) && rows != []
    ensures AllRowsWellFormed(rows[..|rows| - 1])
  {
    var front := rows[..|rows| - 1];
    forall i | 0 <= i < |front| ensures RowWellFormed(front[i]) {
      assert front[i] == rows[i];
    }
  }

  /** With every rate at zero no row pays anything and the revenue is zero. */
  lemma {:induction false} ZeroRatesNoRevenue(p: Policy, rows: seq<Row>)
    requires p.vatRate == 0.0 && p.luxuryTaxRate == 0.0 && p.incomeTaxRate == 0.0
    ensures Revenue(TaxColumns(p, rows)) == 0.0
  {
    if rows != [] {
      RevenueOfLastRow(p, rows);
      ZeroRatesNoRevenue(p, rows[..|rows| - 1]);
      assert TaxRow(p, rows[|rows| - 1]).totalTaxPerPerson == 0.0;
    }
  }

  lemma ScaleMonotone(a: real, b: real, c: real)
    requires a <= b && 0.0 <= c
    ensures a * c <= b * c
  {
    NonNegativeProduct(b - a, c);
  }

  /** Raising any of the rates, with the others held fixed or raised too,
      never lowers what a well formed row's group pays. */
  lemma GroupTaxMonotone(p: Policy, q: Policy, r: Row)
    requires RatesAtMost(p, q) && RowWellFormed(r)
    ensures TaxRow(p, r).totalTaxGroup <= TaxRow(q, r).totalTaxGroup
  {
    var tp, tq := TaxRow(p, r), TaxRow(q, r);
    assert tp.vatTax <= tq.vatTax by {
      ScaleMonotone(p.vatRate, q.vatRate, r.basicCons + r.luxuryCons);
    }
    assert tp.luxTax <= tq.luxTax by {
      ScaleMonotone(p.luxuryTaxRate, q.luxuryTaxRate, r.luxuryCons);
    }
    assert tp.incomeTax <= tq.incomeTax by {
      ScaleMonotone(p.incomeTaxRate, q.incomeTaxRate, r.avgIncome);
    }
    ScaleMonotone(tp.totalTaxPerPerson, tq.totalTaxPerPerson, r.groupPop as real);
  }

  /** Raising any of the rates, with the others held fixed or raised too,
      never lowers the revenue of a well formed table. */
  lemma {:induction false} RevenueMonotone(p: Policy, q: Policy, rows: seq<Row>)
    requires RatesAtMost(p, q) && AllRowsWellFormed(rows)
    ensures Revenue(TaxColumns(p, rows)) <= Revenue(TaxColumns(q, rows))
  {
    if rows != [] {
      FrontWellFormed(rows);
      RevenueOfLastRow(p, rows);
      RevenueOfLastRow(q, rows);
      RevenueMonotone(p, q, rows[..|rows| - 1]);
      GroupTaxMonotone(p, q, rows[|rows| - 1]);
    }
  }

  /** With non-negative rates a well formed table raises non-negative revenue. */
  lemma {:induction false} RevenueNonNegative(p: Policy, rows: seq<Row>)
    requires NonNegativeRates(p) && AllRowsWellFormed(rows)
    ensures 0.0 <= Revenue(TaxColumns(p, rows))
  {
    if rows != [] {
      FrontWellFormed(rows);
      RevenueOfLastRow(p, rows);
      RevenueNonNegative(p, rows[..|rows| - 1]);
      TaxComponentsNonNegative(p, rows[|rows| - 1]);
    }
  }

  /** The tax columns read only the three rates of a policy. */
  lemma TaxColumnsReadRatesOnly(p: Policy, q: Policy, rows: seq<Row>)
    requires p.vatRate == q.vatRate && p.luxuryTaxRate == q.luxuryTaxRate && p.incomeTaxRate == q.incomeTaxRate
    ensures TaxColumns(p, rows) == TaxColumns(q, rows)
  {
    var a, b := TaxColumns(p, rows), TaxColumns(q, rows);
    forall i | 0 <= i < |rows| ensures a[i] == b[i] {
      TaxRowReadsRatesOnly(p, q, rows[i]);
    }
    assert |a| == |b|;
  }

  lemma TaxRowReadsRatesOnly(p: Policy, q: Policy, r: Row)
    requires p.vatRate == q.vatRate && p.luxuryTaxRate == q.luxuryTaxRate && p.incomeTaxRate == q.incomeTaxRate
    ensures TaxRow(p, r) == TaxRow(q, r)
  {
  }
}
