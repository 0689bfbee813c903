/** The policy levers a user sets: three tax rates, the monthly UBI amount
    and the rule that decides who receives it. */
module Levers {

  /** Who receives UBI: everybody, or only the groups that lie wholly inside
      the poorest half or the poorest fifth of the population. */
  datatype Target = Everyone | Bottom50 | Bottom20

  /** Rates are fractions (a slider's per cent value divided by 100); the
      UBI amount is a whole number of currency units per month. */
  datatype Policy = Policy(vatRate: real, luxuryTaxRate: real, incomeTaxRate: real, ubiMonthly: int, target: Target)

  /** The levers as the page first shows them. */
  const DefaultPolicy: Policy := Policy(0.10, 0.10, 0.15, 800, Everyone)

  /** No tax rate is negative. */
  predicate NonNegativeRates(p: Policy) {
    0.0 <= p.vatRate && 0.0 <= p.luxuryTaxRate && 0.0 <= p.incomeTaxRate
  }

  /** The ranges the sliders allow. */
  predicate InSliderRange(p: Policy) {
    0.0 <= p.vatRate <= 0.30 && 0.0 <= p.luxuryTaxRate <= 0.40 && 0.0 <= p.incomeTaxRate <= 0.40
    && 0 <= p.ubiMonthly <= 2000
  }

  /** Every rate of q is at least the corresponding rate of p. */
  predicate RatesAtMost(p: Policy, q: Policy) {
    p.vatRate <= q.vatRate && p.luxuryTaxRate <= q.luxuryTaxRate && p.incomeTaxRate <= q.incomeTaxRate
  }
}
