/** The dashboard's nine pieces of state, each changed on its own by an input
    handler, and the metrics read off them. */
module DashboardState {
  import opened Wrappers
  import opened Derivation
  import opened InputClamps

  class Dashboard {
    var monthlyPrice: int
    var yearlyPrice: int
    var conversionRate: real
    var profitMargin: real
    var retentionMonths: int
    var yearlyRetentionYears: int
    var yearlyRatio: real
    var impressions: int
    var appStoreCut: real

    /** The current assumptions as one value. */
    function Current(): Assumptions
      reads this
    {
      Assumptions(monthlyPrice, yearlyPrice, conversionRate, profitMargin,
                  retentionMonths, yearlyRetentionYears, yearlyRatio, impressions, appStoreCut)
    }

    /** What every handler keeps true. */
    predicate Valid()
      reads this
    {
      InRange(Current())
    }

    constructor ()
      ensures Valid() && Current() == Defaults()
    {
      monthlyPrice, yearlyPrice := 5, 30;
      conversionRate, profitMargin := 0.0005, 0.7;
      retentionMonths, yearlyRetentionYears := 1, 1;
      yearlyRatio, impressions, appStoreCut := 0.6, 1000, 0.3;
    }

    method SetMonthlyPrice(parsed: Option<int>)
      requires Valid()
      modifies this
      ensures Valid()
      ensures Current() == old(Current()).(monthlyPrice := PriceOrZero(parsed))
    {
      monthlyPrice := PriceOrZero(parsed);
    }

    method SetYearlyPrice(parsed: Option<int>)
      requires Valid()
      modifies this
      ensures Valid()
      ensures Current() == old(Current()).(yearlyPrice := PriceOrZero(parsed))
    {
      yearlyPrice := PriceOrZero(parsed);
    }

    /** The conversion slider runs from 0.01% to 1% and stores its value as
        it is. */
    method SetConversionRate(position: real)
      requires Valid()
      requires 0.0001 <= position <= 0.01
      modifies this
      ensures Valid()
      ensures Current() == old(Current()).(conversionRate := position)
    {
      conversionRate := position;
    }

    /** The ratio slider runs from 0 to 100. */
    method SetYearlyRatio(position: real)
      requires Valid()
      requires 0.0 <= position <= 100.0
      modifies this
      ensures Valid()
      ensures Current() == old(Current()).(yearlyRatio := RatioFromSlider(position))
    {
      yearlyRatio := RatioFromSlider(position);
    }

    method SetImpressions(parsed: Option<int>)
      requires Valid()
      modifies this
      ensures Valid()
      ensures Current() == old(Current()).(impressions := AtLeastOne(parsed))
    {
      impressions := AtLeastOne(parsed);
    }

    method SetProfitMargin(parsed: Option<int>)
      requires Valid()
      modifies this
      ensures Valid()
      ensures Current() == old(Current()).(profitMargin := PercentAtLeastOne(parsed))
    {
      profitMargin := PercentAtLeastOne(parsed);
    }

    method SetRetentionMonths(parsed: Option<int>)
      requires Valid()
      modifies this
      ensures Valid()
      ensures Current() == old(Current()).(retentionMonths := AtLeastOne(parsed))
    {
      retentionMonths := AtLeastOne(parsed);
    }

    method SetYearlyRetentionYears(parsed: Option<int>)
      requires Valid()
      modifies this
      ensures Valid()
      ensures Current() == old(Current()).(yearlyRetentionYears := AtLeastOne(parsed))
    {
      yearlyRetentionYears := AtLeastOne(parsed);
    }

    method SetAppStoreCut(parsed: Option<int>)
      requires Valid()
      modifies this
      ensures Valid()
      ensures Current() == old(Current()).(appStoreCut := PercentAtLeastOne(parsed))
    {
      appStoreCut := PercentAtLeastOne(parsed);
    }

    /** The six derived values as the screen shows them after any sequence
        of edits: there is always a positive number of subscribers, the plans
        share them out exactly, and revenue and profit follow from the
        lifetime value by the store cut and the margin. */
    function Derived(): (m: Metrics)
      reads this
      requires Valid()
      ensures m == Derive(Current())
      ensures m.totalSubscribers > 0.0
      ensures m.monthlySubs + m.yearlySubs == m.totalSubscribers
      ensures 0.0 <= m.monthlySubs <= m.totalSubscribers && 0.0 <= m.yearlySubs <= m.totalSubscribers
      ensures m.revenue == m.clv * (1.0 - appStoreCut)
      ensures m.profit == m.revenue * profitMargin
    {
      MulPositive(impressions as real, conversionRate);
      SplitConservesTotal(TotalSubscribers(impressions, conversionRate), yearlyRatio);
      RevenueIsDiscountedClv(Current());
      Derive(Current())
    }
  }

  /** Typing 150 into the store cut field is accepted, leaves every handler
      range intact, and turns the default screen's revenue negative. */
  lemma StoreCutAboveWholeGivesNegativeRevenue()
    ensures var a := Defaults().(appStoreCut := PercentAtLeastOne(Some(150)));
      InRange(a) && Derive(a).revenue < 0.0
  {
  }
}
