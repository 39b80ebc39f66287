/** The derived-metrics engine of the dashboard: six values recomputed from
    the nine assumptions whenever one of them changes. Numbers are reals, so
    floating-point rounding is not part of the model. */
module Derivation {

  /** The nine inputs of the dashboard. Prices, retention lengths and the
      impression count are whole numbers (they are only ever set from
      parseInt or from whole-number defaults); the others are fractions. */
  datatype Assumptions = Assumptions(
    monthlyPrice: int,
    yearlyPrice: int,
    conversionRate: real,
    profitMargin: real,
    retentionMonths: int,
    yearlyRetentionYears: int,
    yearlyRatio: real,
    impressions: int,
    appStoreCut: real)

  /** The six values shown by the charts and the formula panels. */
  datatype Metrics = Metrics(
    totalSubscribers: real,
    monthlySubs: real,
    yearlySubs: real,
    revenue: real,
    clv: real,
    profit: real)

  /** The state the screen starts in. */
  function Defaults(): (d: Assumptions)
    ensures InRange(d)
  {
    Assumptions(5, 30, 0.0005, 0.7, 1, 1, 0.6, 1000, 0.3)
  }

  /** The ranges the input handlers keep the assumptions in. The prices have
      no range at all, and the margin and the store cut have no upper bound. */
  predicate InRange(a: Assumptions) {
    0.0001 <= a.conversionRate <= 0.01 &&
    0.0 <= a.yearlyRatio <= 1.0 &&
    a.impressions >= 1 &&
    a.retentionMonths >= 1 && a.yearlyRetentionYears >= 1 &&
    a.profitMargin >= 0.01 && a.appStoreCut >= 0.01
  }

  function TotalSubscribers(impressions: int, conversionRate: real): real {
    (impressions as real) * conversionRate
  }

  function MonthlySubs(totalSubscribers: real, yearlyRatio: real): real {
    totalSubscribers * (1.0 - yearlyRatio)
  }

  function YearlySubs(totalSubscribers: real, yearlyRatio: real): real {
    totalSubscribers * yearlyRatio
  }

  /** Gross lifetime value over both plans, before the store takes its cut. */
  function Clv(monthlySubs: real, monthlyPrice: int, retentionMonths: int,
               yearlySubs: real, yearlyPrice: int, yearlyRetentionYears: int): real
  {
    (monthlySubs * (monthlyPrice as real) * (retentionMonths as real))
      + (yearlySubs * (yearlyPrice as real) * (yearlyRetentionYears as real))
  }

  /** Revenue is written out on its own in the dashboard: the same sum as
      the lifetime value, times the share the store leaves. */
  function Revenue(monthlySubs: real, monthlyPrice: int, retentionMonths: int,
                   yearlySubs: real, yearlyPrice: int, yearlyRetentionYears: int,
                   appStoreCut: real): (r: real)
    ensures r == Clv(monthlySubs, monthlyPrice, retentionMonths,
                     yearlySubs, yearlyPrice, yearlyRetentionYears) * (1.0 - appStoreCut)
  {
    (monthlySubs * (monthlyPrice as real) * (retentionMonths as real)
      + yearlySubs * (yearlyPrice as real) * (yearlyRetentionYears as real))
      * (1.0 - appStoreCut)
  }

  function Profit(revenue: real, profitMargin: real): real {
    revenue * profitMargin
  }

  /** All six derived values, each recomputed from the current assumptions. */
  function Derive(a: Assumptions): Metrics {
    var total := TotalSubscribers(a.impressions, a.conversionRate);
    var monthly := MonthlySubs(total, a.yearlyRatio);
    var yearly := YearlySubs(total, a.yearlyRatio);
    var revenue := Revenue(monthly, a.monthlyPrice, a.retentionMonths,
                           yearly, a.yearlyPrice, a.yearlyRetentionYears, a.appStoreCut);
    var clv := Clv(monthly, a.monthlyPrice, a.retentionMonths,
                   yearly, a.yearlyPrice, a.yearlyRetentionYears);
    Metrics(total, monthly, yearly, revenue, clv, Profit(revenue, a.profitMargin))
  }

  /** Lifetime value of one converted user, weighted by the plan mix. */
  function ValuePerSubscriber(a: Assumptions): real {
    (1.0 - a.yearlyRatio) * (a.monthlyPrice as real) * (a.retentionMonths as real)
      + a.yearlyRatio * (a.yearlyPrice as real) * (a.yearlyRetentionYears as real)
  }

  // ---------------------------------------------------------------------
  // Multiplication facts over reals that the solver does not find alone.

  lemma MulNonNegative(x: real, y: real)
    requires x >= 0.0 && y >= 0.0
    ensures x * y >= 0.0
  {
  }

  lemma MulPositive(x: real, y: real)
    requires x > 0.0 && y > 0.0
    ensures x * y > 0.0
  {
  }

  /** Scaling a strict inequality keeps it exactly when the factor is positive. */
  lemma ScaleStrict(x: real, y: real, k: real)
    requires x < y
    ensures x * k < y * k <==> k > 0.0
  {
  }

  /** A positive amount times a factor is positive exactly when the factor is. */
  lemma PositiveTimes(d: real, k: real)
    requires d > 0.0
    ensures d * k > 0.0 <==> k > 0.0
  {
  }

  /** Two amounts that are the same multiple of a smaller and a larger
      total are ordered the same way exactly when the multiple is positive. */
  lemma GrowsWithTotal(fewer: real, more: real, k: real, lo: real, hi: real)
    requires fewer < more && lo == fewer * k && hi == more * k
    ensures lo < hi <==> k > 0.0
  {
    ScaleStrict(fewer, more, k);
  }

  /** ... and the larger total gives the smaller amount exactly when the
      multiple is negative. */
  lemma ShrinksWithTotal(fewer: real, more: real, k: real, lo: real, hi: real)
    requires fewer < more && lo == fewer * k && hi == more * k
    ensures hi < lo <==> k < 0.0
  {
    assert fewer * -k == -lo && more * -k == -hi;
    ScaleStrict(fewer, more, -k);
  }

  /** The same for amounts that are a multiple of such amounts in turn. */
  lemma GrowsWithTotalTwice(fewer: real, more: real, k: real, m: real,
                            lo: real, hi: real, loTwice: real, hiTwice: real)
    requires fewer < more && lo == fewer * k && hi == more * k
    requires loTwice == lo * m && hiTwice == hi * m
    ensures loTwice < hiTwice <==> k * m > 0.0
  {
    GrowsWithTotal(fewer, more, k * m, loTwice, hiTwice);
  }

  // ---------------------------------------------------------------------
  // Properties of the derivation.

  /** The plan split neither creates nor loses subscribers, and with a ratio
      in [0, 1] each plan gets a share between nothing and everyone. */
  lemma SplitConservesTotal(totalSubscribers: real, yearlyRatio: real)
    ensures MonthlySubs(totalSubscribers, yearlyRatio) + YearlySubs(totalSubscribers, yearlyRatio)
            == totalSubscribers
    ensures 0.0 <= yearlyRatio <= 1.0 && totalSubscribers >= 0.0 ==>
              0.0 <= MonthlySubs(totalSubscribers, yearlyRatio) <= totalSubscribers &&
              0.0 <= YearlySubs(totalSubscribers, yearlyRatio) <= totalSubscribers
  {
  }

  /** The lifetime value is the subscriber count times the value of one
      subscriber. */
  lemma ClvIsTotalTimesValue(a: Assumptions)
    ensures Derive(a).clv == Derive(a).totalSubscribers * ValuePerSubscriber(a)
  {
  }

  /** Revenue is exactly the lifetime value discounted by the store cut. */
  lemma RevenueIsDiscountedClv(a: Assumptions)
    ensures Derive(a).revenue == Derive(a).clv * (1.0 - a.appStoreCut)
    ensures Derive(a).clv >= 0.0 && a.appStoreCut >= 0.0 ==> Derive(a).revenue <= Derive(a).clv
    ensures Derive(a).clv > 0.0 ==> (Derive(a).revenue >= 0.0 <==> a.appStoreCut <= 1.0)
  {
  }

  /** Profit is the margin's share of revenue and depends on nothing else. */
  lemma ProfitIsMarginOfRevenue(a: Assumptions, b: Assumptions)
    ensures Derive(a).profit == Derive(a).revenue * a.profitMargin
    ensures Derive(a).revenue == Derive(b).revenue && a.profitMargin == b.profitMargin ==>
              Derive(a).profit == Derive(b).profit
    ensures Derive(a).revenue >= 0.0 && 0.0 <= a.profitMargin <= 1.0 ==>
              0.0 <= Derive(a).profit <= Derive(a).revenue
  {
  }

  /** With the handlers' ranges and prices that are not negative, one
      subscriber is worth something non-negative. */
  lemma ValuePerSubscriberNonNegative(a: Assumptions)
    requires InRange(a) && a.monthlyPrice >= 0 && a.yearlyPrice >= 0
    ensures ValuePerSubscriber(a) >= 0.0
  {
    var mp, rm := a.monthlyPrice as real, a.retentionMonths as real;
    var yp, yr := a.yearlyPrice as real, a.yearlyRetentionYears as real;
    MulNonNegative(1.0 - a.yearlyRatio, mp);
    MulNonNegative((1.0 - a.yearlyRatio) * mp, rm);
    MulNonNegative(a.yearlyRatio, yp);
    MulNonNegative(a.yearlyRatio * yp, yr);
  }

  /** Under the handlers' ranges, with prices that are not negative and a
      store cut of at most the whole, every derived value is non-negative
      and each deduction only shrinks the amount. */
  lemma MetricsNonNegative(a: Assumptions)
    requires InRange(a) && a.monthlyPrice >= 0 && a.yearlyPrice >= 0
    requires a.appStoreCut <= 1.0 && a.profitMargin <= 1.0
    ensures var m := Derive(a);
      m.totalSubscribers > 0.0 &&
      0.0 <= m.monthlySubs <= m.totalSubscribers &&
      0.0 <= m.yearlySubs <= m.totalSubscribers &&
      0.0 <= m.profit <= m.revenue <= m.clv
  {
    var m := Derive(a);
    MulPositive(a.impressions as real, a.conversionRate);
    SplitConservesTotal(m.totalSubscribers, a.yearlyRatio);
    ClvIsTotalTimesValue(a);
    ValuePerSubscriberNonNegative(a);
    MulNonNegative(m.totalSubscribers, ValuePerSubscriber(a));
    RevenueIsDiscountedClv(a);
    MulNonNegative(m.clv, 1.0 - a.appStoreCut);
    ProfitIsMarginOfRevenue(a, a);
  }

  /** Every derived value past the subscriber count is that count times a
      factor that does not depend on the impressions. */
  lemma Factored(a: Assumptions)
    ensures var m, v, c := Derive(a), ValuePerSubscriber(a), 1.0 - a.appStoreCut;
      m.monthlySubs == m.totalSubscribers * (1.0 - a.yearlyRatio) &&
      m.yearlySubs == m.totalSubscribers * a.yearlyRatio &&
      m.clv == m.totalSubscribers * v &&
      m.revenue == m.totalSubscribers * (v * c) &&
      m.profit == m.totalSubscribers * (v * c * a.profitMargin)
  {
  }

  /** Of two subscriber counts, the larger gives the larger share to a plan
      exactly when that plan's share of users is positive. */
  lemma SplitMonotone(fewer: real, more: real, yearlyRatio: real)
    requires fewer < more
    ensures MonthlySubs(fewer, yearlyRatio) < MonthlySubs(more, yearlyRatio) <==> yearlyRatio < 1.0
    ensures YearlySubs(fewer, yearlyRatio) < YearlySubs(more, yearlyRatio) <==> yearlyRatio > 0.0
  {
    var d := more - fewer;
    assert MonthlySubs(more, yearlyRatio) - MonthlySubs(fewer, yearlyRatio) == d * (1.0 - yearlyRatio);
    PositiveTimes(d, 1.0 - yearlyRatio);
    assert YearlySubs(more, yearlyRatio) - YearlySubs(fewer, yearlyRatio) == d * yearlyRatio;
    PositiveTimes(d, yearlyRatio);
  }

  /** More impressions bring strictly more subscribers whenever some of them
      convert, and each plan's count grows exactly when the plan gets a
      share of them. */
  lemma {:induction false} SubscribersMonotoneInImpressions(a: Assumptions, fewer: int, more: int)
    requires fewer < more && a.conversionRate > 0.0
    ensures var lo, hi := Derive(a.(impressions := fewer)), Derive(a.(impressions := more));
      lo.totalSubscribers < hi.totalSubscribers &&
      (lo.monthlySubs < hi.monthlySubs <==> a.yearlyRatio < 1.0) &&
      (lo.yearlySubs < hi.yearlySubs <==> a.yearlyRatio > 0.0)
  {
    var lo, hi := Derive(a.(impressions := fewer)), Derive(a.(impressions := more));
    var t1, t2 := lo.totalSubscribers, hi.totalSubscribers;
    assert t1 == (fewer as real) * a.conversionRate && t2 == (more as real) * a.conversionRate;
    ScaleStrict(fewer as real, more as real, a.conversionRate);
    SplitMonotone(t1, t2, a.yearlyRatio);
  }

  /** More impressions raise the lifetime value strictly exactly when one
      subscriber is worth something: with both prices at zero it stays flat,
      and with a negative price mix it falls. */
  lemma {:induction false} ClvMonotoneInImpressions(a: Assumptions, fewer: int, more: int)
    requires fewer < more && a.conversionRate > 0.0
    ensures Derive(a.(impressions := fewer)).clv < Derive(a.(impressions := more)).clv
            <==> ValuePerSubscriber(a) > 0.0
  {
    var a1, a2 := a.(impressions := fewer), a.(impressions := more);
    assert ValuePerSubscriber(a1) == ValuePerSubscriber(a2) == ValuePerSubscriber(a);
    SubscribersMonotoneInImpressions(a, fewer, more);
    Factored(a1);
    Factored(a2);
    GrowsWithTotal(Derive(a1).totalSubscribers, Derive(a2).totalSubscribers,
                   ValuePerSubscriber(a), Derive(a1).clv, Derive(a2).clv);
  }

  /** More impressions raise revenue strictly exactly when one subscriber's
      value after the store cut is positive: a cut of 100% keeps it flat, a
      cut above 100% makes it fall. */
  lemma {:induction false} RevenueMonotoneInImpressions(a: Assumptions, fewer: int, more: int)
    requires fewer < more && a.conversionRate > 0.0
    ensures Derive(a.(impressions := fewer)).revenue < Derive(a.(impressions := more)).revenue
            <==> ValuePerSubscriber(a) * (1.0 - a.appStoreCut) > 0.0
  {
    var a1, a2 := a.(impressions := fewer), a.(impressions := more);
    assert ValuePerSubscriber(a1) == ValuePerSubscriber(a2) == ValuePerSubscriber(a);
    SubscribersMonotoneInImpressions(a, fewer, more);
    Factored(a1);
    Factored(a2);
    GrowsWithTotal(Derive(a1).totalSubscribers, Derive(a2).totalSubscribers,
                   ValuePerSubscriber(a) * (1.0 - a.appStoreCut), Derive(a1).revenue, Derive(a2).revenue);
  }

  /** More impressions make revenue fall strictly exactly when one
      subscriber's value after the store cut is negative: with a subscriber
      worth something, exactly when the cut is above 100%. */
  lemma {:induction false} RevenueFallsWithImpressions(a: Assumptions, fewer: int, more: int)
    requires fewer < more && a.conversionRate > 0.0
    ensures Derive(a.(impressions := more)).revenue < Derive(a.(impressions := fewer)).revenue
            <==> ValuePerSubscriber(a) * (1.0 - a.appStoreCut) < 0.0
    ensures ValuePerSubscriber(a) > 0.0 ==>
              (Derive(a.(impressions := more)).revenue < Derive(a.(impressions := fewer)).revenue
               <==> a.appStoreCut > 1.0)
  {
    var a1, a2 := a.(impressions := fewer), a.(impressions := more);
    var v, c := ValuePerSubscriber(a), 1.0 - a.appStoreCut;
    assert ValuePerSubscriber(a1) == ValuePerSubscriber(a2) == v;
    SubscribersMonotoneInImpressions(a, fewer, more);
    Factored(a1);
    Factored(a2);
    ShrinksWithTotal(Derive(a1).totalSubscribers, Derive(a2).totalSubscribers,
                     v * c, Derive(a1).revenue, Derive(a2).revenue);
    if v > 0.0 {
      assert v * c < 0.0 <==> c < 0.0 by {
        PositiveTimes(v, -c);
      }
    }
  }

  /** More impressions raise profit strictly exactly when one subscriber's
      value after the store cut and the margin is positive. */
  lemma {:induction false} ProfitMonotoneInImpressions(a: Assumptions, fewer: int, more: int)
    requires fewer < more && a.conversionRate > 0.0
    ensures Derive(a.(impressions := fewer)).profit < Derive(a.(impressions := more)).profit
            <==> ValuePerSubscriber(a) * (1.0 - a.appStoreCut) * a.profitMargin > 0.0
  {
    var a1, a2 := a.(impressions := fewer), a.(impressions := more);
    assert ValuePerSubscriber(a1) == ValuePerSubscriber(a2) == ValuePerSubscriber(a);
    SubscribersMonotoneInImpressions(a, fewer, more);
    Factored(a1);
    Factored(a2);
    var k := ValuePerSubscriber(a) * (1.0 - a.appStoreCut);
    GrowsWithTotalTwice(Derive(a1).totalSubscribers, Derive(a2).totalSubscribers, k, a.profitMargin,
                        Derive(a1).revenue, Derive(a2).revenue, Derive(a1).profit, Derive(a2).profit);
  }

  /** The starting screen: 1000 impressions at 0.05% give half a subscriber,
      split 0.2 monthly and 0.3 yearly. */
  lemma DefaultMetrics()
    ensures InRange(Defaults())
    ensures Derive(Defaults()) == Metrics(0.5, 0.2, 0.3, 7.0, 10.0, 4.9)
  {
  }

  /** When every user takes the yearly plan, the monthly count stays at zero
      however many impressions there are, so not every value grows with
      impressions. */
  lemma AllYearlyKeepsMonthlyFlat(a: Assumptions)
    requires a.yearlyRatio == 1.0
    ensures Derive(a).monthlySubs == 0.0
  {
  }

  /** The prices are not range-checked, and a negative one passes through to
      a negative lifetime value even within every other range. */
  lemma NegativePriceGivesNegativeClv()
    ensures var a := Defaults().(monthlyPrice := -5, yearlyPrice := -30);
      InRange(a) && Derive(a).clv < 0.0
  {
  }
}
