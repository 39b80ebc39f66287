# Marketing projection dashboard: derived metrics

The repository is one React screen, `components/Dashboard.tsx`. It turns nine
business assumptions into six derived metrics and charts them. The
assumptions are two subscription prices, a conversion rate, a profit margin,
two retention lengths, the share of users choosing the yearly plan, an
impression count and the app-store cut. The metrics are total, monthly and
yearly subscribers, revenue, customer lifetime value (CLV) and profit.

This project models the two parts of the screen that compute:

- **The derivation** (`derivation.dfy`, module `Derivation`). Each of the six
  memoised expressions is a function over an `Assumptions` value, and
  `Derive` gives all six as a `Metrics` value. Numbers are Dafny `real`s.
  Prices, retention lengths and impressions are `int`s, because only
  `parseInt` or a whole-number default ever sets them.
- **The input handlers** (`input_clamps.dfy`, module `InputClamps`). They
  turn the result of `parseInt` into the stored value. That result is an
  `Option<int>` (`wrappers.dfy`), and `None` stands for NaN. JavaScript's
  `x || d` is written out: NaN and 0 are both falsy, so both give way to the
  default. `Math.max` and `Math.round` are written out too.
- **The state** (`dashboard_state.dfy`, class `DashboardState.Dashboard`).
  The class has the nine fields, which start at the screen's defaults. Each
  field has a setter that applies its handler and changes only that field.
  `Valid()` holds the ranges the handlers establish.

The slider handlers store what the slider reports. The slider's own
`min`/`max` props are what keep the value in range, so that range is a
precondition of the setter. The setter does not clamp it.

The handlers enforce less than the field labels and the formula panels
suggest:
- The margin and the store cut are labelled as percentages, but the handlers
  only enforce a lower bound of 0.01. Typing 150 stores 1.5, and, whenever
  the lifetime value is positive, a store cut above the whole makes revenue
  negative (with both prices at 0 revenue stays 0, and with negative prices
  it turns positive).
- The price handler passes a negative `parseInt` result through unchanged,
  so nothing keeps a price non-negative.
- More impressions do not raise every metric. Only the total always grows
  strictly (given a positive conversion rate). Each other metric grows
  strictly exactly when the factor that multiplies the total is positive.
  The monthly count stays at 0 when every user takes the yearly plan.
  Revenue falls with more impressions exactly when one subscriber's value
  times (1 - store cut) is negative. For a subscriber worth something, that
  means a store cut above 100%. With both prices at 0, revenue stays flat
  whatever the cut.

## Model

| member | source | states |
|---|---|---|
| Derivation.Defaults | components/Dashboard.tsx:11-19 | the nine starting values; they lie within every handler range |
| Derivation.TotalSubscribers | components/Dashboard.tsx:21 | impressions times the conversion rate; how it grows with impressions is stated by SubscribersMonotoneInImpressions |
| Derivation.MonthlySubs | components/Dashboard.tsx:22 | the total times (1 - yearly ratio); that it and the yearly count share out the total is stated by SplitConservesTotal |
| Derivation.YearlySubs | components/Dashboard.tsx:23 | the total times the yearly ratio; its bounds and growth are stated by SplitConservesTotal and SplitMonotone |
| Derivation.Revenue | components/Dashboard.tsx:24 | line 24's own sum, as written there, equals the lifetime value of line 25 times (1 - store cut) |
| Derivation.Clv | components/Dashboard.tsx:25 | the sum over both plans of subscribers times price times retention; ClvIsTotalTimesValue states it as total times value per subscriber |
| Derivation.Profit | components/Dashboard.tsx:26 | revenue times the margin; ProfitIsMarginOfRevenue states its bounds and that it depends on nothing else |
| Derivation.Derive | components/Dashboard.tsx:21-26 | all six values recomputed from the current assumptions; the lemmas below state their relations |
| Derivation.SplitConservesTotal | components/Dashboard.tsx:21-23 | monthly plus yearly subscribers is exactly the total; with a ratio in [0, 1] and a non-negative total, each part lies between 0 and the total |
| Derivation.SplitMonotone | components/Dashboard.tsx:22-23 | for a larger total, the monthly share is larger exactly when the ratio is below 1, and the yearly share exactly when the ratio is above 0 |
| Derivation.ClvIsTotalTimesValue | components/Dashboard.tsx:21-25 | the CLV is the total subscriber count times the plan-weighted value of one subscriber |
| Derivation.RevenueIsDiscountedClv | components/Dashboard.tsx:24-25 | revenue equals CLV times (1 - store cut); it is at most the CLV when the CLV and the cut are non-negative; for a positive CLV it is non-negative exactly when the cut is at most 1 |
| Derivation.ProfitIsMarginOfRevenue | components/Dashboard.tsx:26 | profit is revenue times the margin; two states with the same revenue and margin have the same profit; with a margin in [0, 1] and non-negative revenue, profit lies between 0 and revenue |
| Derivation.Factored | components/Dashboard.tsx:21-26 | every metric after the total is the total times a factor that does not involve impressions |
| Derivation.ValuePerSubscriberNonNegative | components/Dashboard.tsx:24-25 | within the handler ranges and with non-negative prices, one subscriber's lifetime value is non-negative |
| Derivation.MetricsNonNegative | components/Dashboard.tsx:21-26 | within the handler ranges, with non-negative prices and a cut and margin of at most 1: the total is positive, each plan's share is between 0 and the total, and 0 <= profit <= revenue <= CLV |
| Derivation.SubscribersMonotoneInImpressions | components/Dashboard.tsx:21-23 | with a positive conversion rate, more impressions give a strictly larger total; the monthly count grows exactly when the ratio is below 1, the yearly count exactly when it is above 0 |
| Derivation.ClvMonotoneInImpressions | components/Dashboard.tsx:21-25 | with a positive conversion rate, more impressions give a strictly larger CLV exactly when one subscriber's plan-weighted value is positive |
| Derivation.RevenueMonotoneInImpressions | components/Dashboard.tsx:21-24 | with a positive conversion rate, more impressions give strictly larger revenue exactly when one subscriber's value times (1 - store cut) is positive |
| Derivation.RevenueFallsWithImpressions | components/Dashboard.tsx:21-24 | with a positive conversion rate, more impressions give strictly smaller revenue exactly when one subscriber's value times (1 - store cut) is negative; for a subscriber worth something, exactly when the cut is above 100% |
| Derivation.ProfitMonotoneInImpressions | components/Dashboard.tsx:21-26 | with a positive conversion rate, more impressions give strictly larger profit exactly when one subscriber's value times (1 - store cut) times the margin is positive |
| Derivation.DefaultMetrics | components/Dashboard.tsx:11-26 | the default state is within the handler ranges, and it gives total 0.5, monthly 0.2, yearly 0.3, CLV 10, revenue 7, profit 4.9 |
| Derivation.AllYearlyKeepsMonthlyFlat | components/Dashboard.tsx:22 | with a yearly ratio of 1 the monthly count is 0 for any number of impressions |
| Derivation.NegativePriceGivesNegativeClv | components/Dashboard.tsx:59-68 | negative prices satisfy every handler range and give a negative CLV, so a non-negative price has to be a precondition |
| InputClamps.AtLeastOne | components/Dashboard.tsx:112 | the impressions handler (and the retention handlers at lines 142 and 153) always stores an integer of at least 1; a parse failure, 0 or a negative number gives exactly 1; a number of at least 1 is stored unchanged |
| InputClamps.AtLeastOneIdempotent | components/Dashboard.tsx:142 | entering a stored count again stores the same count |
| InputClamps.PercentAtLeastOne | components/Dashboard.tsx:131 | the margin handler (and the store cut handler at line 163) always stores at least 0.01; a parse failure, 0 or a negative number gives exactly 0.01; n >= 1 gives n / 100 |
| InputClamps.PercentShown | components/Dashboard.tsx:130 | the margin and store cut fields (also line 162) show the whole percent nearest to the stored fraction, halves rounded up |
| InputClamps.PercentShownRoundTrip | components/Dashboard.tsx:130-131 | a whole percent n >= 1 typed into the field is shown back as n by the rounded display |
| InputClamps.PercentAtLeastOneIdempotent | components/Dashboard.tsx:162-163 | typing in the percent that the field shows stores the same fraction again |
| InputClamps.PercentHasNoUpperBound | components/Dashboard.tsx:163 | any typed percent above 100 is stored as a fraction above 1 |
| InputClamps.PriceOrZero | components/Dashboard.tsx:59 | the price handler (and the one at line 68) stores the parsed number as it is, so 0 stays 0, and stores 0 on a parse failure |
| InputClamps.PriceOrZeroIdempotent | components/Dashboard.tsx:68 | entering a stored price again stores the same price; a negative price is stored as negative |
| InputClamps.SliderPosition | components/Dashboard.tsx:96 | the slider position shown for a stored ratio is the ratio times 100: dividing it by 100 gives the ratio back, and a ratio in [0, 1] shows in [0, 100] |
| InputClamps.RatioFromSlider | components/Dashboard.tsx:97 | the stored ratio, shown on the slider, is the slider position again; a position in [0, 100] gives a ratio in [0, 1] |
| InputClamps.SliderRoundTrip | components/Dashboard.tsx:96-97 | converting a ratio to its slider position and back gives the same ratio |
| DashboardState.Dashboard.constructor | components/Dashboard.tsx:11-19 | the screen starts at the default assumptions, which are within the handler ranges |
| DashboardState.Dashboard.SetMonthlyPrice | components/Dashboard.tsx:59 | stores the price handler's result in the monthly price and changes nothing else |
| DashboardState.Dashboard.SetYearlyPrice | components/Dashboard.tsx:68 | stores the price handler's result in the yearly price and changes nothing else |
| DashboardState.Dashboard.SetConversionRate | components/Dashboard.tsx:84-86 | stores the slider value, which lies in [0.0001, 0.01], and changes nothing else |
| DashboardState.Dashboard.SetYearlyRatio | components/Dashboard.tsx:96-99 | stores the slider position divided by 100, a ratio in [0, 1], and changes nothing else |
| DashboardState.Dashboard.SetImpressions | components/Dashboard.tsx:112 | stores the at-least-1 clamp of the parsed number and changes nothing else |
| DashboardState.Dashboard.SetProfitMargin | components/Dashboard.tsx:131 | stores the at-least-1% clamp of the parsed percent and changes nothing else |
| DashboardState.Dashboard.SetRetentionMonths | components/Dashboard.tsx:142 | stores the at-least-1 clamp of the parsed number and changes nothing else |
| DashboardState.Dashboard.SetYearlyRetentionYears | components/Dashboard.tsx:153 | stores the at-least-1 clamp of the parsed number and changes nothing else |
| DashboardState.Dashboard.SetAppStoreCut | components/Dashboard.tsx:163 | stores the at-least-1% clamp of the parsed percent and changes nothing else |
| DashboardState.Dashboard.Derived | components/Dashboard.tsx:21-26 | the six values of the current state; after any sequence of edits the total is positive, the plans share it out exactly, revenue is CLV times (1 - cut), and profit is revenue times the margin |
| DashboardState.StoreCutAboveWholeGivesNegativeRevenue | components/Dashboard.tsx:163 | typing 150 into the store cut field is accepted within every handler range and makes the default screen's revenue negative |

## Left out

- JSX layout, the card, input, slider and chart wrappers, and the recharts components (lines 42-306). They are presentation over libraries that are not part of this model.
- String formatting with `toFixed`, `toLocaleString` and the percent labels. These are display only. The one display step that feeds back into input is `Math.round(x * 100)` in the margin and store cut fields, and it is modelled (`InputClamps.PercentShown`).
- The chart data arrays `subscriberData`, `revenueData` and `profitData` (lines 28-40). They only repackage the derived values with colours.
- React's `useState` and `useMemo` re-render and memoisation semantics. Every derived value is recomputed from the current state.
- IEEE-754 rounding and NaN propagation. Numbers are reals, so for example 0.07 * 100 is exactly 7. `parseInt` is an `Option<int>`, not a string parser, and its `-0` result is folded into 0, which is falsy just the same.
- DashboardState.Dashboard.SetConversionRate: the slider's step of 0.0001 is not modelled, only its range.
- DashboardState.Dashboard.SetYearlyRatio: the slider's step of 1 is not modelled, only its range.
