/** The expressions in the dashboard's input handlers that turn what the user
    typed (already through parseInt) or where a slider stands into the value
    that is stored. */
module InputClamps {
  import opened Wrappers

  /** JavaScript's `x || d` on a parsed whole number: NaN (None) and 0 are
      both falsy and give way to the default. */
  function OrInt(x: Option<int>, d: int): int {
    match x
    case Some(n) => if n != 0 then n else d
    case None => d
  }

  /** The same `||` on a fraction. */
  function OrReal(x: Option<real>, d: real): real {
    match x
    case Some(f) => if f != 0.0 then f else d
    case None => d
  }

  /** `parseInt(...) / 100`: NaN stays NaN. */
  function Hundredths(parsed: Option<int>): Option<real> {
    match parsed
    case Some(n) => Some((n as real) / 100.0)
    case None => None
  }

  /** JavaScript's Math.max on two numbers, neither of them NaN. */
  function MaxInt(a: int, b: int): int {
    if a >= b then a else b
  }

  function MaxReal(a: real, b: real): real {
    if a >= b then a else b
  }

  /** JavaScript's Math.round: halves go up. */
  function Round(x: real): int {
    (x + 0.5).Floor
  }

  /** `Math.max(1, parseInt(v) || 1)`, the handler of the impressions and
      both retention fields. */
  function AtLeastOne(parsed: Option<int>): (r: int)
    ensures r >= 1
    ensures parsed.Some? && parsed.value >= 1 ==> r == parsed.value
    ensures parsed.None? || parsed.value <= 0 ==> r == 1
  {
    MaxInt(1, OrInt(parsed, 1))
  }

  /** `Math.max(0.01, parseInt(v) / 100 || 0.01)`, the handler of the profit
      margin and app store cut fields, which are typed as whole percents. */
  function PercentAtLeastOne(parsed: Option<int>): (r: real)
    ensures r >= 0.01
    ensures parsed.Some? && parsed.value >= 1 ==> r == (parsed.value as real) / 100.0
    ensures parsed.None? || parsed.value <= 0 ==> r == 0.01
  {
    MaxReal(0.01, OrReal(Hundredths(parsed), 0.01))
  }

  /** `parseInt(v) || 0`, the handler of both price fields. */
  function PriceOrZero(parsed: Option<int>): (r: int)
    ensures parsed.Some? ==> r == parsed.value
    ensures parsed.None? ==> r == 0
  {
    OrInt(parsed, 0)
  }

  /** The position the ratio slider shows for a stored ratio. */
  function SliderPosition(yearlyRatio: real): (p: real)
    ensures p / 100.0 == yearlyRatio
    ensures 0.0 <= yearlyRatio <= 1.0 ==> 0.0 <= p <= 100.0
  {
    yearlyRatio * 100.0
  }

  /** `value[0] / 100`, the handler of the yearly-ratio slider. */
  function RatioFromSlider(position: real): (r: real)
    ensures SliderPosition(r) == position
    ensures 0.0 <= position <= 100.0 ==> 0.0 <= r <= 1.0
  {
    position / 100.0
  }

  /** The whole percent the margin and store cut fields show for a stored
      fraction. */
  function PercentShown(fraction: real): (n: int)
    ensures (n as real) - 0.5 <= fraction * 100.0 < (n as real) + 0.5
  {
    Round(fraction * 100.0)
  }

  // ---------------------------------------------------------------------

  /** Re-entering a stored impression or retention count stores it again
      unchanged. */
  lemma AtLeastOneIdempotent(parsed: Option<int>)
    ensures AtLeastOne(Some(AtLeastOne(parsed))) == AtLeastOne(parsed)
  {
  }

  /** Re-entering a stored price stores it again unchanged, and nothing keeps
      a price from being negative. */
  lemma PriceOrZeroIdempotent(parsed: Option<int>)
    ensures PriceOrZero(Some(PriceOrZero(parsed))) == PriceOrZero(parsed)
    ensures PriceOrZero(Some(-1)) < 0
  {
  }

  /** A typed whole percent of at least 1 is shown again as typed. */
  lemma PercentShownRoundTrip(n: int)
    requires n >= 1
    ensures PercentShown(PercentAtLeastOne(Some(n))) == n
  {
  }

  /** Retyping the percent a margin or store cut field shows stores the
      same fraction again, so the handler is idempotent through the field. */
  lemma PercentAtLeastOneIdempotent(parsed: Option<int>)
    ensures PercentAtLeastOne(Some(PercentShown(PercentAtLeastOne(parsed)))) == PercentAtLeastOne(parsed)
  {
    var n := if parsed.Some? && parsed.value >= 1 then parsed.value else 1;
    assert PercentAtLeastOne(parsed) == PercentAtLeastOne(Some(n));
    PercentShownRoundTrip(n);
  }

  /** Nothing bounds a margin or store cut from above: typing 150 stores
      1.5, more than the whole. */
  lemma PercentHasNoUpperBound(n: int)
    requires n > 100
    ensures PercentAtLeastOne(Some(n)) > 1.0
  {
  }

  /** The ratio slider and its handler undo each other. */
  lemma SliderRoundTrip(yearlyRatio: real)
    ensures RatioFromSlider(SliderPosition(yearlyRatio)) == yearlyRatio
  {
  }
}
