/** components/StressIndicator.tsx: colour, icon and label of the current
    stress tier, and a progress bar filled to the stress level with
    markers at the two tier boundaries. */
module StressIndicator {
  import opened StressTiers

  const LOW_STRESS := "Low Stress"
  const MODERATE_STRESS := "Moderate Stress"
  const HIGH_STRESS := "High Stress"

  /** getStressColor, as the component writes it. */
  function StressColor(level: real): (c: string)
    ensures c == TierColor(TierOf(level))
  {
    if level <= 3.0 then GREEN
    else if level <= 6.0 then AMBER
    else RED
  }

  /** getStressIcon, as the component writes it (24-pixel icons). */
  function StressIcon(level: real): (i: Icon)
    ensures i == IconFor(TierOf(level))
    ensures i.color == StressColor(level)
  {
    if level <= 3.0 then Icon(CheckCircle, 24, GREEN)
    else if level <= 6.0 then Icon(AlertCircle, 24, AMBER)
    else Icon(AlertTriangle, 24, RED)
  }

  /** getStressLabel, as the component writes it. */
  function StressLabel(level: real): (l: string)
    ensures l == LabelFor(TierOf(level))
  {
    if level <= 3.0 then LOW_STRESS
    else if level <= 6.0 then MODERATE_STRESS
    else HIGH_STRESS
  }

  /** The label belonging to each tier. */
  function LabelFor(t: Tier): string
  {
    match t
    case Low => LOW_STRESS
    case Moderate => MODERATE_STRESS
    case High => HIGH_STRESS
  }

  /** The icon belonging to each tier. */
  function IconFor(t: Tier): Icon
  {
    match t
    case Low => Icon(CheckCircle, 24, TierColor(t))
    case Moderate => Icon(AlertCircle, 24, TierColor(t))
    case High => Icon(AlertTriangle, 24, TierColor(t))
  }

  /** Exact thresholds of colour and label, in both directions. */
  lemma IndicatorThresholds(level: real)
    ensures (StressColor(level) == GREEN && StressLabel(level) == LOW_STRESS) <==> level <= 3.0
    ensures (StressColor(level) == AMBER && StressLabel(level) == MODERATE_STRESS) <==> 3.0 < level <= 6.0
    ensures (StressColor(level) == RED && StressLabel(level) == HIGH_STRESS) <==> 6.0 < level
  {
  }

  /** A higher level never shows a calmer label. */
  lemma IndicatorMonotone(a: real, b: real)
    requires a <= b
    ensures StressLabel(a) == HIGH_STRESS ==> StressLabel(b) == HIGH_STRESS
    ensures StressLabel(b) == LOW_STRESS ==> StressLabel(a) == LOW_STRESS
  {
    TierOfMonotone(a, b);
  }

  /** Width of the progress fill, in percent of the track. */
  function FillPercent(stressLevel: real): (w: real)
    ensures 0.0 <= stressLevel <= 10.0 ==> 0.0 <= w <= 100.0
  {
    (stressLevel / 10.0) * 100.0
  }

  /** Positions, in percent, of the two markers drawn under the track. */
  const LOW_MARKER := 30.0
  const HIGH_MARKER := 60.0

  /** The markers sit where the fill ends at the tier thresholds, so the
      fill reaches past a marker exactly when the tier is above it. */
  lemma MarkersAtThresholds(stressLevel: real)
    ensures FillPercent(3.0) == LOW_MARKER && FillPercent(6.0) == HIGH_MARKER
    ensures FillPercent(stressLevel) <= LOW_MARKER <==> TierOf(stressLevel) == Low
    ensures FillPercent(stressLevel) > HIGH_MARKER <==> TierOf(stressLevel) == High
  {
  }
}
