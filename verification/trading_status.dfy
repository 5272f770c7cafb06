/** components/TradingStatus.tsx: a status badge chosen by stress tier,
    and two derived parameters, the suggested position size and the risk
    level, as clamped linear functions of the stress level. */
module TradingStatus {
  import opened Numbers
  import opened StressTiers

  const OPTIMAL_TRADING := "Optimal Trading"
  const CAUTIOUS_TRADING := "Cautious Trading"
  const TRADING_PAUSED := "Trading Paused"

  /** getStatusColor, as the component writes it. */
  function StatusColor(level: real): (c: string)
    ensures c == TierColor(TierOf(level))
  {
    if level <= 3.0 then GREEN
    else if level <= 6.0 then AMBER
    else RED
  }

  /** getStatusText, as the component writes it. */
  function StatusText(level: real): (s: string)
    ensures s == StatusTextFor(TierOf(level))
  {
    if level <= 3.0 then OPTIMAL_TRADING
    else if level <= 6.0 then CAUTIOUS_TRADING
    else TRADING_PAUSED
  }

  /** getStatusIcon, as the component writes it (20-pixel icons). */
  function StatusIcon(level: real): (i: Icon)
    ensures i == StatusIconFor(TierOf(level))
    ensures i.color == StatusColor(level)
  {
    if level <= 3.0 then Icon(Activity, 20, GREEN)
    else if level <= 6.0 then Icon(Shield, 20, AMBER)
    else Icon(AlertTriangle, 20, RED)
  }

  /** The badge text belonging to each tier. */
  function StatusTextFor(t: Tier): string
  {
    match t
    case Low => OPTIMAL_TRADING
    case Moderate => CAUTIOUS_TRADING
    case High => TRADING_PAUSED
  }

  /** The badge icon belonging to each tier. */
  function StatusIconFor(t: Tier): Icon
  {
    match t
    case Low => Icon(Activity, 20, TierColor(t))
    case Moderate => Icon(Shield, 20, TierColor(t))
    case High => Icon(AlertTriangle, 20, TierColor(t))
  }

  /** The exact thresholds of the badge text, in both directions. */
  lemma StatusTextThresholds(level: real)
    ensures StatusText(level) == OPTIMAL_TRADING <==> level <= 3.0
    ensures StatusText(level) == CAUTIOUS_TRADING <==> 3.0 < level <= 6.0
    ensures StatusText(level) == TRADING_PAUSED <==> 6.0 < level
  {
  }

  /** A higher level never shows a calmer badge. */
  lemma StatusMonotone(a: real, b: real)
    requires a <= b
    ensures StatusText(a) == TRADING_PAUSED ==> StatusText(b) == TRADING_PAUSED
    ensures StatusText(b) == OPTIMAL_TRADING ==> StatusText(a) == OPTIMAL_TRADING
  {
    TierOfMonotone(a, b);
  }

  /** Suggested position size in percent: max(20, 100 - 20 * stress). */
  function PositionSize(stressLevel: real): (r: real)
    ensures r >= 20.0
    ensures stressLevel >= 0.0 ==> r <= 100.0
    ensures stressLevel >= 4.0 <==> r == 20.0
  {
    Max(20.0, 100.0 - (stressLevel * 20.0))
  }

  /** The position size never grows as stress rises. */
  lemma PositionSizeMonotone(a: real, b: real)
    requires a <= b
    ensures PositionSize(b) <= PositionSize(a)
  {
  }

  /** Below 4 the floor of 20 is not reached and the size is linear in stress. */
  lemma PositionSizeLinearBelowFour(stressLevel: real)
    requires stressLevel <= 4.0
    ensures PositionSize(stressLevel) == 100.0 - 20.0 * stressLevel
  {
  }

  /** Risk level in percent: min(0.5 * stress, 5). */
  function RiskLevel(stressLevel: real): (r: real)
    ensures r <= 5.0
    ensures stressLevel >= 0.0 ==> r >= 0.0
    ensures r == 5.0 <==> stressLevel >= 10.0
  {
    Min(stressLevel * 0.5, 5.0)
  }

  /** The risk level never falls as stress rises. */
  lemma RiskLevelMonotone(a: real, b: real)
    requires a <= b
    ensures RiskLevel(a) <= RiskLevel(b)
  {
  }

  /** On the stress scale [0, 10] the risk level is half the stress, inside [0, 5]. */
  lemma RiskLevelOnScale(stressLevel: real)
    requires 0.0 <= stressLevel <= 10.0
    ensures RiskLevel(stressLevel) == stressLevel / 2.0
    ensures 0.0 <= RiskLevel(stressLevel) <= 5.0
  {
  }
}
