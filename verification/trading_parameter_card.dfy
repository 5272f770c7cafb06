/** components/TradingParameterCard.tsx: a card showing one trading
    parameter, a stress badge chosen by tier, and a greyed value with a
    PAUSED overlay when the card is disabled. */
module TradingParameterCard {
  import opened Optional
  import opened StressTiers

  /** The badge: its colour and text. */
  datatype Indicator = Indicator(color: string, text: string)

  const OPTIMAL := "Optimal"
  const CAUTIOUS := "Cautious"
  const HIGH_RISK := "High Risk"
  const DISABLED_GREY := "#6B7280"
  const PAUSED := "PAUSED"

  /** getStressIndicator, as the component writes it. */
  function StressIndicator(stressLevel: real): (ind: Indicator)
    ensures ind == IndicatorFor(TierOf(stressLevel))
  {
    if stressLevel <= 3.0 then Indicator(GREEN, OPTIMAL)
    else if stressLevel <= 6.0 then Indicator(AMBER, CAUTIOUS)
    else Indicator(RED, HIGH_RISK)
  }

  /** The badge belonging to each tier. */
  function IndicatorFor(t: Tier): Indicator
  {
    match t
    case Low => Indicator(TierColor(t), OPTIMAL)
    case Moderate => Indicator(TierColor(t), CAUTIOUS)
    case High => Indicator(TierColor(t), HIGH_RISK)
  }

  /** Exactly one badge for every level, with the exact thresholds. */
  lemma IndicatorThresholds(stressLevel: real)
    ensures StressIndicator(stressLevel) == Indicator(GREEN, OPTIMAL) <==> stressLevel <= 3.0
    ensures StressIndicator(stressLevel) == Indicator(AMBER, CAUTIOUS) <==> 3.0 < stressLevel <= 6.0
    ensures StressIndicator(stressLevel) == Indicator(RED, HIGH_RISK) <==> 6.0 < stressLevel
  {
  }

  /** A higher level never shows a calmer badge. */
  lemma IndicatorMonotone(a: real, b: real)
    requires a <= b
    ensures StressIndicator(a).text == HIGH_RISK ==> StressIndicator(b).text == HIGH_RISK
    ensures StressIndicator(b).text == OPTIMAL ==> StressIndicator(a).text == OPTIMAL
  {
    TierOfMonotone(a, b);
  }

  /** The props the card uses; `icon` is a rendered element and is not modelled. */
  datatype CardProps = CardProps(title: string, value: string, description: string,
                                 color: string, stress: real, disabled: Option<bool>)

  /** The `disabled = false` default of the destructured props. */
  function IsDisabled(p: CardProps): (d: bool)
    ensures p.disabled.None? ==> !d
    ensures p.disabled.Some? ==> d == p.disabled.value
  {
    p.disabled.GetOr(false)
  }

  /** What the card shows: the badge, the colour of the value text, whether
      title and description are dimmed, and the overlay label if any. */
  datatype CardView = CardView(indicator: Indicator, valueColor: string,
                               dimmed: bool, overlay: Option<string>)

  /** The card as rendered: the badge follows the stress tier; a disabled
      card greys its value, dims its title and description and shows the
      PAUSED overlay, and an enabled one shows the value in its own colour
      with no overlay. */
  function Render(p: CardProps): (v: CardView)
    ensures v.indicator == IndicatorFor(TierOf(p.stress))
    ensures IsDisabled(p) ==> v.valueColor == DISABLED_GREY
    ensures !IsDisabled(p) ==> v.valueColor == p.color
    ensures v.overlay.Some? <==> IsDisabled(p)
    ensures v.overlay.Some? ==> v.overlay.value == PAUSED
    ensures v.dimmed == IsDisabled(p)
  {
    var disabled := IsDisabled(p);
    CardView(StressIndicator(p.stress),
             if disabled then DISABLED_GREY else p.color,
             disabled,
             if disabled then Some(PAUSED) else None)
  }

  /** Omitting `disabled` gives an enabled card: the value keeps its own
      colour, nothing is dimmed and there is no PAUSED overlay. */
  lemma RenderDefaultEnabled(p: CardProps)
    requires p.disabled.None?
    ensures Render(p).valueColor == p.color
    ensures !Render(p).dimmed && Render(p).overlay == None
  {
  }
}
