/** The three display surfaces side by side: their independently written
    tier chains never disagree. */
module Surfaces {
  import StressTiers
  import StressIndicator
  import TradingStatus
  import TradingParameterCard

  /** For every level, the indicator, the status badge and the parameter
      card show the same colour; since the colour determines the tier, the
      only tier any of them can be showing is TierOf(level). */
  lemma SurfacesAgree(level: real)
    ensures StressIndicator.StressColor(level) == TradingStatus.StatusColor(level)
    ensures TradingStatus.StatusColor(level) == TradingParameterCard.StressIndicator(level).color
    ensures forall t: StressTiers.Tier :: StressTiers.TierColor(t) == TradingStatus.StatusColor(level)
              ==> t == StressTiers.TierOf(level)
  {
    forall t: StressTiers.Tier | StressTiers.TierColor(t) == TradingStatus.StatusColor(level)
      ensures t == StressTiers.TierOf(level)
    {
      StressTiers.TierColorInjective(t, StressTiers.TierOf(level));
    }
  }
}
