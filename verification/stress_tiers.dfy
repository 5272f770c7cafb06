/** The three-way stress classification that StressIndicator,
    TradingStatus and TradingParameterCard each write out as their own
    if-chain (level <= 3, level <= 6, otherwise). TierOf is the single
    reference definition; each surface proves that its own copy agrees
    with it. */
module StressTiers {

  datatype Tier = Low | Moderate | High

  /** Order of the tiers, from calm to stressed. */
  function Rank(t: Tier): nat
  {
    match t
    case Low => 0
    case Moderate => 1
    case High => 2
  }

  /** The shared classification of a stress level. */
  function TierOf(level: real): (t: Tier)
    ensures t == Low <==> level <= 3.0
    ensures t == Moderate <==> 3.0 < level <= 6.0
    ensures t == High <==> 6.0 < level
  {
    if level <= 3.0 then Low else if level <= 6.0 then Moderate else High
  }

  /** A higher level never yields a lower tier. */
  lemma TierOfMonotone(a: real, b: real)
    requires a <= b
    ensures Rank(TierOf(a)) <= Rank(TierOf(b))
  {
  }

  /** The colours every surface uses for the three tiers. */
  const GREEN := "#10B981"
  const AMBER := "#F59E0B"
  const RED := "#EF4444"

  function TierColor(t: Tier): (c: string)
    ensures c in {GREEN, AMBER, RED}
  {
    match t
    case Low => GREEN
    case Moderate => AMBER
    case High => RED
  }

  /** The colour determines the tier. */
  lemma TierColorInjective(s: Tier, t: Tier)
    ensures TierColor(s) == TierColor(t) <==> s == t
  {
  }

  /** The lucide icons the surfaces draw. */
  datatype Glyph = Activity | Shield | AlertTriangle | CheckCircle | AlertCircle

  /** An icon element: its glyph, pixel size and colour. */
  datatype Icon = Icon(glyph: Glyph, size: nat, color: string)
}
