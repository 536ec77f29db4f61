/**
 * The four price bands the views share (cuts at 0, 5.0 and 14.0 cents per kWh, each band closed
 * below and open above) and the presentation every view derives from the band.
 */
module PriceTier {

  import opened Palette

  datatype Tier = Negative | Low | Medium | High

  const LowCut: real := 5.0
  const HighCut: real := 14.0

  function TierOf(price: real): (t: Tier)
    ensures t == Negative <==> price < 0.0
    ensures t == Low <==> 0.0 <= price < LowCut
    ensures t == Medium <==> LowCut <= price < HighCut
    ensures t == High <==> HighCut <= price
  {
    if price < 0.0 then Negative
    else if price < LowCut then Low
    else if price < HighCut then Medium
    else High
  }

  /** Position of a band from cheapest to dearest. */
  function Rank(t: Tier): nat
  {
    match t
    case Negative => 0
    case Low => 1
    case Medium => 2
    case High => 3
  }

  /** A higher price never falls in a cheaper band. */
  lemma TierOfMonotone(p: real, q: real)
    requires p <= q
    ensures Rank(TierOf(p)) <= Rank(TierOf(q))
  {
  }

  /** `getPriceLabel`. */
  function Label(t: Tier): string
  {
    match t
    case Negative => "NEGATIVE"
    case Low => "LOW"
    case Medium => "MEDIUM"
    case High => "HIGH"
  }

  /** Different bands have different labels, so the label determines the band. */
  lemma LabelInjective(t: Tier, u: Tier)
    requires Label(t) == Label(u)
    ensures t == u
  {
  }

  /** `getPriceColor`: negative and low prices share green. */
  function LabelColor(t: Tier): Color
  {
    match t
    case Negative => Green
    case Low => Green
    case Medium => Yellow
    case High => Red
  }

  /** How the status symbol is colored: its own multicolor rendering, or one foreground color. */
  datatype Tint = Multicolor | Tinted(color: Color)

  datatype Badge = Badge(icon: string, tint: Tint)

  /** The status symbol next to the label in the views' `body`. */
  function StatusBadge(t: Tier): Badge
  {
    match t
    case Negative => Badge("dollarsign.arrow.circlepath", Multicolor)
    case Low => Badge("leaf.fill", Tinted(Green))
    case Medium => Badge("exclamationmark.circle", Tinted(Yellow))
    case High => Badge("bolt.fill", Tinted(Red))
  }

  /** `getBackgroundGradient`: the two stops of the widget background. */
  function BackgroundGradient(t: Tier): seq<Rgb>
  {
    match t
    case Negative => [Rgb(0.0, 0.6, 0.3), Rgb(0.0, 0.4, 0.2)]
    case Low => [Rgb(0.0, 0.5, 0.3), Rgb(0.0, 0.3, 0.2)]
    case Medium => [Rgb(0.8, 0.6, 0.0), Rgb(0.6, 0.4, 0.0)]
    case High => [Rgb(0.8, 0.2, 0.2), Rgb(0.6, 0.1, 0.1)]
  }

  /** The background when there is no price: UIKit's dark gray to gray. */
  const UnavailableGradient: seq<Rgb> := [Rgb(1.0 / 3.0, 1.0 / 3.0, 1.0 / 3.0), Rgb(0.5, 0.5, 0.5)]

  /** Each band has its own status symbol and its own background. */
  lemma BadgeAndGradientInjective(t: Tier, u: Tier)
    requires t != u
    ensures StatusBadge(t) != StatusBadge(u)
    ensures BackgroundGradient(t) != BackgroundGradient(u)
  {
  }
}
