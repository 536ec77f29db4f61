/**
 * The medium widget: its own copies of the four-band price lookups (each an if/else chain on the
 * price, written out here as in the view) proved equal to the shared tier tables, plus the
 * advice text and the large icon that only this view has.
 */
module MediumWidgetView {

  import opened Wrappers
  import opened Palette
  import opened PriceTier
  import opened WidgetEntry

  /** The large icon of the right-hand column, per band. */
  function IconFor(t: Tier): string
  {
    match t
    case Negative => "dollarsign.arrow.circlepath"
    case Low => "lightbulb.fill"
    case Medium => "exclamationmark.circle"
    case High => "bolt.slash.fill"
  }

  /** The advice sentence, per band. */
  function AdviceFor(t: Tier): string
  {
    match t
    case Negative => "Being paid to use electricity! Great time to use appliances."
    case Low => "Low price. Good time to run large appliances."
    case Medium => "Medium price. Moderate electricity usage advised."
    case High => "High price. Consider reducing electricity usage."
  }

  function GetBackgroundGradient(price: real): (r: seq<Rgb>)
    ensures r == BackgroundGradient(TierOf(price))
    ensures |r| == 2
  {
    if price < 0.0 then [Rgb(0.0, 0.6, 0.3), Rgb(0.0, 0.4, 0.2)]
    else if price < 5.0 then [Rgb(0.0, 0.5, 0.3), Rgb(0.0, 0.3, 0.2)]
    else if price < 14.0 then [Rgb(0.8, 0.6, 0.0), Rgb(0.6, 0.4, 0.0)]
    else [Rgb(0.8, 0.2, 0.2), Rgb(0.6, 0.1, 0.1)]
  }

  function GetPriceColor(price: real): (c: Color)
    ensures c == LabelColor(TierOf(price))
    ensures c == Green <==> price < 5.0
    ensures c == Yellow <==> 5.0 <= price < 14.0
    ensures c == Red <==> 14.0 <= price
  {
    if price < 0.0 then Green
    else if price < 5.0 then Green
    else if price < 14.0 then Yellow
    else Red
  }

  function GetPriceIcon(price: real): (icon: string)
    ensures icon == IconFor(TierOf(price))
  {
    if price < 0.0 then "dollarsign.arrow.circlepath"
    else if price < 5.0 then "lightbulb.fill"
    else if price < 14.0 then "exclamationmark.circle"
    else "bolt.slash.fill"
  }

  function GetPriceLabel(price: real): (text: string)
    ensures text == Label(TierOf(price))
    ensures text == "NEGATIVE" <==> price < 0.0
    ensures text == "LOW" <==> 0.0 <= price < 5.0
    ensures text == "MEDIUM" <==> 5.0 <= price < 14.0
    ensures text == "HIGH" <==> 14.0 <= price
  {
    if price < 0.0 then "NEGATIVE"
    else if price < 5.0 then "LOW"
    else if price < 14.0 then "MEDIUM"
    else "HIGH"
  }

  function GetPriceAdvice(price: real): (advice: string)
    ensures advice == AdviceFor(TierOf(price))
  {
    if price < 0.0 then "Being paid to use electricity! Great time to use appliances."
    else if price < 5.0 then "Low price. Good time to run large appliances."
    else if price < 14.0 then "Medium price. Moderate electricity usage advised."
    else "High price. Consider reducing electricity usage."
  }

  /** The status symbol beside the label in `body`. */
  function StatusBadgeFor(price: real): (b: Badge)
    ensures b == StatusBadge(TierOf(price))
  {
    if price < 0.0 then Badge("dollarsign.arrow.circlepath", Multicolor)
    else if price < 5.0 then Badge("leaf.fill", Tinted(Green))
    else if price < 14.0 then Badge("exclamationmark.circle", Tinted(Yellow))
    else Badge("bolt.fill", Tinted(Red))
  }

  /** Color, icon, advice, badge and background all follow from the label alone. */
  lemma PresentationFollowsLabel(p: real, q: real)
    requires GetPriceLabel(p) == GetPriceLabel(q)
    ensures GetPriceColor(p) == GetPriceColor(q)
    ensures GetPriceIcon(p) == GetPriceIcon(q)
    ensures GetPriceAdvice(p) == GetPriceAdvice(q)
    ensures StatusBadgeFor(p) == StatusBadgeFor(q)
    ensures GetBackgroundGradient(p) == GetBackgroundGradient(q)
  {
    LabelInjective(TierOf(p), TierOf(q));
  }

  /** The four advice sentences are pairwise distinct, and so are the four icons. */
  lemma AdviceAndIconsDistinct(t: Tier, u: Tier)
    requires t != u
    ensures AdviceFor(t) != AdviceFor(u)
    ensures IconFor(t) != IconFor(u)
  {
  }

  /** What `body` shows: the price panel, or the unavailable panel with the optional error. */
  datatype Content =
    | PricePanel(price: real, timestampMillis: int, badge: Badge, tierLabel: string, labelColor: Color,
                 advice: string, icon: string)
    | Unavailable(error: Option<string>)

  function Body(entry: SimpleEntry): (c: Content)
    ensures c.PricePanel? <==> entry.price.Some? && entry.priceTimestampMillis.Some?
    ensures c.PricePanel? ==>
      c.price == entry.price.value && c.tierLabel == Label(TierOf(c.price))
      && c.badge == StatusBadge(TierOf(c.price)) && c.advice == AdviceFor(TierOf(c.price))
      && c.labelColor == LabelColor(TierOf(c.price)) && c.icon == IconFor(TierOf(c.price))
      && c.timestampMillis == entry.priceTimestampMillis.value
    ensures c.Unavailable? ==> c.error == entry.error
  {
    if entry.price.Some? && entry.priceTimestampMillis.Some? then
      var price := entry.price.value;
      PricePanel(price, entry.priceTimestampMillis.value, StatusBadgeFor(price), GetPriceLabel(price),
                 GetPriceColor(price), GetPriceAdvice(price), GetPriceIcon(price))
    else
      Unavailable(entry.error)
  }

  /** The background: the band's gradient when a price is present, gray otherwise. */
  function Background(entry: SimpleEntry): (g: seq<Rgb>)
    ensures entry.price.Some? ==> g == BackgroundGradient(TierOf(entry.price.value))
    ensures entry.price.None? ==> g == UnavailableGradient
  {
    match entry.price
    case Some(price) => GetBackgroundGradient(price)
    case None => UnavailableGradient
  }
}
