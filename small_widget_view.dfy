/**
 * The small widget: its copies of the band lookups, proved equal to the shared tier tables, and
 * the choice between the price panel and the unavailable panel.
 */
module SmallWidgetView {

  import opened Wrappers
  import opened Palette
  import opened PriceTier
  import opened WidgetEntry

  function GetBackgroundGradient(price: real): (r: seq<Rgb>)
    ensures r == BackgroundGradient(TierOf(price))
    ensures |r| == 2
  {
    if price < 0.0 then [Rgb(0.0, 0.6, 0.3), Rgb(0.0, 0.4, 0.2)]
    else if price < 5.0 then [Rgb(0.0, 0.5, 0.3), Rgb(0.0, 0.3, 0.2)]
    else if price < 14.0 then [Rgb(0.8, 0.6, 0.0), Rgb(0.6, 0.4, 0.0)]
    else [Rgb(0.8, 0.2, 0.2), Rgb(0.6, 0.1, 0.1)]
  }

  function GetPriceColor(price: real): (c: Color)
    ensures c == LabelColor(TierOf(price))
    ensures c == Green <==> price < 5.0
    ensures c == Yellow <==> 5.0 <= price < 14.0
    ensures c == Red <==> 14.0 <= price
  {
    if price < 0.0 then Green
    else if price < 5.0 then Green
    else if price < 14.0 then Yellow
    else Red
  }

  function GetPriceLabel(price: real): (text: string)
    ensures text == Label(TierOf(price))
    ensures text == "NEGATIVE" <==> price < 0.0
    ensures text == "LOW" <==> 0.0 <= price < 5.0
    ensures text == "MEDIUM" <==> 5.0 <= price < 14.0
    ensures text == "HIGH" <==> 14.0 <= price
  {
    if price < 0.0 then "NEGATIVE"
    else if price < 5.0 then "LOW"
    else if price < 14.0 then "MEDIUM"
    else "HIGH"
  }

  /** The status symbol beside the label in `body`. */
  function StatusBadgeFor(price: real): (b: Badge)
    ensures b == StatusBadge(TierOf(price))
  {
    if price < 0.0 then Badge("dollarsign.arrow.circlepath", Multicolor)
    else if price < 5.0 then Badge("leaf.fill", Tinted(Green))
    else if price < 14.0 then Badge("exclamationmark.circle", Tinted(Yellow))
    else Badge("bolt.fill", Tinted(Red))
  }

  /** The badge and the background follow from the label alone. */
  lemma BadgeAndGradientFollowLabel(p: real, q: real)
    requires GetPriceLabel(p) == GetPriceLabel(q)
    ensures StatusBadgeFor(p) == StatusBadgeFor(q)
    ensures GetBackgroundGradient(p) == GetBackgroundGradient(q)
    ensures GetPriceColor(p) == GetPriceColor(q)
  {
    LabelInjective(TierOf(p), TierOf(q));
  }

  /** What `body` shows: the price panel, or the unavailable panel with the optional error. */
  datatype Content =
    | PricePanel(price: real, timestampMillis: int, badge: Badge, tierLabel: string, labelColor: Color)
    | Unavailable(error: Option<string>)

  function Body(entry: SimpleEntry): (c: Content)
    ensures c.PricePanel? <==> entry.price.Some? && entry.priceTimestampMillis.Some?
    ensures c.PricePanel? ==>
      c.price == entry.price.value && c.tierLabel == Label(TierOf(c.price))
      && c.badge == StatusBadge(TierOf(c.price)) && c.labelColor == LabelColor(TierOf(c.price))
      && c.timestampMillis == entry.priceTimestampMillis.value
    ensures c.Unavailable? ==> c.error == entry.error
  {
    if entry.price.Some? && entry.priceTimestampMillis.Some? then
      var price := entry.price.value;
      PricePanel(price, entry.priceTimestampMillis.value, StatusBadgeFor(price), GetPriceLabel(price),
                 GetPriceColor(price))
    else
      Unavailable(entry.error)
  }

  /** The background: the band's gradient when a price is present, gray otherwise. */
  function Background(entry: SimpleEntry): (g: seq<Rgb>)
    ensures entry.price.Some? ==> g == BackgroundGradient(TierOf(entry.price.value))
    ensures entry.price.None? ==> g == UnavailableGradient
  {
    match entry.price
    case Some(price) => GetBackgroundGradient(price)
    case None => UnavailableGradient
  }
}
