/** The current-price card: its label lookup and the indicator icon chosen in `body`. */
module PriceDisplay {

  import opened PriceTier

  function GetPriceLabel(price: real): (text: string)
    ensures text == Label(TierOf(price))
    ensures text == "NEGATIVE" <==> price < 0.0
    ensures text == "LOW" <==> 0.0 <= price < 5.0
    ensures text == "MEDIUM" <==> 5.0 <= price < 14.0
    ensures text == "HIGH" <==> 14.0 <= price
  {
    if price < 0.0 then "NEGATIVE"
    else if price < 5.0 then "LOW"
    else if price < 14.0 then "MEDIUM"
    else "HIGH"
  }

  /**
   * The indicator icon. The first branch tests the price's `isNegative` flag, whose definition is
   * not part of this model, so it is a parameter; the other branches use the 5.0 and 14.0 cuts.
   */
  function IndicatorIcon(isNegative: bool, price: real): (icon: string)
    ensures isNegative ==> icon == StatusBadge(Negative).icon
    ensures !isNegative && price >= 0.0 ==> icon == StatusBadge(TierOf(price)).icon
    ensures isNegative == (price < 0.0) ==> icon == StatusBadge(TierOf(price)).icon
  {
    if isNegative then "dollarsign.arrow.circlepath"
    else if price < 5.0 then "leaf.fill"
    else if price < 14.0 then "exclamationmark.circle"
    else "bolt.fill"
  }

  /** With `isNegative` meaning a price below zero, icon and label always name the same band. */
  lemma IconAgreesWithLabel(price: real, q: real)
    requires GetPriceLabel(price) == GetPriceLabel(q)
    ensures IndicatorIcon(price < 0.0, price) == IndicatorIcon(q < 0.0, q)
  {
    LabelInjective(TierOf(price), TierOf(q));
  }
}
