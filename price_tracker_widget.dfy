/**
 * The widget extension's timeline provider: the threshold status of the newest price, the
 * thresholds read from the shared store, and the status icon and color.
 */
module PriceTrackerWidget {

  import opened Wrappers
  import opened Palette
  import opened Clock
  import opened PriceData
  import UserSettings

  datatype PriceStatus = High | Normal | Low

  /**
   * The status decision of `getTimeline` as a function of the price and the thresholds: exactly
   * one status holds, and high wins over low when the thresholds overlap.
   */
  function StatusFor(price: real, highThreshold: real, lowThreshold: real): (s: PriceStatus)
    ensures s == High <==> price >= highThreshold
    ensures s == Low <==> price < highThreshold && price <= lowThreshold
    ensures s == Normal <==> lowThreshold < price < highThreshold
  {
    if price >= highThreshold then High
    else if price <= lowThreshold then Low
    else Normal
  }

  datatype Thresholds = Thresholds(highThreshold: real, lowThreshold: real)

  /** `getUserSettings`: a stored threshold is used only when positive, else 10.0 and 2.0. */
  function GetUserSettings(entries: map<string, UserSettings.StoredValue>): (t: Thresholds)
    ensures t.highThreshold > 0.0 && t.lowThreshold > 0.0
    ensures UserSettings.DoubleFor(entries, UserSettings.HighPriceThresholdKey) > 0.0 ==>
      t.highThreshold == UserSettings.DoubleFor(entries, UserSettings.HighPriceThresholdKey)
    ensures UserSettings.DoubleFor(entries, UserSettings.HighPriceThresholdKey) <= 0.0 ==> t.highThreshold == 10.0
    ensures UserSettings.DoubleFor(entries, UserSettings.LowPriceThresholdKey) > 0.0 ==>
      t.lowThreshold == UserSettings.DoubleFor(entries, UserSettings.LowPriceThresholdKey)
    ensures UserSettings.DoubleFor(entries, UserSettings.LowPriceThresholdKey) <= 0.0 ==> t.lowThreshold == 2.0
  {
    var high := UserSettings.DoubleFor(entries, UserSettings.HighPriceThresholdKey);
    var low := UserSettings.DoubleFor(entries, UserSettings.LowPriceThresholdKey);
    Thresholds(if high > 0.0 then high else 10.0, if low > 0.0 then low else 2.0)
  }

  /** The widget's timeline entry; `dateMillis` is the entry's date. */
  datatype SimpleEntry = SimpleEntry(dateMillis: int, price: real, status: PriceStatus)

  /** A timeline and the instant of its `.after` reload policy. */
  datatype Timeline = Timeline(entries: seq<SimpleEntry>, refreshAfterMillis: int)

  const RefreshMinutes: nat := 30

  /**
   * `getTimeline` once the fetch has completed: `fetched` is what the fetch reported (the error's
   * text on failure), `entries` the shared store and `currentDate` the instant `Date()` returns.
   */
  method GetTimeline(fetched: Result<PriceResponse, string>, entries: map<string, UserSettings.StoredValue>,
                     currentDate: int)
    returns (timeline: Timeline)
    ensures |timeline.entries| == 1
    ensures timeline.refreshAfterMillis == currentDate + RefreshMinutes * MillisPerMinute
    ensures fetched.Success? && fetched.value.priceData != [] ==>
      var latest := fetched.value.priceData[|fetched.value.priceData| - 1];
      var thresholds := GetUserSettings(entries);
      timeline.entries[0] == SimpleEntry(latest.millisUTC, latest.price,
                                         StatusFor(latest.price, thresholds.highThreshold, thresholds.lowThreshold))
    ensures fetched.Failure? || fetched.value.priceData == [] ==>
      timeline.entries[0] == SimpleEntry(currentDate, 0.0, Normal)
  {
    var timelineEntries: seq<SimpleEntry> := [];
    match fetched {
      case Success(priceResponse) =>
        if priceResponse.priceData != [] {
          var latestPrice := priceResponse.priceData[|priceResponse.priceData| - 1];
          var userSettings := GetUserSettings(entries);
          var status := Normal;
          if latestPrice.price >= userSettings.highThreshold {
            status := High;
          } else if latestPrice.price <= userSettings.lowThreshold {
            status := Low;
          }
          timelineEntries := timelineEntries + [SimpleEntry(latestPrice.millisUTC, latestPrice.price, status)];
        } else {
          timelineEntries := timelineEntries + [SimpleEntry(currentDate, 0.0, Normal)];
        }
      case Failure(_) =>
        timelineEntries := timelineEntries + [SimpleEntry(currentDate, 0.0, Normal)];
    }
    timeline := Timeline(timelineEntries, MinutesAfter(currentDate, RefreshMinutes));
  }

  /** `statusIcon`. */
  function StatusIcon(status: PriceStatus): (icon: string)
    ensures icon == "arrow.up.circle.fill" <==> status == High
    ensures icon == "equal.circle.fill" <==> status == Normal
    ensures icon == "arrow.down.circle.fill" <==> status == Low
  {
    match status
    case High => "arrow.up.circle.fill"
    case Normal => "equal.circle.fill"
    case Low => "arrow.down.circle.fill"
  }

  /** `statusColor`. */
  function StatusColor(status: PriceStatus): (c: Color)
    ensures c == Red <==> status == High
    ensures c == Blue <==> status == Normal
    ensures c == Green <==> status == Low
  {
    match status
    case High => Red
    case Normal => Blue
    case Low => Green
  }

  /** Different statuses get different icons and different colors. */
  lemma StatusIconAndColorInjective(s: PriceStatus, t: PriceStatus)
    requires s != t
    ensures StatusIcon(s) != StatusIcon(t)
    ensures StatusColor(s) != StatusColor(t)
  {
  }
}
