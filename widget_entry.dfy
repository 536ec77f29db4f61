/** The timeline entry the widget views are written against (an optional price and its instant). */
module WidgetEntry {

  import opened Wrappers

  datatype SimpleEntry = SimpleEntry(
    dateMillis: int, price: Option<real>, priceTimestampMillis: Option<int>, error: Option<string>)
}
