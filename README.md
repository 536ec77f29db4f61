# ComEd price tracker, modelled in Dafny

ComEd Price Tracker is an iOS app and home-screen widget. It shows ComEd's real-time hourly
electricity price in cents per kWh. This project models the app's logic in Dafny and proves
properties of it. The modelled logic is:

- the feed client's guard chain and error messages;
- the shaping of the decoded feed into the current price, today's hourly prices, the five-minute
  list and the weekly per-day summaries;
- the observable price store and its loading and error transitions;
- the user's preferences, persisted to a key-value store;
- the widget's threshold status and timeline entry;
- the four-band price classification that the widget views and the price card each repeat;
- the chart's scale, point colors and selection;
- the history screen's filter and statistics;
- the threshold editor's clamp and commit.

Prices are `real`. Instants are integer epoch milliseconds. The network, the JSON decoder, the
clock and the calendar's notion of "a month ago" are inputs to the functions and methods.

Modules follow the source files:

- `APIService`, `PriceData`, `UserSettings`, `PriceTrackerWidget`, `MediumWidgetView`,
  `SmallWidgetView`, `PriceDisplay`, `PriceChart`, `PriceHistoryView` and `ThresholdEditor`
  each model one source file.
- `PriceTier` holds the band tables that the three views share. Each view's own if/else chain
  is proved equal to these tables.
- `WidgetEntry` holds the entry shape that the widget views are written against. It has an
  optional price and an optional price instant. The timeline provider's `SimpleEntry` in
  `PriceTrackerWidget` has a different shape, with a plain price and a status.
- Supporting modules:
  - `Wrappers` defines `Option` and `Result`.
  - `Palette` defines the colors.
  - `Stats` models `reduce(0, +)`, `max()` and `min()`.
  - `Sorting` models `sorted(by:)` on one integer key.
  - `Clock` is the calendar, at a fixed offset from UTC.
  - `IntConversions` models `Int(Double)`, which truncates toward zero, and an `Int`'s decimal
    text.

Class-based source becomes Dafny classes:

- `PriceDataStore`, `UserSettings` (over a shared `Defaults` store), the chart's selection and
  the threshold editor's state are classes. Their methods say exactly how each field changes.
- `UserSettings`' initializer reads the store without writing to it. Swift does not run
  `didSet` for assignments made in the class's own `init`.
- A stored zero threshold or interval counts as unset when the settings load. So
  `PersistThenLoad` gives preferences back only when none of those values is zero. The
  threshold slider does allow 0: a threshold set to 0 comes back as the default after a
  relaunch.

## Model

| member | source | states |
|---|---|---|
| APIService.ServerErrorDescriptionNamesCode | ComEdPriceTracker/Services/APIService.swift:22-23 | the `serverError(c)` message is the fixed prefix followed by text that parses back to exactly `c` |
| APIService.Description | ComEdPriceTracker/Services/APIService.swift:12-29 | each message is its error's fixed text; a network or decoding error's message is its fixed prefix followed by exactly the underlying error's text, and a server error's is its prefix followed by more text |
| APIService.ServerErrorDescriptionsDiffer | ComEdPriceTracker/Services/APIService.swift:22-23 | server errors with different codes have different messages |
| APIService.FixedDescriptionsDistinct | ComEdPriceTracker/Services/APIService.swift:12-29 | the four messages without a payload are pairwise distinct |
| APIService.Receive | ComEdPriceTracker/Services/APIService.swift:48-92 | the guard chain, in order: transport error gives `networkError` with its text, not an HTTP response gives `invalidResponse`, a status outside 200...299 gives `serverError` carrying exactly that status, no body gives `noData`, and an undecodable body gives `decodingError` with the decoder's text. It succeeds exactly when every guard passes and returns the decoded array |
| APIService.Cents | ComEdPriceTracker/Services/APIService.swift:75-76 | cents are a tenth of the millicents; a price that does not parse gives 0 |
| APIService.CurrentPriceOf | ComEdPriceTracker/Services/APIService.swift:74-89 | fails, with `noData`, exactly on an empty array. Otherwise it takes the first entry: its price in cents, its instant, and its millicents truncated toward zero |
| APIService.FetchCurrentPrice | ComEdPriceTracker/Services/APIService.swift:48-93 | a guard failure is reported unchanged; otherwise the result is the current price of the decoded array |
| APIService.ToHourly | ComEdPriceTracker/Services/APIService.swift:139-147 | the hourly price keeps the entry's instant and cents, and its hour is the calendar's local hour of that instant: in 0..23, with the instant inside that hour of its day |
| APIService.ToHourlyAll | ComEdPriceTracker/Services/APIService.swift:139-147 | converts every entry, position by position |
| APIService.OnDay | ComEdPriceTracker/Services/APIService.swift:134-140 | keeps each entry whose local day is the given day as many times as the feed has it, and no other entry |
| APIService.Since | ComEdPriceTracker/Services/APIService.swift:258-260 | keeps each entry at or after the cutoff as many times as the feed has it, and no other entry |
| APIService.TodayEntriesAreOnDay | ComEdPriceTracker/Services/APIService.swift:134-150 | today's entries are exactly the feed's entries on today's local day, converted, in feed order and each as often as in the feed |
| APIService.TodayEntries | ComEdPriceTracker/Services/APIService.swift:134-150 | holds exactly the conversions of the entries whose local day is today, and is no longer than the feed |
| APIService.TodayPrices | ComEdPriceTracker/Services/APIService.swift:152-153 | ascending by hour, and a permutation of today's entries |
| APIService.TodayPricesAreExactlyToday | ComEdPriceTracker/Services/APIService.swift:130-153 | every returned price lies on today's local date, and every feed entry dated today is returned |
| APIService.FetchTodayPrices | ComEdPriceTracker/Services/APIService.swift:105-159 | a guard failure is reported unchanged; otherwise the result is today's prices sorted by hour |
| APIService.ToPoint | ComEdPriceTracker/Services/APIService.swift:196-202 | a point keeps the entry's instant and its price in cents |
| APIService.ToPoints | ComEdPriceTracker/Services/APIService.swift:196-202 | converts every entry, position by position |
| APIService.FiveMinutePrices | ComEdPriceTracker/Services/APIService.swift:196-205 | same length as the feed, a permutation of the converted entries, and newest first |
| APIService.FetchFiveMinutePrices | ComEdPriceTracker/Services/APIService.swift:171-211 | a guard failure is reported unchanged; otherwise the result is the five-minute list |
| APIService.RecentEntries | ComEdPriceTracker/Services/APIService.swift:252-270 | holds exactly the conversions of the entries at or after the seven-days-ago cutoff |
| APIService.RecentEntriesAreSince | ComEdPriceTracker/Services/APIService.swift:255-270 | the recent entries are exactly the feed's entries at or after the cutoff, converted, in feed order and each as often as in the feed |
| APIService.Days | ComEdPriceTracker/Services/APIService.swift:273-275 | the grouping keys: no day repeated, every entry's day present, and every key is some entry's day |
| APIService.Group | ComEdPriceTracker/Services/APIService.swift:273-275 | one group holds exactly the entries on its day |
| APIService.GroupKeepsCounts | ComEdPriceTracker/Services/APIService.swift:273-275 | a day's group holds every entry of that day as often as the entries do, and nothing else |
| APIService.HourlyPrices | ComEdPriceTracker/Services/APIService.swift:280 | `prices.map { $0.price }`, position by position |
| APIService.HourlyPricesPermutation | ComEdPriceTracker/Services/APIService.swift:279-280 | reordering the entries reorders their prices the same way: equal multisets of entries give equal multisets of prices |
| APIService.DailyOf | ComEdPriceTracker/Services/APIService.swift:278-292 | for a non-empty group: the record carries the group's day, min <= average <= max, every price lies within [min, max], and the points are the group sorted by hour, as a permutation |
| APIService.DailyOfValues | ComEdPriceTracker/Services/APIService.swift:280-283 | the record's average is the sum of the group's prices over their count, and its min and max are prices in the group |
| APIService.SortedEntriesKeepValues | ComEdPriceTracker/Services/APIService.swift:279-283 | the record's points, sorted by hour, have the same mean and contain the min and the max: the values describe the points the record shows |
| APIService.GroupedByDay | ComEdPriceTracker/Services/APIService.swift:273-292 | one record per distinct day; every group is non-empty |
| APIService.FetchWeeklyPrices | ComEdPriceTracker/Services/APIService.swift:223-300 | a guard failure is reported unchanged; otherwise the result is the weekly summary |
| APIService.WeeklyPrices | ComEdPriceTracker/Services/APIService.swift:252-295 | the records of every day group of the last seven days' entries, as a permutation, with dates in non-increasing order |
| APIService.GroupRecordIsWellFormed | ComEdPriceTracker/Services/APIService.swift:255-292 | a group's record is non-empty and sorted by hour; its average is the sum of its points' prices over their count; its min and max are prices of its points that bound every price; and it holds only entries on its date at or after the cutoff |
| APIService.WeeklyRecordIsGroupRecord | ComEdPriceTracker/Services/APIService.swift:273-295 | every weekly record is the record of a non-empty group of the recent entries |
| APIService.WeeklyRecordsAreWellFormed | ComEdPriceTracker/Services/APIService.swift:252-295 | every weekly record is well formed for the seven-days-ago cutoff: true mean, attained minimum and maximum, sorted by hour, its own day only |
| APIService.WeeklyDatesStrictlyDecrease | ComEdPriceTracker/Services/APIService.swift:273-295 | dates strictly decrease: newest day first, one record per day |
| APIService.EntryInItsDayRecord | ComEdPriceTracker/Services/APIService.swift:273-292 | before the final sort, each entry is in the record dated on its own day |
| APIService.WeeklyCoversRecentEntries | ComEdPriceTracker/Services/APIService.swift:252-295 | each entry of the last seven days appears in the weekly record of its own day |
| Sorting.SortBy | ComEdPriceTracker/Services/APIService.swift:153 | `sorted(by:)` on one key: the output is ordered by that key and is a permutation of the input |
| Sorting.SortByKeepsKeysDistinct | ComEdPriceTracker/Services/APIService.swift:295 | sorting keeps keys distinct when they were distinct |
| Stats.AverageWithinRange | ComEdPriceTracker/Services/APIService.swift:281-283 | the mean of a non-empty list lies between its minimum and its maximum |
| Stats.SumFirst | ComEdPriceTracker/Services/APIService.swift:281 | the left fold `reduce(0, +)` equals the first price plus the sum of the rest |
| Stats.SumPermutation | ComEdPriceTracker/Services/APIService.swift:279-281 | the sum does not depend on the order of the prices |
| Stats.Average | ComEdPriceTracker/Services/APIService.swift:281 | for a non-empty list, the mean times the count is the sum |
| Stats.MaxOr | ComEdPriceTracker/Views/PriceHistoryView.swift:101 | `max() ?? fallback`: the fallback when empty, else an element bounding all others |
| Stats.MinOr | ComEdPriceTracker/Views/PriceHistoryView.swift:106 | `min() ?? fallback`: the fallback when empty, else an element bounded by all others |
| IntConversions.TruncateToInt | ComEdPriceTracker/Services/APIService.swift:78 | `Int(x)` drops the fraction toward zero, for either sign |
| IntConversions.IntToDecimalRoundTrip | ComEdPriceTracker/Services/APIService.swift:23 | an `Int`'s interpolated decimal text parses back to the same integer |
| Clock.StartOfDay | ComEdPriceTracker/Services/APIService.swift:136 | local midnight at or before the instant, less than a day before it |
| Clock.Hour | ComEdPriceTracker/Services/APIService.swift:141 | the local hour is in 0..23, and the instant lies within that hour of its day |
| Clock.DaysBefore | ComEdPriceTracker/Services/APIService.swift:252 | exactly `days` whole days earlier, never later than the instant, and the local midnight moves back by the same days |
| PriceData.TimestampSeconds | ComEdPriceTracker/Models/PriceData.swift:10-12 | seconds times 1000 is `millisUTC`, with the same sign |
| PriceData.Prices | ComEdPriceTracker/Views/Components/PriceChart.swift:11 | `map { $0.price }`, position by position |
| PriceData.PriceDataStore.constructor | ComEdPriceTracker/Models/PriceData.swift:25-29 | starts at price 0, empty history, not loading, no error |
| PriceData.PriceDataStore.FetchCurrentPrice | ComEdPriceTracker/Models/PriceData.swift:33-35 | sets loading and clears the error; the price and the history are unchanged |
| PriceData.PriceDataStore.CurrentPriceArrived | ComEdPriceTracker/Models/PriceData.swift:37-49 | always ends loading. On success the last point's price becomes current, and an empty list leaves it unchanged. A failure sets the error and keeps the price. The history is never touched |
| PriceData.PriceDataStore.FetchPriceHistory | ComEdPriceTracker/Models/PriceData.swift:53-55 | sets loading and clears the error; the price and the history are unchanged |
| PriceData.PriceDataStore.PriceHistoryArrived | ComEdPriceTracker/Models/PriceData.swift:57-68 | always ends loading. A success replaces the history wholesale; a failure sets the error and keeps the history. The current price is never touched |
| UserSettings.Defaults.Set | ComEdPriceTracker/Models/UserSettings.swift:15 | writes one key and leaves the others |
| UserSettings.Loaded | ComEdPriceTracker/Models/UserSettings.swift:38-59 | adopts a stored threshold or interval only when it reads as non-zero, and the notifications flag whenever its key is present; otherwise the default |
| UserSettings.EmptyStoreLoadsDefaults | ComEdPriceTracker/Models/UserSettings.swift:13-59 | an empty store loads 10.0, 2.0, true and 30 |
| UserSettings.PersistThenLoad | ComEdPriceTracker/Models/UserSettings.swift:13-59 | preferences with no zero threshold or interval, once written, load back unchanged |
| UserSettings.UserSettings.constructor | ComEdPriceTracker/Models/UserSettings.swift:38-59 | the new object holds what the store loads as, and the store is not written |
| UserSettings.UserSettings.SetHighPriceThreshold | ComEdPriceTracker/Models/UserSettings.swift:13-17 | changes that one field and writes exactly its key |
| UserSettings.UserSettings.SetLowPriceThreshold | ComEdPriceTracker/Models/UserSettings.swift:19-23 | changes that one field and writes exactly its key |
| UserSettings.UserSettings.SetNotificationsEnabled | ComEdPriceTracker/Models/UserSettings.swift:25-29 | changes that one field and writes exactly its key |
| UserSettings.UserSettings.SetRefreshInterval | ComEdPriceTracker/Models/UserSettings.swift:31-35 | changes that one field and writes exactly its key |
| UserSettings.UserSettings.ResetToDefaults | ComEdPriceTracker/Models/UserSettings.swift:62-67 | all four fields become the defaults, and all four keys are written with them |
| UserSettings.ResetIsIdempotent | ComEdPriceTracker/Models/UserSettings.swift:62-67 | resetting twice leaves the same fields and the same store as resetting once |
| UserSettings.HighThresholdRoundTrip | ComEdPriceTracker/Models/UserSettings.swift:13-43 | a non-zero high threshold, once assigned, is what a new object on the same store starts with |
| PriceTrackerWidget.StatusFor | ComEdPriceTrackerWidget/ComEdPriceTrackerWidget.swift:28-33 | high iff the price is at least the high threshold; low iff it is below that and at most the low threshold; normal otherwise |
| PriceTrackerWidget.GetUserSettings | ComEdPriceTrackerWidget/ComEdPriceTrackerWidget.swift:88-99 | a stored threshold is used only when positive, else 10.0 or 2.0, so both thresholds are positive |
| PriceTrackerWidget.GetTimeline | ComEdPriceTrackerWidget/ComEdPriceTrackerWidget.swift:15-57 | exactly one entry, reloading 30 minutes after the current date. On a non-empty success the entry is the last point with its threshold status; otherwise it is price 0 and normal at the current date |
| PriceTrackerWidget.StatusIconAndColorInjective | ComEdPriceTrackerWidget/ComEdPriceTrackerWidget.swift:153-175 | different statuses have different icons and different colors |
| PriceTrackerWidget.StatusIcon | ComEdPriceTrackerWidget/ComEdPriceTrackerWidget.swift:153-163 | the up arrow iff high, the equals sign iff normal, the down arrow iff low |
| PriceTrackerWidget.StatusColor | ComEdPriceTrackerWidget/ComEdPriceTrackerWidget.swift:165-175 | red iff high, blue iff normal, green iff low |
| Clock.MinutesAfter | ComEdPriceTrackerWidget/ComEdPriceTrackerWidget.swift:53 | the next refresh instant is exactly `minutes` whole minutes after the given instant, never earlier |
| PriceTier.TierOf | ComEdPriceTrackerWidget/Views/MediumWidgetView.swift:181-191 | the four bands below 0, [0, 5), [5, 14) and from 14 up, each closed below and open above |
| PriceTier.TierOfMonotone | ComEdPriceTrackerWidget/Views/MediumWidgetView.swift:181-191 | a higher price never falls in a cheaper band |
| PriceTier.LabelInjective | ComEdPriceTrackerWidget/Views/MediumWidgetView.swift:181-191 | the label determines the band |
| PriceTier.BadgeAndGradientInjective | ComEdPriceTrackerWidget/Views/MediumWidgetView.swift:145-155 | each band has its own background and its own status symbol |
| MediumWidgetView.GetBackgroundGradient | ComEdPriceTrackerWidget/Views/MediumWidgetView.swift:145-155 | equals the shared band background of the price |
| MediumWidgetView.GetPriceColor | ComEdPriceTrackerWidget/Views/MediumWidgetView.swift:157-167 | equals the band color; green iff below 5, yellow iff in [5, 14), red iff 14 or more |
| MediumWidgetView.GetPriceIcon | ComEdPriceTrackerWidget/Views/MediumWidgetView.swift:169-179 | equals the band's large icon |
| MediumWidgetView.GetPriceLabel | ComEdPriceTrackerWidget/Views/MediumWidgetView.swift:181-191 | equals the band label; each of the four labels holds iff the price is in its band |
| MediumWidgetView.GetPriceAdvice | ComEdPriceTrackerWidget/Views/MediumWidgetView.swift:193-203 | equals the band's advice |
| MediumWidgetView.StatusBadgeFor | ComEdPriceTrackerWidget/Views/MediumWidgetView.swift:34-46 | the status symbol in `body` is the band's symbol |
| MediumWidgetView.PresentationFollowsLabel | ComEdPriceTrackerWidget/Views/MediumWidgetView.swift:145-203 | two prices with the same label get the same color, icon, advice, symbol and background |
| MediumWidgetView.AdviceAndIconsDistinct | ComEdPriceTrackerWidget/Views/MediumWidgetView.swift:169-203 | the four advice texts are pairwise distinct, and so are the four icons |
| MediumWidgetView.Body | ComEdPriceTrackerWidget/Views/MediumWidgetView.swift:12-123 | shows the price panel iff both the price and its instant are present. The panel carries that price and instant, with the band's label, label color, symbol, advice and icon. Otherwise it is the unavailable panel with the entry's error |
| MediumWidgetView.Background | ComEdPriceTrackerWidget/Views/MediumWidgetView.swift:127-142 | the band background when a price is present, gray otherwise |
| SmallWidgetView.GetBackgroundGradient | ComEdPriceTrackerWidget/Views/SmallWidgetView.swift:99-109 | equals the shared band background of the price |
| SmallWidgetView.GetPriceColor | ComEdPriceTrackerWidget/Views/SmallWidgetView.swift:111-121 | equals the band color; green iff below 5, yellow iff in [5, 14), red iff 14 or more |
| SmallWidgetView.GetPriceLabel | ComEdPriceTrackerWidget/Views/SmallWidgetView.swift:123-133 | equals the band label; each of the four labels holds iff the price is in its band |
| SmallWidgetView.StatusBadgeFor | ComEdPriceTrackerWidget/Views/SmallWidgetView.swift:28-46 | the status symbol in `body` is the band's symbol |
| SmallWidgetView.BadgeAndGradientFollowLabel | ComEdPriceTrackerWidget/Views/SmallWidgetView.swift:28-133 | two prices with the same label get the same symbol, background and color |
| SmallWidgetView.Body | ComEdPriceTrackerWidget/Views/SmallWidgetView.swift:12-77 | shows the price panel iff both the price and its instant are present. The panel carries that price and instant, with the band's label, symbol and color. Otherwise it is the unavailable panel with the entry's error |
| SmallWidgetView.Background | ComEdPriceTrackerWidget/Views/SmallWidgetView.swift:81-97 | the band background when a price is present, gray otherwise |
| PriceDisplay.GetPriceLabel | ComEdPriceTracker/Views/Components/PriceDisplay.swift:92-102 | equals the band label; each of the four labels holds iff the price is in its band |
| PriceDisplay.IndicatorIcon | ComEdPriceTracker/Views/Components/PriceDisplay.swift:39-55 | a negative price gets the negative symbol. A price that is not negative gets the symbol of its band, cut at 5.0 and 14.0 |
| PriceDisplay.IconAgreesWithLabel | ComEdPriceTracker/Views/Components/PriceDisplay.swift:39-102 | two prices with the same label get the same indicator icon |
| PriceChart.MaxPrice | ComEdPriceTracker/Views/Components/PriceChart.swift:10-13 | 1.1 times a value that is at least the high threshold and every price. That value is the threshold, a price, or 0 for no data |
| PriceChart.MinPrice | ComEdPriceTracker/Views/Components/PriceChart.swift:15-18 | 0.9 times a value that is at most the low threshold and every price. That value is the threshold, a price, or 0 for no data |
| PriceChart.ScaleIsProper | ComEdPriceTracker/Views/Components/PriceChart.swift:10-18 | with a positive high threshold the lower bound is strictly below the upper bound |
| PriceChart.YPosition | ComEdPriceTracker/Views/Components/PriceChart.swift:187-193 | mid-height on a flat scale; otherwise the distance from the bottom is proportional to the price's distance above the scale's minimum |
| PriceChart.YPositionEndpoints | ComEdPriceTracker/Views/Components/PriceChart.swift:187-193 | the scale's minimum is at the full height and its maximum at 0 |
| PriceChart.YPositionStrictlyDecreasing | ComEdPriceTracker/Views/Components/PriceChart.swift:187-193 | on a proper scale and a positive height, a dearer price is drawn strictly higher |
| PriceChart.CircleColor | ComEdPriceTracker/Views/Components/PriceChart.swift:210-218 | red iff at least the high threshold; green iff below it and at most the low threshold; blue otherwise |
| PriceChart.CircleColorIsStatusColor | ComEdPriceTracker/Views/Components/PriceChart.swift:210-218 | a point's color is the widget's status color for the same thresholds |
| PriceChart.XStep | ComEdPriceTracker/Views/Components/PriceChart.swift:136 | the step is positive, and count - 1 steps span the width |
| PriceChart.DragIndex | ComEdPriceTracker/Views/Components/PriceChart.swift:136-137 | never past the last index. It is negative iff the drag is a whole step left of the first point. Inside the chart it picks the step the drag is in; at or past the right edge it picks the last point |
| PriceChart.Chart.constructor | ComEdPriceTracker/Views/Components/PriceChart.swift:3-8 | nothing is selected |
| PriceChart.Chart.OnPointTapped | ComEdPriceTracker/Views/Components/PriceChart.swift:87-89 | selects the tapped point |
| PriceChart.Chart.OnDragChanged | ComEdPriceTracker/Views/Components/PriceChart.swift:133-142 | with two or more points, a drag whose index is not negative selects the point at that index. Otherwise the selection is unchanged |
| PriceChart.Chart.OnBackgroundTapped | ComEdPriceTracker/Views/Components/PriceChart.swift:147-150 | clears the selection |
| PriceHistoryView.Cutoff | ComEdPriceTracker/Views/PriceHistoryView.swift:81-88 | one day, seven days, or one calendar month before now |
| PriceHistoryView.Filtered | ComEdPriceTracker/Views/PriceHistoryView.swift:80-89 | keeps exactly the points strictly after the cutoff, each as many times as it occurs in the history |
| PriceHistoryView.FilteredPriceData | ComEdPriceTracker/Views/PriceHistoryView.swift:77-90 | keeps exactly the points strictly after the selected interval's cutoff, each as many times as it occurs in the history |
| PriceHistoryView.FilteredIsSubsequence | ComEdPriceTracker/Views/PriceHistoryView.swift:80-89 | the kept points keep their order |
| PriceHistoryView.EarlierCutoffKeepsMore | ComEdPriceTracker/Views/PriceHistoryView.swift:82-87 | an earlier cutoff keeps every point a later one keeps, in the same order |
| PriceHistoryView.WeekContainsDay | ComEdPriceTracker/Views/PriceHistoryView.swift:82-85 | the week selection contains the day selection, in order |
| PriceHistoryView.AveragePrice | ComEdPriceTracker/Views/PriceHistoryView.swift:93-97 | 0 for no points; otherwise the average times the count is the sum of the prices |
| PriceHistoryView.HighestPrice | ComEdPriceTracker/Views/PriceHistoryView.swift:100-102 | 0 for no points; otherwise a point's price that bounds every price from above |
| PriceHistoryView.LowestPrice | ComEdPriceTracker/Views/PriceHistoryView.swift:105-107 | 0 for no points; otherwise a point's price that bounds every price from below |
| PriceHistoryView.CurrentPrice | ComEdPriceTracker/Views/PriceHistoryView.swift:110-112 | the last point's price, or 0 for no points |
| PriceHistoryView.AverageBetweenExtremes | ComEdPriceTracker/Views/PriceHistoryView.swift:93-107 | for a non-empty selection, lowest <= average <= highest |
| ThresholdEditor.Clamp | ComEdPriceTracker/Views/Components/ThresholdEditor.swift:159 | in [0, 20]; a number already there is kept, below gives 0, above gives 20 |
| ThresholdEditor.ClampIdempotent | ComEdPriceTracker/Views/Components/ThresholdEditor.swift:159 | clamping twice is clamping once |
| ThresholdEditor.FillFraction | ComEdPriceTracker/Views/Components/ThresholdEditor.swift:83 | fraction times 20 is the threshold; in [0, 1] for a threshold in [0, 20] |
| ThresholdEditor.Editor.constructor | ComEdPriceTracker/Views/Components/ThresholdEditor.swift:14-21 | the temporary value starts at the threshold, not editing |
| ThresholdEditor.Editor.SliderEditingChanged | ComEdPriceTracker/Views/Components/ThresholdEditor.swift:47-52 | tracks the editing flag; ending an edit copies the temporary value into the threshold |
| ThresholdEditor.Editor.SliderMoved | ComEdPriceTracker/Views/Components/ThresholdEditor.swift:43-46 | writes the temporary value while editing and the threshold otherwise, keeping both in range |
| ThresholdEditor.Editor.KeyboardTapped | ComEdPriceTracker/Views/Components/ThresholdEditor.swift:56-60 | copies the threshold into the temporary value and starts editing |
| ThresholdEditor.Editor.SaveValue | ComEdPriceTracker/Views/Components/ThresholdEditor.swift:156-161 | a parsed number is stored clamped; text that does not parse changes nothing |
| ThresholdEditor.Editor.Done | ComEdPriceTracker/Views/Components/ThresholdEditor.swift:137-141 | save, then the threshold becomes the temporary value and editing ends; after a number the threshold is in [0, 20] |
| ThresholdEditor.Editor.Cancel | ComEdPriceTracker/Views/Components/ThresholdEditor.swift:134-136 | closing the sheet ends editing and saves nothing |
| ThresholdEditor.KeyboardEntry | ComEdPriceTracker/Views/Components/ThresholdEditor.swift:56-68 | typing a number and pressing Done commits the clamped number as the threshold |

## Left out

- Network I/O is not modelled: the request, the HTTP response object and JSON decoding. A fetch
  is modelled from what its completion handler receives (`APIService.Transport`). The
  `URL(string:)` guards always succeed on their constant URLs, so `invalidURL` is never
  produced.
- `Double(String)` is not modelled. A feed entry carries its parse result as an `Option`.
- Error `localizedDescription` text is a string parameter.
- `Calendar.current` is a calendar at a fixed UTC offset. Daylight-saving changes are not
  modelled.
- "One month ago" in the history filter is a parameter. The `?? now` fallbacks of
  `date(byAdding:)` are not modelled, because those calls do not fail for day and month
  offsets.
- `Dictionary(grouping:)` key order is unspecified in Swift. The model uses first appearance.
  The weekly result is re-sorted by date, so only the order of records with equal dates could
  differ, and there are none.
- Sorting.SortBy: does not state stability. Swift does not document `sorted(by:)` as stable,
  so no property here depends on the order of equal keys.
- Floating point is modelled as exact reals. IEEE-754 rounding, NaN and infinities are not
  modelled. So `Int(_:)` trapping on out-of-range or non-finite values is not modelled.
- PriceChart.Chart.OnDragChanged: requires a positive width when there are two or more points.
  A zero-width chart would divide by zero, and `Int(_:)` traps on the result.
- The chart's selected-point position looks up the point by its `UUID` (`firstIndex(where:)`).
  Points are compared by value here, so identity is not modelled.
- Not modelled: tooltip placement, the `Path` drawing loop, grid lines, axis labels, fonts,
  layout, `String(format:)`, `DateFormatter`, `formatValue`, the initial text of the number
  field and the interval picker's titles (`TimeInterval.rawValue`).
- The slider's 0.1 step snapping is not modelled. A slider value is any real in [0, 20].
- `DispatchQueue.main.async` hops and `[weak self]` are not modelled. A completion is a later
  method call with the result.
- `PriceDataStore` calls `fetchLivePrice` and `fetchHistoricalPrices`, which are not part of
  this model. Their result is a parameter of the completion methods.
- The widget reads a suite store that falls back to the standard store. Both are one key-value
  map here.
- The widget's `placeholder` and `getSnapshot` sample entries are not modelled.
- NotificationService.swift, SettingsView.swift, HomeView.swift, ContentView.swift,
  SceneDelegate.swift and main.swift are UI and app shell, and are not part of this model.
  `SettingsView`'s own reset uses different defaults and fields that `UserSettings` does not
  have.
- `CurrentPrice.isNegative`, `priceColor`, `formattedPrice` and `priceDescription` are not
  part of this model. The card's icon takes `isNegative` as a parameter.
