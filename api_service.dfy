/**
 * The feed client's error taxonomy, its response checks and the data shaping it applies to
 * the decoded feed. The HTTP request and the JSON decoder are outside the model: a fetch is
 * modelled from what its completion handler receives (`Transport`).
 */
module APIService {

  import opened Wrappers
  import opened Clock
  import opened Sorting
  import Stats
  import IntConversions
  import opened PriceData

  datatype APIError =
    | InvalidURL
    | NetworkError(reason: string)    // the underlying error's `localizedDescription`
    | InvalidResponse
    | DecodingError(reason: string)   // the decoder error's `localizedDescription`
    | ServerError(code: int)
    | NoData
    | ApiRateLimitExceeded

  const NetworkErrorPrefix: string := "Network error: "
  const DecodingErrorPrefix: string := "Failed to decode data: "
  const ServerErrorPrefix: string := "Server error with code: "

  /** `APIError.description`: a fixed message, or a fixed prefix followed by the error's payload. */
  function Description(e: APIError): (text: string)
    ensures e.NetworkError? ==>
      |text| >= |NetworkErrorPrefix| && text[..|NetworkErrorPrefix|] == NetworkErrorPrefix
      && text[|NetworkErrorPrefix|..] == e.reason
    ensures e.DecodingError? ==>
      |text| >= |DecodingErrorPrefix| && text[..|DecodingErrorPrefix|] == DecodingErrorPrefix
      && text[|DecodingErrorPrefix|..] == e.reason
    ensures e.ServerError? ==>
      |text| > |ServerErrorPrefix| && text[..|ServerErrorPrefix|] == ServerErrorPrefix
    ensures e == InvalidURL ==> text == "Invalid URL"
    ensures e == InvalidResponse ==> text == "Invalid server response"
    ensures e == NoData ==> text == "No data received"
    ensures e == ApiRateLimitExceeded ==> text == "API rate limit exceeded"
  {
    match e
    case InvalidURL => "Invalid URL"
    case NetworkError(reason) => NetworkErrorPrefix + reason
    case InvalidResponse => "Invalid server response"
    case DecodingError(reason) => DecodingErrorPrefix + reason
    case ServerError(code) => ServerErrorPrefix + IntConversions.IntToDecimal(code)
    case NoData => "No data received"
    case ApiRateLimitExceeded => "API rate limit exceeded"
  }

  /** The message of `serverError(c)` names `c`: reading the text after its prefix gives `c` back. */
  lemma ServerErrorDescriptionNamesCode(code: int)
    ensures |Description(ServerError(code))| > |ServerErrorPrefix|
    ensures Description(ServerError(code))[..|ServerErrorPrefix|] == ServerErrorPrefix
    ensures IntConversions.ParseInt(Description(ServerError(code))[|ServerErrorPrefix|..]) == Some(code)
  {
    var m := Description(ServerError(code));
    assert m[|ServerErrorPrefix|..] == IntConversions.IntToDecimal(code);
    IntConversions.IntToDecimalRoundTrip(code);
  }

  /** Two server errors with different codes have different messages. */
  lemma ServerErrorDescriptionsDiffer(c1: int, c2: int)
    requires c1 != c2
    ensures Description(ServerError(c1)) != Description(ServerError(c2))
  {
    ServerErrorDescriptionNamesCode(c1);
    ServerErrorDescriptionNamesCode(c2);
  }

  /** The four messages without a payload are pairwise distinct. */
  lemma FixedDescriptionsDistinct()
    ensures |{Description(InvalidURL), Description(InvalidResponse), Description(NoData),
              Description(ApiRateLimitExceeded)}| == 4
  {
  }

  /** One element of the decoded feed array; `parsedPrice` is `Double(price)` of its text. */
  datatype ApiResponse = ApiResponse(millisUTC: int, parsedPrice: Option<real>)

  /** What the response is decoded as, when there is a body. */
  datatype Body = Decoded(responses: seq<ApiResponse>) | Undecodable(reason: string)

  /**
   * What a data task hands its completion handler: a transport error, the HTTP status code
   * (`None` when the response is not an HTTP response) and the body (`None` when there is none).
   */
  datatype Transport = Transport(error: Option<string>, statusCode: Option<int>, body: Option<Body>)

  /** `(200...299).contains(statusCode)`. */
  predicate Accepted(statusCode: int)
  {
    200 <= statusCode <= 299
  }

  /** The guard chain every fetch runs before shaping the data, in the order the source runs it. */
  function Receive(t: Transport): (r: Result<seq<ApiResponse>, APIError>)
    ensures r.Success? <==>
      t.error.None? && t.statusCode.Some? && Accepted(t.statusCode.value) && t.body.Some? && t.body.value.Decoded?
    ensures r.Success? ==> r.value == t.body.value.responses
    ensures t.error.Some? ==> r == Failure(NetworkError(t.error.value))
    ensures t.error.None? && t.statusCode.None? ==> r == Failure(InvalidResponse)
    ensures t.error.None? && t.statusCode.Some? && !Accepted(t.statusCode.value) ==>
      r == Failure(ServerError(t.statusCode.value))
    ensures t.error.None? && t.statusCode.Some? && Accepted(t.statusCode.value) && t.body.None? ==>
      r == Failure(NoData)
    ensures (t.error.None? && t.statusCode.Some? && Accepted(t.statusCode.value) && t.body.Some?
             && t.body.value.Undecodable?) ==> r == Failure(DecodingError(t.body.value.reason))
    ensures r.Failure? && r.error.ServerError? ==> !Accepted(r.error.code) && t.statusCode == Some(r.error.code)
  {
    if t.error.Some? then Failure(NetworkError(t.error.value))
    else if t.statusCode.None? then Failure(InvalidResponse)
    else if !Accepted(t.statusCode.value) then Failure(ServerError(t.statusCode.value))
    else if t.body.None? then Failure(NoData)
    else match t.body.value
      case Undecodable(reason) => Failure(DecodingError(reason))
      case Decoded(responses) => Success(responses)
  }

  /** `Double(price) ?? 0.0`: the feed's price in millicents, zero when its text does not parse. */
  function Millicents(r: ApiResponse): real
  {
    match r.parsedPrice
    case Some(p) => p
    case None => 0.0
  }

  /** Millicents to cents. */
  function Cents(r: ApiResponse): (c: real)
    ensures c * 10.0 == Millicents(r)
    ensures r.parsedPrice.None? ==> c == 0.0
  {
    Millicents(r) / 10.0
  }

  // ---------------------------------------------------------------- current price

  datatype CurrentPrice = CurrentPrice(price: real, timestampMillis: int, millicents: int)

  /** The first decoded entry as the current price; an empty feed is `noData`. */
  function CurrentPriceOf(responses: seq<ApiResponse>): (r: Result<CurrentPrice, APIError>)
    ensures r.Failure? <==> responses == []
    ensures r.Failure? ==> r.error == NoData
    ensures r.Success? ==>
      && r.value.price * 10.0 == Millicents(responses[0])
      && r.value.timestampMillis == responses[0].millisUTC
      && r.value.millicents == IntConversions.TruncateToInt(Millicents(responses[0]))
  {
    if responses == [] then Failure(NoData)
    else
      var latest := responses[0];
      Success(CurrentPrice(Cents(latest), latest.millisUTC, IntConversions.TruncateToInt(Millicents(latest))))
  }

  /** `fetchCurrentPrice`, from the completion's inputs to the result it reports. */
  function FetchCurrentPrice(t: Transport): (r: Result<CurrentPrice, APIError>)
    ensures Receive(t).Failure? ==> r == Failure(Receive(t).error)
    ensures Receive(t).Success? ==> r == CurrentPriceOf(Receive(t).value)
  {
    match Receive(t)
    case Failure(e) => Failure(e)
    case Success(responses) => CurrentPriceOf(responses)
  }

  // ---------------------------------------------------------------- today's hourly prices

  datatype HourlyPrice = HourlyPrice(price: real, hour: int, dateMillis: int)

  function HourKey(h: HourlyPrice): int
  {
    h.hour
  }

  /** An entry as an hourly price: its price in cents, its local hour and its instant. */
  function ToHourly(cal: Calendar, r: ApiResponse): (h: HourlyPrice)
    ensures 0 <= h.hour < 24 && h.dateMillis == r.millisUTC && h.price == Cents(r)
    ensures h.hour == Hour(cal, r.millisUTC)
    ensures StartOfDay(cal, h.dateMillis) + h.hour * MillisPerHour <= h.dateMillis
    ensures h.dateMillis < StartOfDay(cal, h.dateMillis) + (h.hour + 1) * MillisPerHour
  {
    HourlyPrice(Cents(r), Hour(cal, r.millisUTC), r.millisUTC)
  }

  /** Every entry converted, in order. */
  function ToHourlyAll(cal: Calendar, responses: seq<ApiResponse>): (r: seq<HourlyPrice>)
    ensures |r| == |responses|
    ensures forall k :: 0 <= k < |responses| ==> r[k] == ToHourly(cal, responses[k])
  {
    if responses == [] then [] else [ToHourly(cal, responses[0])] + ToHourlyAll(cal, responses[1..])
  }

  /** The feed entries whose local day is `day`, each as often as in the feed. */
  function OnDay(cal: Calendar, day: int, responses: seq<ApiResponse>): (r: seq<ApiResponse>)
    ensures forall x :: multiset(r)[x] == (if StartOfDay(cal, x.millisUTC) == day then multiset(responses)[x] else 0)
  {
    if responses == [] then []
    else
      assert responses == [responses[0]] + responses[1..];
      (if StartOfDay(cal, responses[0].millisUTC) == day then [responses[0]] else [])
        + OnDay(cal, day, responses[1..])
  }

  /** The feed entries at or after `cutoff`, each as often as in the feed. */
  function Since(cutoff: int, responses: seq<ApiResponse>): (r: seq<ApiResponse>)
    ensures forall x :: multiset(r)[x] == if x.millisUTC >= cutoff then multiset(responses)[x] else 0
  {
    if responses == [] then []
    else
      assert responses == [responses[0]] + responses[1..];
      (if responses[0].millisUTC >= cutoff then [responses[0]] else []) + Since(cutoff, responses[1..])
  }

  /** The `compactMap` of `fetchTodayPrices`: entries whose local day is `today`'s, in feed order. */
  function TodayEntries(cal: Calendar, today: int, responses: seq<ApiResponse>): (r: seq<HourlyPrice>)
    ensures |r| <= |responses|
    ensures forall h :: h in r <==>
      exists k :: 0 <= k < |responses| && StartOfDay(cal, responses[k].millisUTC) == today
                  && h == ToHourly(cal, responses[k])
  {
    if responses == [] then []
    else
      var rest := TodayEntries(cal, today, responses[1..]);
      assert forall k :: 1 <= k < |responses| ==> responses[k] == responses[1..][k - 1];
      assert forall k :: 0 <= k < |responses[1..]| ==> responses[1..][k] == responses[k + 1];
      var first := responses[0];
      if StartOfDay(cal, first.millisUTC) == today then [ToHourly(cal, first)] + rest
      else rest
  }

  /** Today's entries are the feed's entries on that day, converted, in feed order and each as often as in the feed. */
  lemma {:induction false} TodayEntriesAreOnDay(cal: Calendar, today: int, responses: seq<ApiResponse>)
    ensures TodayEntries(cal, today, responses) == ToHourlyAll(cal, OnDay(cal, today, responses))
  {
    if responses != [] {
      TodayEntriesAreOnDay(cal, today, responses[1..]);
      var others := OnDay(cal, today, responses[1..]);
      assert ToHourlyAll(cal, [responses[0]] + others) == [ToHourly(cal, responses[0])] + ToHourlyAll(cal, others);
      assert [] + others == others;
    }
  }

  /** Today's prices sorted by hour; `now` is the instant `Date()` returns. */
  function TodayPrices(cal: Calendar, now: int, responses: seq<ApiResponse>): (r: seq<HourlyPrice>)
    ensures forall i, j :: 0 <= i < j < |r| ==> r[i].hour <= r[j].hour
    ensures multiset(r) == multiset(TodayEntries(cal, StartOfDay(cal, now), responses))
  {
    SortBy(TodayEntries(cal, StartOfDay(cal, now), responses), HourKey)
  }

  /** Every returned price lies on today's local date, and every feed entry on today's date is returned. */
  lemma TodayPricesAreExactlyToday(cal: Calendar, now: int, responses: seq<ApiResponse>)
    ensures forall h :: h in TodayPrices(cal, now, responses) ==>
      StartOfDay(cal, h.dateMillis) == StartOfDay(cal, now) && 0 <= h.hour < 24
    ensures forall k :: 0 <= k < |responses| && StartOfDay(cal, responses[k].millisUTC) == StartOfDay(cal, now) ==>
      ToHourly(cal, responses[k]) in TodayPrices(cal, now, responses)
  {
    var entries := TodayEntries(cal, StartOfDay(cal, now), responses);
    var r := TodayPrices(cal, now, responses);
    forall h | h in r
      ensures StartOfDay(cal, h.dateMillis) == StartOfDay(cal, now) && 0 <= h.hour < 24
    {
      assert h in multiset(r);
      assert h in entries;
    }
    forall k | 0 <= k < |responses| && StartOfDay(cal, responses[k].millisUTC) == StartOfDay(cal, now)
      ensures ToHourly(cal, responses[k]) in r
    {
      assert ToHourly(cal, responses[k]) in entries;
      assert ToHourly(cal, responses[k]) in multiset(r);
    }
  }

  function FetchTodayPrices(cal: Calendar, now: int, t: Transport): (r: Result<seq<HourlyPrice>, APIError>)
    ensures Receive(t).Failure? ==> r == Failure(Receive(t).error)
    ensures Receive(t).Success? ==> r == Success(TodayPrices(cal, now, Receive(t).value))
  {
    match Receive(t)
    case Failure(e) => Failure(e)
    case Success(responses) => Success(TodayPrices(cal, now, responses))
  }

  // ---------------------------------------------------------------- five-minute prices

  function ToPoint(r: ApiResponse): (p: PricePoint)
    ensures p.millisUTC == r.millisUTC && p.price == Cents(r)
  {
    PricePoint(r.millisUTC, Cents(r))
  }

  function ToPoints(responses: seq<ApiResponse>): (r: seq<PricePoint>)
    ensures |r| == |responses|
    ensures forall k :: 0 <= k < |responses| ==> r[k] == ToPoint(responses[k])
  {
    if responses == [] then [] else [ToPoint(responses[0])] + ToPoints(responses[1..])
  }

  /** Orders newest first. */
  function NewestFirstKey(p: PricePoint): int
  {
    -p.millisUTC
  }

  /** Every entry converted to a point, newest first. */
  function FiveMinutePrices(responses: seq<ApiResponse>): (r: seq<PricePoint>)
    ensures |r| == |responses|
    ensures multiset(r) == multiset(ToPoints(responses))
    ensures forall i, j :: 0 <= i < j < |r| ==> r[i].millisUTC >= r[j].millisUTC
  {
    var sorted := SortBy(ToPoints(responses), NewestFirstKey);
    assert |sorted| == |multiset(sorted)| == |multiset(ToPoints(responses))|;
    assert forall i, j :: 0 <= i < j < |sorted| ==> NewestFirstKey(sorted[i]) <= NewestFirstKey(sorted[j]);
    sorted
  }

  function FetchFiveMinutePrices(t: Transport): (r: Result<seq<PricePoint>, APIError>)
    ensures Receive(t).Failure? ==> r == Failure(Receive(t).error)
    ensures Receive(t).Success? ==> r == Success(FiveMinutePrices(Receive(t).value))
  {
    match Receive(t)
    case Failure(e) => Failure(e)
    case Success(responses) => Success(FiveMinutePrices(responses))
  }

  // ---------------------------------------------------------------- weekly prices

  datatype DailyPriceData = DailyPriceData(
    date: int, averagePrice: real, minPrice: real, maxPrice: real, pricePoints: seq<HourlyPrice>)

  /** The `compactMap` of `fetchWeeklyPrices`: entries at or after `cutoff`, in feed order. */
  function RecentEntries(cal: Calendar, cutoff: int, responses: seq<ApiResponse>): (r: seq<HourlyPrice>)
    ensures forall h :: h in r <==>
      exists k :: 0 <= k < |responses| && responses[k].millisUTC >= cutoff && h == ToHourly(cal, responses[k])
  {
    if responses == [] then []
    else
      var rest := RecentEntries(cal, cutoff, responses[1..]);
      assert forall k :: 1 <= k < |responses| ==> responses[k] == responses[1..][k - 1];
      assert forall k :: 0 <= k < |responses[1..]| ==> responses[1..][k] == responses[k + 1];
      var first := responses[0];
      if first.millisUTC >= cutoff then [ToHourly(cal, first)] + rest else rest
  }

  /** The recent entries are the feed's entries at or after the cutoff, converted, in feed order and each as often as in the feed. */
  lemma {:induction false} RecentEntriesAreSince(cal: Calendar, cutoff: int, responses: seq<ApiResponse>)
    ensures RecentEntries(cal, cutoff, responses) == ToHourlyAll(cal, Since(cutoff, responses))
  {
    if responses != [] {
      RecentEntriesAreSince(cal, cutoff, responses[1..]);
      var others := Since(cutoff, responses[1..]);
      assert ToHourlyAll(cal, [responses[0]] + others) == [ToHourly(cal, responses[0])] + ToHourlyAll(cal, others);
      assert [] + others == others;
    }
  }

  /** The local day an entry falls on, as the grouping key. */
  function DayOf(cal: Calendar, h: HourlyPrice): int
  {
    StartOfDay(cal, h.dateMillis)
  }

  /** The keys of `Dictionary(grouping:)`: each day the entries fall on, once, by first appearance. */
  function Days(cal: Calendar, hs: seq<HourlyPrice>): (days: seq<int>)
    ensures forall i, j :: 0 <= i < j < |days| ==> days[i] != days[j]
    ensures forall k :: 0 <= k < |hs| ==> DayOf(cal, hs[k]) in days
    ensures forall i :: 0 <= i < |days| ==> exists k :: 0 <= k < |hs| && DayOf(cal, hs[k]) == days[i]
  {
    if hs == [] then []
    else
      var init := hs[..|hs| - 1];
      var rest := Days(cal, init);
      assert forall k :: 0 <= k < |init| ==> init[k] == hs[k];
      var d := DayOf(cal, hs[|hs| - 1]);
      if d in rest then rest else rest + [d]
  }

  /** One group of `Dictionary(grouping:)`: the entries on `day`, in feed order. */
  function Group(cal: Calendar, hs: seq<HourlyPrice>, day: int): (g: seq<HourlyPrice>)
    ensures forall h :: h in g <==> h in hs && DayOf(cal, h) == day
  {
    if hs == [] then []
    else
      var rest := Group(cal, hs[1..], day);
      assert hs == [hs[0]] + hs[1..];
      assert forall h :: h in hs <==> h == hs[0] || h in hs[1..];
      if DayOf(cal, hs[0]) == day then [hs[0]] + rest else rest
  }

  /** A day's group holds each entry of that day as often as the entries do, and nothing else. */
  lemma {:induction false} GroupKeepsCounts(cal: Calendar, hs: seq<HourlyPrice>, day: int)
    ensures forall h :: multiset(Group(cal, hs, day))[h] == if DayOf(cal, h) == day then multiset(hs)[h] else 0
  {
    if hs != [] {
      GroupKeepsCounts(cal, hs[1..], day);
      assert hs == [hs[0]] + hs[1..];
    }
  }

  /** `prices.map { $0.price }`. */
  function HourlyPrices(hs: seq<HourlyPrice>): (r: seq<real>)
    ensures |r| == |hs|
    ensures forall i {:trigger r[i]} :: 0 <= i < |hs| ==> r[i] == hs[i].price
  {
    if hs == [] then [] else [hs[0].price] + HourlyPrices(hs[1..])
  }

  /** The prices of two lists put together are the prices of the first, then of the second. */
  lemma HourlyPricesAppend(x: seq<HourlyPrice>, y: seq<HourlyPrice>)
    ensures HourlyPrices(x + y) == HourlyPrices(x) + HourlyPrices(y)
  {
    assert forall i :: 0 <= i < |x + y| ==> HourlyPrices(x + y)[i] == (HourlyPrices(x) + HourlyPrices(y))[i];
  }

  /** Taking out the entry at `k` takes one copy of its price out of the prices. */
  lemma HourlyPricesRemove(b: seq<HourlyPrice>, k: nat)
    requires k < |b|
    ensures multiset(HourlyPrices(b)) == multiset(HourlyPrices(b[..k] + b[k + 1..])) + multiset{b[k].price}
  {
    var left, right := b[..k], b[k + 1..];
    assert b == left + ([b[k]] + right);
    HourlyPricesAppend(left, [b[k]] + right);
    HourlyPricesAppend([b[k]], right);
    HourlyPricesAppend(left, right);
    assert HourlyPrices([b[k]]) == [b[k].price];
  }

  /** Reordering the entries reorders their prices the same way. */
  lemma {:induction false} HourlyPricesPermutation(a: seq<HourlyPrice>, b: seq<HourlyPrice>)
    requires multiset(a) == multiset(b)
    ensures multiset(HourlyPrices(a)) == multiset(HourlyPrices(b))
  {
    if a == [] {
      assert |b| == |multiset(b)| == 0;
    } else {
      var n := |a| - 1;
      assert a[n] in multiset(b);
      var k :| 0 <= k < |b| && b[k] == a[n];
      MultisetRemove(b, k);
      MultisetRemove(a, n);
      HourlyPricesPermutation(a[..n] + a[n + 1..], b[..k] + b[k + 1..]);
      HourlyPricesRemove(a, n);
      HourlyPricesRemove(b, k);
    }
  }

  /** Bounds on the price list are bounds on every entry's price. */
  lemma HourlyPricesBetween(hs: seq<HourlyPrice>, lo: real, hi: real)
    requires forall i :: 0 <= i < |HourlyPrices(hs)| ==> lo <= HourlyPrices(hs)[i] <= hi
    ensures forall h :: h in hs ==> lo <= h.price <= hi
  {
    forall h | h in hs ensures lo <= h.price <= hi {
      var i :| 0 <= i < |hs| && hs[i] == h;
      assert HourlyPrices(hs)[i] == h.price;
    }
  }

  /**
   * The record built for one non-empty group: its entries sorted by hour, the mean of their
   * prices, and the smallest and largest of them.
   */
  function DailyOf(day: int, group: seq<HourlyPrice>): (d: DailyPriceData)
    requires |group| > 0
    ensures d.date == day
    ensures d.minPrice <= d.averagePrice <= d.maxPrice
    ensures forall h :: h in group ==> d.minPrice <= h.price <= d.maxPrice
    ensures multiset(d.pricePoints) == multiset(group)
    ensures forall i, j :: 0 <= i < j < |d.pricePoints| ==> d.pricePoints[i].hour <= d.pricePoints[j].hour
  {
    var values := HourlyPrices(group);
    var lo, hi := Stats.Min(values), Stats.Max(values);
    Stats.AverageWithinRange(values);
    HourlyPricesBetween(group, lo, hi);
    var average := Stats.Average(values);
    var sorted := SortBy(group, HourKey);
    assert forall i, j :: 0 <= i < j < |sorted| ==> HourKey(sorted[i]) <= HourKey(sorted[j]);
    DailyPriceData(day, average, lo, hi, sorted)
  }

  /**
   * A day's record holds the mean of its entries' prices, and its minimum and maximum are
   * prices of its entries; with `DailyOf`'s bounds, they are the smallest and the largest.
   */
  lemma DailyOfValues(day: int, group: seq<HourlyPrice>)
    requires |group| > 0
    ensures DailyOf(day, group).averagePrice == Stats.Sum(HourlyPrices(group)) / (|group| as real)
    ensures DailyOf(day, group).minPrice in HourlyPrices(group)
    ensures DailyOf(day, group).maxPrice in HourlyPrices(group)
  {
  }

  /** `Dictionary(grouping:)` followed by `map`: one record per day the entries fall on. */
  function GroupedByDay(cal: Calendar, hs: seq<HourlyPrice>): (r: seq<DailyPriceData>)
    ensures |r| == |Days(cal, hs)|
    ensures forall i :: 0 <= i < |r| ==>
      |Group(cal, hs, Days(cal, hs)[i])| > 0 && r[i] == DailyOf(Days(cal, hs)[i], Group(cal, hs, Days(cal, hs)[i]))
  {
    var days := Days(cal, hs);
    assert forall i :: 0 <= i < |days| ==> |Group(cal, hs, days[i])| > 0 by {
      forall i | 0 <= i < |days| ensures |Group(cal, hs, days[i])| > 0 {
        var k :| 0 <= k < |hs| && DayOf(cal, hs[k]) == days[i];
        assert hs[k] in Group(cal, hs, days[i]);
      }
    }
    seq(|days|, i requires 0 <= i < |days| => DailyOf(days[i], Group(cal, hs, days[i])))
  }

  /** Orders newest day first. */
  function NewestDayFirstKey(d: DailyPriceData): int
  {
    -d.date
  }

  /** `fetchWeeklyPrices`' shaping: the last seven days grouped by local day, newest day first. */
  function WeeklyPrices(cal: Calendar, now: int, responses: seq<ApiResponse>): (r: seq<DailyPriceData>)
    ensures multiset(r) == multiset(GroupedByDay(cal, RecentEntries(cal, DaysBefore(now, 7), responses)))
    ensures forall i, j :: 0 <= i < j < |r| ==> r[i].date >= r[j].date
  {
    var hs := RecentEntries(cal, DaysBefore(now, 7), responses);
    SortBy(GroupedByDay(cal, hs), NewestDayFirstKey)
  }

  function FetchWeeklyPrices(cal: Calendar, now: int, t: Transport): (r: Result<seq<DailyPriceData>, APIError>)
    ensures Receive(t).Failure? ==> r == Failure(Receive(t).error)
    ensures Receive(t).Success? ==> r == Success(WeeklyPrices(cal, now, Receive(t).value))
  {
    match Receive(t)
    case Failure(e) => Failure(e)
    case Success(responses) => Success(WeeklyPrices(cal, now, responses))
  }

  /**
   * A well-formed daily record: a non-empty list of entries at or after `cutoff` that share the
   * record's date, sorted by hour, whose average is the mean of their prices and whose minimum
   * and maximum are prices of its entries that bound every other.
   */
  ghost predicate WellFormedRecord(cal: Calendar, cutoff: int, d: DailyPriceData)
  {
    && |d.pricePoints| > 0
    && d.averagePrice == Stats.Sum(HourlyPrices(d.pricePoints)) / (|d.pricePoints| as real)
    && d.minPrice in HourlyPrices(d.pricePoints)
    && d.maxPrice in HourlyPrices(d.pricePoints)
    && d.minPrice <= d.averagePrice <= d.maxPrice
    && (forall i, j :: 0 <= i < j < |d.pricePoints| ==> d.pricePoints[i].hour <= d.pricePoints[j].hour)
    && (forall h :: h in d.pricePoints ==>
          h.dateMillis >= cutoff && StartOfDay(cal, h.dateMillis) == d.date
          && d.minPrice <= h.price <= d.maxPrice)
  }

  /** Sorting a day's entries by hour does not change their mean, smallest or largest price. */
  lemma SortedEntriesKeepValues(day: int, group: seq<HourlyPrice>)
    requires |group| > 0
    ensures var d := DailyOf(day, group);
      && d.averagePrice == Stats.Sum(HourlyPrices(d.pricePoints)) / (|d.pricePoints| as real)
      && d.minPrice in HourlyPrices(d.pricePoints)
      && d.maxPrice in HourlyPrices(d.pricePoints)
  {
    var d := DailyOf(day, group);
    assert |multiset(d.pricePoints)| == |multiset(group)|;
    DailyOfValues(day, group);
    HourlyPricesPermutation(group, d.pricePoints);
    Stats.SumPermutation(HourlyPrices(group), HourlyPrices(d.pricePoints));
    assert d.minPrice in multiset(HourlyPrices(d.pricePoints));
    assert d.maxPrice in multiset(HourlyPrices(d.pricePoints));
  }

  lemma GroupRecordIsWellFormed(cal: Calendar, cutoff: int, hs: seq<HourlyPrice>, day: int)
    requires forall h :: h in hs ==> h.dateMillis >= cutoff
    requires |Group(cal, hs, day)| > 0
    ensures WellFormedRecord(cal, cutoff, DailyOf(day, Group(cal, hs, day)))
  {
    var group := Group(cal, hs, day);
    var d := DailyOf(day, group);
    SortedEntriesKeepValues(day, group);
    assert |d.pricePoints| > 0 by {
      assert |multiset(d.pricePoints)| == |multiset(group)|;
    }
    assert forall h :: h in d.pricePoints ==> h in group by {
      forall h | h in d.pricePoints ensures h in group {
        assert h in multiset(group);
      }
    }
  }

  /** A weekly record is the record of one non-empty group of the recent entries. */
  lemma WeeklyRecordIsGroupRecord(cal: Calendar, now: int, responses: seq<ApiResponse>, d: DailyPriceData)
    returns (day: int)
    requires d in WeeklyPrices(cal, now, responses)
    ensures |Group(cal, RecentEntries(cal, DaysBefore(now, 7), responses), day)| > 0
    ensures d == DailyOf(day, Group(cal, RecentEntries(cal, DaysBefore(now, 7), responses), day))
  {
    var hs := RecentEntries(cal, DaysBefore(now, 7), responses);
    var records := GroupedByDay(cal, hs);
    assert d in multiset(WeeklyPrices(cal, now, responses));
    var i :| 0 <= i < |records| && records[i] == d;
    day := Days(cal, hs)[i];
  }

  /** Every weekly record is well formed for the seven-day cutoff. */
  lemma WeeklyRecordsAreWellFormed(cal: Calendar, now: int, responses: seq<ApiResponse>)
    ensures forall d :: d in WeeklyPrices(cal, now, responses) ==> WellFormedRecord(cal, DaysBefore(now, 7), d)
  {
    var cutoff := DaysBefore(now, 7);
    assert forall h :: h in RecentEntries(cal, cutoff, responses) ==> h.dateMillis >= cutoff;
    forall d | d in WeeklyPrices(cal, now, responses)
      ensures WellFormedRecord(cal, cutoff, d)
    {
      var day := WeeklyRecordIsGroupRecord(cal, now, responses, d);
      GroupRecordIsWellFormed(cal, cutoff, RecentEntries(cal, cutoff, responses), day);
    }
  }

  /** Weekly records are newest first with no date repeated: dates strictly decrease. */
  lemma WeeklyDatesStrictlyDecrease(cal: Calendar, now: int, responses: seq<ApiResponse>)
    ensures forall i, j :: 0 <= i < j < |WeeklyPrices(cal, now, responses)| ==>
      WeeklyPrices(cal, now, responses)[i].date > WeeklyPrices(cal, now, responses)[j].date
  {
    var hs := RecentEntries(cal, DaysBefore(now, 7), responses);
    var records := GroupedByDay(cal, hs);
    assert KeysDistinct(records, NewestDayFirstKey);
    SortByKeepsKeysDistinct(records, NewestDayFirstKey);
    var r := WeeklyPrices(cal, now, responses);
    SortedDistinctIsStrict(r, NewestDayFirstKey);
  }

  /** Before the final sort, an entry lands in the record of its own day. */
  lemma EntryInItsDayRecord(cal: Calendar, hs: seq<HourlyPrice>, h: HourlyPrice) returns (i: nat)
    requires h in hs
    ensures i < |Days(cal, hs)|
    ensures GroupedByDay(cal, hs)[i].date == DayOf(cal, h)
    ensures h in GroupedByDay(cal, hs)[i].pricePoints
  {
    var days := Days(cal, hs);
    var m :| 0 <= m < |hs| && hs[m] == h;
    assert DayOf(cal, hs[m]) in days;
    i :| 0 <= i < |days| && days[i] == DayOf(cal, h);
    var group := Group(cal, hs, days[i]);
    assert h in group;
    assert h in multiset(GroupedByDay(cal, hs)[i].pricePoints);
  }

  /** Each entry of the last seven days lands in the record of its own day. */
  lemma WeeklyCoversRecentEntries(cal: Calendar, now: int, responses: seq<ApiResponse>)
    ensures forall k :: 0 <= k < |responses| && responses[k].millisUTC >= DaysBefore(now, 7) ==>
      exists i :: 0 <= i < |WeeklyPrices(cal, now, responses)|
        && WeeklyPrices(cal, now, responses)[i].date == StartOfDay(cal, responses[k].millisUTC)
        && ToHourly(cal, responses[k]) in WeeklyPrices(cal, now, responses)[i].pricePoints
  {
    var cutoff := DaysBefore(now, 7);
    var hs := RecentEntries(cal, cutoff, responses);
    var records := GroupedByDay(cal, hs);
    var r := WeeklyPrices(cal, now, responses);
    forall k | 0 <= k < |responses| && responses[k].millisUTC >= cutoff
      ensures exists i :: 0 <= i < |r| && r[i].date == StartOfDay(cal, responses[k].millisUTC)
                          && ToHourly(cal, responses[k]) in r[i].pricePoints
    {
      var h := ToHourly(cal, responses[k]);
      assert h in hs;
      var i := EntryInItsDayRecord(cal, hs, h);
      assert records[i] in multiset(r);
      var j :| 0 <= j < |r| && r[j] == records[i];
    }
  }
}
