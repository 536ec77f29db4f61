/**
 * The history screen's derived values: the points after the chosen interval's cutoff, and
 * their average, highest, lowest and latest price.
 */
module PriceHistoryView {

  import opened Stats
  import opened Clock
  import opened PriceData

  datatype TimeInterval = Day | Week | Month

  /**
   * The instant the filter compares against: one or seven days before `now`, or, for a month,
   * `monthAgo`, the calendar's one-month-earlier instant, which is a parameter here.
   */
  function Cutoff(interval: TimeInterval, now: int, monthAgo: int): (c: int)
    ensures interval == Day ==> c == DaysBefore(now, 1)
    ensures interval == Week ==> c == DaysBefore(now, 7)
    ensures interval == Month ==> c == monthAgo
  {
    match interval
    case Day => DaysBefore(now, 1)
    case Week => DaysBefore(now, 7)
    case Month => monthAgo
  }

  /** `a` is `b` with some elements removed and the rest kept in order. */
  predicate IsSubsequence<T(==)>(a: seq<T>, b: seq<T>)
    decreases |b|
  {
    if b == [] then a == []
    else (a != [] && a[0] == b[0] && IsSubsequence(a[1..], b[1..])) || IsSubsequence(a, b[1..])
  }

  /** The points strictly after `cutoff`, in their original order. */
  function Filtered(history: seq<PricePoint>, cutoff: int): (r: seq<PricePoint>)
    ensures forall p :: p in r <==> p in history && p.millisUTC > cutoff
    ensures forall p :: multiset(r)[p] == if p.millisUTC > cutoff then multiset(history)[p] else 0
    ensures |r| <= |history|
  {
    if history == [] then []
    else
      assert history == [history[0]] + history[1..];
      (if history[0].millisUTC > cutoff then [history[0]] else []) + Filtered(history[1..], cutoff)
  }

  /** `filteredPriceData` for the selected interval. */
  function FilteredPriceData(history: seq<PricePoint>, interval: TimeInterval, now: int, monthAgo: int)
    : (r: seq<PricePoint>)
    ensures forall p :: p in r <==> p in history && p.millisUTC > Cutoff(interval, now, monthAgo)
    ensures forall p :: multiset(r)[p] == (if p.millisUTC > Cutoff(interval, now, monthAgo)
                                           then multiset(history)[p] else 0)
  {
    Filtered(history, Cutoff(interval, now, monthAgo))
  }

  /** The filter only removes points: what is left keeps the history's order. */
  lemma {:induction false} FilteredIsSubsequence(history: seq<PricePoint>, cutoff: int)
    ensures IsSubsequence(Filtered(history, cutoff), history)
  {
    if history != [] {
      FilteredIsSubsequence(history[1..], cutoff);
      var r := Filtered(history, cutoff);
      if history[0].millisUTC > cutoff {
        assert r[0] == history[0] && r[1..] == Filtered(history[1..], cutoff);
      } else {
        assert r == Filtered(history[1..], cutoff);
      }
    }
  }

  /** An earlier cutoff keeps every point a later one keeps, in the same order. */
  lemma {:induction false} EarlierCutoffKeepsMore(history: seq<PricePoint>, earlier: int, later: int)
    requires earlier <= later
    ensures IsSubsequence(Filtered(history, later), Filtered(history, earlier))
  {
    if history != [] {
      EarlierCutoffKeepsMore(history[1..], earlier, later);
      var a := Filtered(history, later);
      var b := Filtered(history, earlier);
      var restA := Filtered(history[1..], later);
      var restB := Filtered(history[1..], earlier);
      if history[0].millisUTC > later {
        assert a[0] == b[0] && a[1..] == restA && b[1..] == restB;
      } else if history[0].millisUTC > earlier {
        assert a == restA && b[1..] == restB;
      } else {
        assert a == restA && b == restB;
      }
    }
  }

  /** The week view holds every point of the day view, in the same order. */
  lemma WeekContainsDay(history: seq<PricePoint>, now: int, monthAgo: int)
    ensures IsSubsequence(FilteredPriceData(history, Day, now, monthAgo),
                          FilteredPriceData(history, Week, now, monthAgo))
  {
    DaysBeforeMonotone(now, 1, 7);
    EarlierCutoffKeepsMore(history, DaysBefore(now, 7), DaysBefore(now, 1));
  }

  /** `averagePrice`: 0 for no points, else the sum of the prices over their count. */
  function AveragePrice(points: seq<PricePoint>): (a: real)
    ensures points == [] ==> a == 0.0
    ensures points != [] ==> a * (|points| as real) == Sum(Prices(points))
  {
    if points == [] then 0.0 else Average(Prices(points))
  }

  /** `highestPrice`: the largest price, or 0 for no points. */
  function HighestPrice(points: seq<PricePoint>): (h: real)
    ensures points == [] ==> h == 0.0
    ensures points != [] ==>
      (exists i :: 0 <= i < |points| && h == points[i].price)
      && forall i :: 0 <= i < |points| ==> points[i].price <= h
  {
    var prices := Prices(points);
    var h := MaxOr(prices, 0.0);
    assert points != [] ==> exists i :: 0 <= i < |points| && h == prices[i];
    h
  }

  /** `lowestPrice`: the smallest price, or 0 for no points. */
  function LowestPrice(points: seq<PricePoint>): (l: real)
    ensures points == [] ==> l == 0.0
    ensures points != [] ==>
      (exists i :: 0 <= i < |points| && l == points[i].price)
      && forall i :: 0 <= i < |points| ==> l <= points[i].price
  {
    var prices := Prices(points);
    var l := MinOr(prices, 0.0);
    assert points != [] ==> exists i :: 0 <= i < |points| && l == prices[i];
    l
  }

  /** `currentPrice`: the last point's price, or 0 for no points. */
  function CurrentPrice(points: seq<PricePoint>): (c: real)
    ensures points == [] ==> c == 0.0
    ensures points != [] ==> c == points[|points| - 1].price
  {
    if points == [] then 0.0 else points[|points| - 1].price
  }

  /** For any non-empty selection the average lies between the lowest and the highest price. */
  lemma AverageBetweenExtremes(points: seq<PricePoint>)
    requires points != []
    ensures LowestPrice(points) <= AveragePrice(points) <= HighestPrice(points)
  {
    AverageWithinRange(Prices(points));
  }
}
