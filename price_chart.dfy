/**
 * The price chart: its vertical scale (the padded upper and lower bounds and the price-to-height
 * map), the color of each data point, and the selected point that taps and drags change.
 */
module PriceChart {

  import opened Wrappers
  import opened Palette
  import opened Stats
  import opened IntConversions
  import opened PriceData
  import PriceTrackerWidget

  /** `maxPrice`: the larger of the highest price (0 for no data) and the high threshold, plus 10%. */
  function MaxPrice(priceData: seq<PricePoint>, highThreshold: real): (m: real)
    ensures var top := m / 1.1;
      top >= highThreshold
      && (forall i :: 0 <= i < |priceData| ==> priceData[i].price <= top)
      && (top == highThreshold || (priceData == [] && top == 0.0)
          || exists i :: 0 <= i < |priceData| && top == priceData[i].price)
    ensures priceData == [] ==> m == 1.1 * (if highThreshold >= 0.0 then highThreshold else 0.0)
  {
    var maxDataPrice := MaxOr(Prices(priceData), 0.0);
    (if maxDataPrice >= highThreshold then maxDataPrice else highThreshold) * 1.1
  }

  /** `minPrice`: the smaller of the lowest price (0 for no data) and the low threshold, less 10%. */
  function MinPrice(priceData: seq<PricePoint>, lowThreshold: real): (m: real)
    ensures var bottom := m / 0.9;
      bottom <= lowThreshold
      && (forall i :: 0 <= i < |priceData| ==> bottom <= priceData[i].price)
      && (bottom == lowThreshold || (priceData == [] && bottom == 0.0)
          || exists i :: 0 <= i < |priceData| && bottom == priceData[i].price)
    ensures priceData == [] ==> m == 0.9 * (if lowThreshold <= 0.0 then lowThreshold else 0.0)
  {
    var minDataPrice := MinOr(Prices(priceData), 0.0);
    (if minDataPrice <= lowThreshold then minDataPrice else lowThreshold) * 0.9
  }

  /**
   * With a positive high threshold the scale never collapses: the padded lower bound lies strictly
   * below the padded upper bound, whatever the data and the low threshold.
   */
  lemma ScaleIsProper(priceData: seq<PricePoint>, highThreshold: real, lowThreshold: real)
    requires highThreshold > 0.0
    ensures MinPrice(priceData, lowThreshold) < MaxPrice(priceData, highThreshold)
  {
    var top := MaxPrice(priceData, highThreshold) / 1.1;
    var bottom := MinPrice(priceData, lowThreshold) / 0.9;
    assert top > 0.0;
    if priceData == [] {
      assert bottom <= 0.0;
    } else {
      assert bottom <= priceData[0].price <= top;
    }
    assert bottom <= top;
  }

  /**
   * `yPosition`: height measured from the top. A flat scale puts every price at mid-height;
   * otherwise the price is placed linearly, `maxPrice` at the top and `minPrice` at the bottom.
   */
  function YPosition(price: real, height: real, maxPrice: real, minPrice: real): (y: real)
    ensures maxPrice == minPrice ==> y == height / 2.0
    ensures maxPrice != minPrice ==> (height - y) * (maxPrice - minPrice) == (price - minPrice) * height
  {
    var range := maxPrice - minPrice;
    if range == 0.0 then height / 2.0
    else
      var relativePosition := 1.0 - (price - minPrice) / range;
      relativePosition * height
  }

  /** The bottom of the scale is drawn at the full height and the top of the scale at zero. */
  lemma YPositionEndpoints(height: real, maxPrice: real, minPrice: real)
    requires maxPrice != minPrice
    ensures YPosition(minPrice, height, maxPrice, minPrice) == height
    ensures YPosition(maxPrice, height, maxPrice, minPrice) == 0.0
  {
  }

  /** On a proper scale and a positive height, a dearer price is drawn strictly higher up. */
  lemma YPositionStrictlyDecreasing(p: real, q: real, height: real, maxPrice: real, minPrice: real)
    requires minPrice < maxPrice && height > 0.0
    requires p < q
    ensures YPosition(q, height, maxPrice, minPrice) < YPosition(p, height, maxPrice, minPrice)
  {
    var range := maxPrice - minPrice;
    var yp := YPosition(p, height, maxPrice, minPrice);
    var yq := YPosition(q, height, maxPrice, minPrice);
    assert (height - yq) * range - (height - yp) * range == (q - p) * height;
    assert (yp - yq) * range == (q - p) * height;
    assert (q - p) * height > 0.0;
  }

  /** `circleColor`: red from the high threshold up, else green up to the low threshold, else blue. */
  function CircleColor(price: real, highThreshold: real, lowThreshold: real): (c: Color)
    ensures c == Red <==> price >= highThreshold
    ensures c == Green <==> price < highThreshold && price <= lowThreshold
    ensures c == Blue <==> lowThreshold < price < highThreshold
  {
    if price >= highThreshold then Red
    else if price <= lowThreshold then Green
    else Blue
  }

  /** A point's color is the widget's status color for the same price and thresholds. */
  lemma CircleColorIsStatusColor(price: real, highThreshold: real, lowThreshold: real)
    ensures CircleColor(price, highThreshold, lowThreshold)
         == PriceTrackerWidget.StatusColor(PriceTrackerWidget.StatusFor(price, highThreshold, lowThreshold))
  {
  }

  /** The horizontal distance between neighbouring data points. */
  function XStep(width: real, count: int): (step: real)
    requires count > 1 && width > 0.0
    ensures step > 0.0 && step * (count - 1) as real == width
  {
    width / (count - 1) as real
  }

  /**
   * The index under a drag at `locationX`: the drag position in steps, truncated toward zero,
   * capped at the last index. It is never past the end, and it is negative exactly when the drag
   * is at least one whole step left of the first point; a drag inside the chart picks the point
   * whose step the drag is in.
   */
  function DragIndex(locationX: real, width: real, count: int): (i: int)
    requires count > 1 && width > 0.0
    ensures i <= count - 1
    ensures i >= 0 <==> locationX > -XStep(width, count)
    ensures 0.0 <= locationX && i < count - 1 ==>
      i as real * XStep(width, count) <= locationX < (i + 1) as real * XStep(width, count)
    ensures locationX >= width ==> i == count - 1
  {
    var step := XStep(width, count);
    var steps := TruncateToInt(locationX / step);
    QuotientInSteps(locationX, step, (count - 1) as real);
    if 0.0 <= locationX then
      StepContainsPosition(locationX, step, steps);
      if steps <= count - 1 then steps else count - 1
    else
      if steps <= count - 1 then steps else count - 1
  }

  /** A position whose count of steps lies in `[n, n + 1)` lies in the `n`-th step. */
  lemma StepContainsPosition(x: real, step: real, n: int)
    requires step > 0.0
    requires n as real <= x / step < n as real + 1.0
    ensures n as real * step <= x < (n + 1) as real * step
  {
    var q := x / step;
    assert q * step == x;
    ScaleBounds(n as real, q, n as real + 1.0, step);
    var hi := n as real + 1.0;
    assert q * step < hi * step;
    assert x < hi * step;
    assert (n + 1) as real == hi;
  }

  /** How a position relates to its position counted in steps. */
  lemma QuotientInSteps(x: real, step: real, n: real)
    requires step > 0.0
    ensures (x / step) * step == x
    ensures x / step > -1.0 <==> x > -step
    ensures x >= step * n ==> x / step >= n
  {
    var q := x / step;
    assert q * step == x;
    if x >= step * n {
      assert (q - n) * step >= 0.0;
    }
  }

  /** Multiplying `lo <= q < hi` by a positive factor keeps both bounds. */
  lemma ScaleBounds(lo: real, q: real, hi: real, factor: real)
    requires lo <= q < hi && factor > 0.0
    ensures lo * factor <= q * factor < hi * factor
  {
  }

  /** The chart and its `@State` selection. */
  class Chart {
    const priceData: seq<PricePoint>
    const highThreshold: real
    const lowThreshold: real
    var selectedPoint: Option<PricePoint>

    constructor(priceData: seq<PricePoint>, highThreshold: real, lowThreshold: real)
      ensures this.priceData == priceData
      ensures this.highThreshold == highThreshold && this.lowThreshold == lowThreshold
      ensures selectedPoint == None
    {
      this.priceData := priceData;
      this.highThreshold := highThreshold;
      this.lowThreshold := lowThreshold;
      selectedPoint := None;
    }

    /** Tapping the circle of point `index` selects it; the circles exist only for two or more points. */
    method OnPointTapped(index: nat)
      requires |priceData| > 1 && index < |priceData|
      modifies this
      ensures selectedPoint == Some(priceData[index])
    {
      selectedPoint := Some(priceData[index]);
    }

    /**
     * A drag at `locationX` across a chart `width` wide selects the point under it when that
     * index is not negative; with fewer than two points, or left of the chart, nothing changes.
     */
    method OnDragChanged(locationX: real, width: real)
      requires |priceData| > 1 ==> width > 0.0
      modifies this
      ensures |priceData| <= 1 ==> selectedPoint == old(selectedPoint)
      ensures |priceData| > 1 && DragIndex(locationX, width, |priceData|) >= 0 ==>
        selectedPoint == Some(priceData[DragIndex(locationX, width, |priceData|)])
      ensures |priceData| > 1 && DragIndex(locationX, width, |priceData|) < 0 ==>
        selectedPoint == old(selectedPoint)
    {
      if |priceData| > 1 {
        var xStep := width / (|priceData| - 1) as real;
        var index := TruncateToInt(locationX / xStep);
        if index > |priceData| - 1 {
          index := |priceData| - 1;
        }
        if index >= 0 && index < |priceData| {
          selectedPoint := Some(priceData[index]);
        }
      }
    }

    /** A tap on the chart away from the points clears the selection. */
    method OnBackgroundTapped()
      modifies this
      ensures selectedPoint == None
    {
      selectedPoint := None;
    }
  }
}
