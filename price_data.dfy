/** The price point record and the observable store that the history screen reads. */
module PriceData {

  import opened Wrappers

  /** One feed sample: epoch milliseconds and a price in cents per kWh. */
  datatype PricePoint = PricePoint(millisUTC: int, price: real)

  /** The decoded response: a list of points. */
  datatype PriceResponse = PriceResponse(priceData: seq<PricePoint>)

  /** `timestamp`: the point's instant in seconds since the epoch. */
  function TimestampSeconds(p: PricePoint): (seconds: real)
    ensures seconds * 1000.0 == p.millisUTC as real
    ensures p.millisUTC >= 0 <==> seconds >= 0.0
  {
    p.millisUTC as real / 1000.0
  }

  /** The prices of a list of points, in order (`map { $0.price }`). */
  function Prices(points: seq<PricePoint>): (r: seq<real>)
    ensures |r| == |points|
    ensures forall i :: 0 <= i < |points| ==> r[i] == points[i].price
  {
    if points == [] then [] else [points[0].price] + Prices(points[1..])
  }

  /**
   * `PriceDataStore`: the published state of the history screen. A fetch is split into the
   * synchronous start (`FetchCurrentPrice`, `FetchPriceHistory`) and the completion handler,
   * which runs later with the fetch's result; the error carries `localizedDescription`.
   */
  class PriceDataStore {
    var currentPrice: real
    var priceHistory: seq<PricePoint>
    var isLoading: bool
    var errorMessage: string

    constructor ()
      ensures currentPrice == 0.0 && priceHistory == []
      ensures !isLoading && errorMessage == ""
    {
      currentPrice := 0.0;
      priceHistory := [];
      isLoading := false;
      errorMessage := "";
    }

    method FetchCurrentPrice()
      modifies this
      ensures isLoading && errorMessage == ""
      ensures currentPrice == old(currentPrice) && priceHistory == old(priceHistory)
    {
      isLoading := true;
      errorMessage := "";
    }

    /** Completion of `FetchCurrentPrice`: the newest (last) point becomes the current price. */
    method CurrentPriceArrived(result: Result<PriceResponse, string>)
      modifies this
      ensures !isLoading
      ensures priceHistory == old(priceHistory)
      ensures result.Success? && result.value.priceData != [] ==>
        currentPrice == result.value.priceData[|result.value.priceData| - 1].price
      ensures result.Success? && result.value.priceData == [] ==> currentPrice == old(currentPrice)
      ensures result.Success? ==> errorMessage == old(errorMessage)
      ensures result.Failure? ==> errorMessage == result.error && currentPrice == old(currentPrice)
    {
      isLoading := false;
      match result {
        case Success(prices) =>
          if prices.priceData != [] {
            currentPrice := prices.priceData[|prices.priceData| - 1].price;
          }
        case Failure(message) =>
          errorMessage := message;
      }
    }

    method FetchPriceHistory()
      modifies this
      ensures isLoading && errorMessage == ""
      ensures currentPrice == old(currentPrice) && priceHistory == old(priceHistory)
    {
      isLoading := true;
      errorMessage := "";
    }

    /** Completion of `FetchPriceHistory`: a success replaces the whole history. */
    method PriceHistoryArrived(result: Result<PriceResponse, string>)
      modifies this
      ensures !isLoading
      ensures currentPrice == old(currentPrice)
      ensures result.Success? ==> priceHistory == result.value.priceData && errorMessage == old(errorMessage)
      ensures result.Failure? ==> errorMessage == result.error && priceHistory == old(priceHistory)
    {
      isLoading := false;
      match result {
        case Success(prices) =>
          priceHistory := prices.priceData;
        case Failure(message) =>
          errorMessage := message;
      }
    }
  }
}
